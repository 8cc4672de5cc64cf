/** `ui/viewmodel/RegisterViewModel.kt`: account creation. `register` sends
    the registration, replaces the session by the token it returns, then
    `fetchAndSaveParentThenNavigate` looks the new parent up by email and
    caches it before opening the baby registration screen. The repositories
    are parameters, and so is whether the best-effort `saveUser` throws. */
module RegisterViewModel {
  import opened Wrappers
  import opened Text
  import opened Domain
  import opened Session
  import opened Effects

  const RegisterFailed: string := "Error al registrarse"
  const ParentMissing: string := "Registrado pero no se pudo obtener la info del usuario"

  datatype RegisterUiState = RegisterUiState(isLoading: bool, error: Option<string>)

  datatype RegisterEvent =
    | NavigateToAddBaby
    | NavigateToLogin
    | ShowMessage(message: string)

  datatype RegisterRepos = RegisterRepos(
    register: RegisterData -> Result<AuthResult>,
    getParent: string -> Result<Parent>,
    saveUserThrows: bool)

  type RegisterEffect = Effect<RegisterUiState, RegisterEvent>

  datatype RegisterRun = RegisterRun(ui: RegisterUiState, store: Store, effects: seq<RegisterEffect>)

  /** The payload `register` builds: name and email trimmed, the rest as
      given. */
  function Request(name: string, email: string, password: string, phone: Option<string>,
                   relation: Option<string>, age: Option<int>): RegisterData
  {
    RegisterData(Trim(name), Trim(email), password, phone, relation, age)
  }

  /** Building the payload from a payload changes nothing: trimming twice is
      trimming once. */
  lemma RequestIdempotent(name: string, email: string, password: string, phone: Option<string>,
                          relation: Option<string>, age: Option<int>)
    ensures var d := Request(name, email, password, phone, relation, age);
      Request(d.name, d.email, d.password, d.phone, d.relation, d.age) == d
  {
    TrimIdempotent(name);
    TrimIdempotent(email);
  }

  /** The message and screen the parent lookup leads to. */
  function ParentOutcome(reply: Result<Parent>): RegisterEvent {
    if reply.Failure? then ShowMessage(reply.MessageOr(ParentMissing)) else NavigateToAddBaby
  }

  function ParentUi(ui: RegisterUiState, reply: Result<Parent>): RegisterUiState {
    if reply.Failure? then ui.(isLoading := false, error := Some(reply.MessageOr(ParentMissing)))
    else ui.(isLoading := false)
  }

  /** The events a whole registration emits. */
  function RegisterEvents(repos: RegisterRepos, data: RegisterData, email: string): seq<RegisterEvent> {
    var reply := repos.register(data);
    if reply.Failure? then [ShowMessage(reply.MessageOr(RegisterFailed))]
    else [ParentOutcome(repos.getParent(email))]
  }

  /** The UI state a whole registration ends in. */
  function RegisterUi(repos: RegisterRepos, data: RegisterData, email: string): RegisterUiState {
    var reply := repos.register(data);
    if reply.Failure? then RegisterUiState(false, Some(reply.MessageOr(RegisterFailed)))
    else ParentUi(RegisterUiState(true, None), repos.getParent(email))
  }

  /** The session store a whole registration ends in. */
  function RegisterStore(st: Store, repos: RegisterRepos, data: RegisterData, email: string): Store {
    var reply := repos.register(data);
    if reply.Failure? then st
    else CacheParent(SaveToken(ClearSession(st), reply.value.token), repos.getParent(email), repos.saveUserThrows)
  }

  /** The shared failure branch: stop loading, keep the message, show it.
      Each stage below returns only the effects it adds itself. */
  method ShowError(ui: RegisterUiState, st: Store, msg: string) returns (r: RegisterRun)
    ensures r.ui == ui.(isLoading := false, error := Some(msg))
    ensures r.store == st
    ensures |r.effects| == 2 && r.effects[0] == UiUpdate(r.ui)
    ensures Events(r.effects) == [ShowMessage(msg)]
    ensures SessionOps(r.effects) == []
  {
    var failed := ui.(isLoading := false, error := Some(msg));
    TracePair<RegisterUiState, RegisterEvent>(UiUpdate(failed), Emit(ShowMessage(msg)));
    r := RegisterRun(failed, st, [UiUpdate(failed), Emit(ShowMessage(msg))]);
  }

  /** `register(name, email, password, phone, relation, age)`. */
  method Register(ui: RegisterUiState, st: Store, name: string, email: string, password: string,
                  phone: Option<string>, relation: Option<string>, age: Option<int>, repos: RegisterRepos)
    returns (r: RegisterRun)
    // Progress shown and the old error cleared, then the trimmed payload sent.
    ensures |r.effects| >= 4
    ensures r.effects[0] == UiUpdate(RegisterUiState(true, None))
    ensures r.effects[1] == Call(RegisterCall(Request(name, email, password, phone, relation, age)))
    ensures r.ui == RegisterUi(repos, Request(name, email, password, phone, relation, age), email)
    ensures r.store == RegisterStore(st, repos, Request(name, email, password, phone, relation, age), email)
    ensures Events(r.effects) == RegisterEvents(repos, Request(name, email, password, phone, relation, age), email)
    // A rejected registration writes nothing to the session store.
    ensures repos.register(Request(name, email, password, phone, relation, age)).Failure? ==>
      SessionOps(r.effects) == []
    // An accepted one replaces the session by the new token before the
    // parent is looked up, by the email as passed rather than trimmed.
    ensures repos.register(Request(name, email, password, phone, relation, age)).Success? ==>
      var token := repos.register(Request(name, email, password, phone, relation, age)).value.token;
      && |r.effects| >= 5
      && r.effects[2] == SessionWrite(ClearSessionOp)
      && r.effects[3] == SessionWrite(SaveTokenOp(token))
      && r.effects[4] == Call(GetParentCall(email))
      && SessionOps(r.effects) == [ClearSessionOp, SaveTokenOp(token)] + CachedUser(repos.getParent(email))
  {
    r := Send(ui, st, Request(name, email, password, phone, relation, age), email, repos);
  }

  /** The body of `register` once the payload is built. */
  method Send(ui: RegisterUiState, st: Store, data: RegisterData, email: string, repos: RegisterRepos)
    returns (r: RegisterRun)
    ensures |r.effects| >= 4
    ensures r.effects[0] == UiUpdate(RegisterUiState(true, None))
    ensures r.effects[1] == Call(RegisterCall(data))
    ensures r.ui == RegisterUi(repos, data, email)
    ensures r.store == RegisterStore(st, repos, data, email)
    ensures Events(r.effects) == RegisterEvents(repos, data, email)
    ensures repos.register(data).Failure? ==> SessionOps(r.effects) == []
    ensures repos.register(data).Success? ==>
      var token := repos.register(data).value.token;
      && |r.effects| >= 5
      && r.effects[2] == SessionWrite(ClearSessionOp)
      && r.effects[3] == SessionWrite(SaveTokenOp(token))
      && r.effects[4] == Call(GetParentCall(email))
      && SessionOps(r.effects) == [ClearSessionOp, SaveTokenOp(token)] + CachedUser(repos.getParent(email))
  {
    var loading := ui.(isLoading := true, error := None);
    var started: seq<RegisterEffect> := [UiUpdate(loading), Call(RegisterCall(data))];
    TracePair<RegisterUiState, RegisterEvent>(UiUpdate(loading), Call(RegisterCall(data)));
    var reply := repos.register(data);
    var rest: RegisterRun;
    if reply.Failure? {
      rest := ShowError(loading, st, reply.MessageOr(RegisterFailed));
    } else {
      rest := StartSession(loading, st, reply.value.token, email, repos);
    }
    TraceThen(started, rest.effects);
    r := RegisterRun(rest.ui, rest.store, started + rest.effects);
  }

  /** The success branch of `register`: replace the session by the new
      token, then look the parent up. */
  method StartSession(ui: RegisterUiState, st: Store, token: string, email: string, repos: RegisterRepos)
    returns (r: RegisterRun)
    ensures |r.effects| >= 3
    ensures r.effects[0] == SessionWrite(ClearSessionOp)
    ensures r.effects[1] == SessionWrite(SaveTokenOp(token))
    ensures r.effects[2] == Call(GetParentCall(email))
    ensures r.store == CacheParent(SaveToken(ClearSession(st), token), repos.getParent(email), repos.saveUserThrows)
    ensures r.ui == ParentUi(ui, repos.getParent(email))
    ensures Events(r.effects) == [ParentOutcome(repos.getParent(email))]
    ensures SessionOps(r.effects) == [ClearSessionOp, SaveTokenOp(token)] + CachedUser(repos.getParent(email))
  {
    var signedIn: seq<RegisterEffect> := [SessionWrite(ClearSessionOp), SessionWrite(SaveTokenOp(token))];
    TracePair<RegisterUiState, RegisterEvent>(SessionWrite(ClearSessionOp), SessionWrite(SaveTokenOp(token)));
    var rest := FetchAndSaveParentThenNavigate(ui, SaveToken(ClearSession(st), token), email, repos);
    TraceThen(signedIn, rest.effects);
    r := RegisterRun(rest.ui, rest.store, signedIn + rest.effects);
  }

  /** `fetchAndSaveParentThenNavigate(email)`: look the parent up, cache it
      (a failing write is ignored) and open the baby registration screen. */
  method FetchAndSaveParentThenNavigate(ui: RegisterUiState, st: Store, email: string, repos: RegisterRepos)
    returns (r: RegisterRun)
    ensures |r.effects| >= 1 && r.effects[0] == Call(GetParentCall(email))
    ensures r.store == CacheParent(st, repos.getParent(email), repos.saveUserThrows)
    ensures r.ui == ParentUi(ui, repos.getParent(email))
    ensures Events(r.effects) == [ParentOutcome(repos.getParent(email))]
    ensures SessionOps(r.effects) == CachedUser(repos.getParent(email))
  {
    var asked: seq<RegisterEffect> := [Call(GetParentCall(email))];
    TraceOne<RegisterUiState, RegisterEvent>(Call(GetParentCall(email)));
    var reply := repos.getParent(email);
    var rest: RegisterRun;
    if reply.Failure? {
      rest := ShowError(ui, st, reply.MessageOr(ParentMissing));
    } else {
      var p := reply.value;
      var done := ui.(isLoading := false);
      var saved: seq<RegisterEffect> := [SessionWrite(SaveUserOp(p.id, p.name, p.email))];
      TraceOne<RegisterUiState, RegisterEvent>(SessionWrite(SaveUserOp(p.id, p.name, p.email)));
      TracePair<RegisterUiState, RegisterEvent>(UiUpdate(done), Emit(NavigateToAddBaby));
      TraceThen(saved, [UiUpdate(done), Emit(NavigateToAddBaby)]);
      rest := RegisterRun(done, CacheParent(st, reply, repos.saveUserThrows),
                          saved + [UiUpdate(done), Emit(NavigateToAddBaby)]);
    }
    TraceThen(asked, rest.effects);
    r := RegisterRun(rest.ui, rest.store, asked + rest.effects);
  }

  /** `clearError`: only the error is reset. */
  function ClearError(ui: RegisterUiState): (r: RegisterUiState)
    ensures r.error == None
    ensures r.isLoading == ui.isLoading
  {
    ui.(error := None)
  }

  /** A registration emits exactly one event. It opens the baby registration
      screen exactly when both the registration and the parent lookup
      succeed, and then ends idle without an error; otherwise the event is a
      message the UI state keeps as its error. It never opens the sign-in
      screen. */
  lemma RegisterOutcome(repos: RegisterRepos, data: RegisterData, email: string)
    ensures |RegisterEvents(repos, data, email)| == 1
    ensures RegisterEvents(repos, data, email) == [NavigateToAddBaby] <==>
      repos.register(data).Success? && repos.getParent(email).Success?
    ensures RegisterEvents(repos, data, email)[0] != NavigateToLogin
    ensures RegisterEvents(repos, data, email)[0].NavigateToAddBaby? ==>
      RegisterUi(repos, data, email) == RegisterUiState(false, None)
    ensures RegisterEvents(repos, data, email)[0].ShowMessage? ==>
      RegisterUi(repos, data, email) == RegisterUiState(false, Some(RegisterEvents(repos, data, email)[0].message))
  {
  }

  /** A failed parent lookup leaves the new token saved and no user cached. */
  lemma ParentFailureKeepsToken(st: Store, repos: RegisterRepos, data: RegisterData, email: string)
    requires repos.register(data).Success?
    requires repos.getParent(email).Failure?
    ensures GetToken(RegisterStore(st, repos, data, email)) == Some(repos.register(data).value.token)
    ensures GetUser(RegisterStore(st, repos, data, email)) == None
  {
  }
}
