/** `ui/viewmodel/LoginViewModel.kt`: sign-in. `login` authenticates, then
    `getParentInfoAndProceed` looks the parent up by email and caches it,
    then `getBabiesForUser` picks the screen to open from whether the parent
    has any babies. The three repositories are parameters, and so is whether
    the best-effort `saveUser` throws.

    Each stage is a method so that a caller sees only its contract; the
    functions `LoginEvents`, `LoginUi` and `LoginStore` say independently
    what a whole attempt is meant to produce. */
module LoginViewModel {
  import opened Wrappers
  import opened Text
  import opened Domain
  import opened Session
  import opened Effects

  const NetworkError: string := "Error de red"

  datatype LoginUiState = LoginUiState(isLoading: bool, error: Option<string>)

  datatype LoginEvent =
    | NavigateToHome
    | NavigateToRegister
    | NavigateToRegisterBaby
    | ShowMessage(message: string)

  datatype LoginRepos = LoginRepos(
    auth: LoginCredentials -> Result<AuthResult>,
    getParent: string -> Result<Parent>,
    getBabies: int -> Result<seq<Baby>>,
    saveUserThrows: bool)

  type LoginEffect = Effect<LoginUiState, LoginEvent>

  /** The UI state, the session store and the effects after an action. */
  datatype LoginRun = LoginRun(ui: LoginUiState, store: Store, effects: seq<LoginEffect>)

  /** The credentials `login` sends: the email trimmed, the password as typed. */
  function Credentials(email: string, password: string): LoginCredentials {
    LoginCredentials(Trim(email), password)
  }

  predicate IsNavigation(e: LoginEvent) {
    e.NavigateToHome? || e.NavigateToRegisterBaby?
  }

  /** How many of `events` open another screen after sign-in. */
  function Navigations(events: seq<LoginEvent>): (n: nat)
    ensures n <= |events|
  {
    if |events| == 0 then 0
    else Navigations(events[..|events| - 1]) + (if IsNavigation(events[|events| - 1]) then 1 else 0)
  }

  /** All three stages succeed: authentication, the parent lookup, and the
      lookup of that parent's babies. */
  predicate SignsIn(repos: LoginRepos, email: string, password: string) {
    && repos.auth(Credentials(email, password)).Success?
    && repos.getParent(email).Success?
    && repos.getBabies(repos.getParent(email).value.id).Success?
  }

  /** What the baby lookup leads to: a message on failure, otherwise the
      screen to open, chosen by whether the parent has any babies. */
  function BabiesOutcome(reply: Result<seq<Baby>>): LoginEvent {
    if reply.Failure? then ShowMessage(reply.MessageOr(NetworkError))
    else if reply.value == [] then NavigateToRegisterBaby
    else NavigateToHome
  }

  /** The UI state the baby lookup leaves behind. */
  function BabiesUi(ui: LoginUiState, reply: Result<seq<Baby>>): LoginUiState {
    if reply.Failure? then ui.(isLoading := false, error := Some(reply.MessageOr(NetworkError)))
    else ui.(isLoading := false)
  }

  /** What the parent lookup leads to: a message on failure, otherwise what
      the lookup of that parent's babies leads to. */
  function ParentOutcome(repos: LoginRepos, email: string): LoginEvent {
    var reply := repos.getParent(email);
    if reply.Failure? then ShowMessage(reply.MessageOr(NetworkError))
    else BabiesOutcome(repos.getBabies(reply.value.id))
  }

  /** The UI state the parent lookup and what follows it leave behind. */
  function ParentUi(ui: LoginUiState, repos: LoginRepos, email: string): LoginUiState {
    var reply := repos.getParent(email);
    if reply.Failure? then ui.(isLoading := false, error := Some(reply.MessageOr(NetworkError)))
    else BabiesUi(ui, repos.getBabies(reply.value.id))
  }

  /** The events a whole attempt emits. */
  function LoginEvents(repos: LoginRepos, email: string, password: string): seq<LoginEvent> {
    var auth := repos.auth(Credentials(email, password));
    if auth.Failure? then [ShowMessage(auth.MessageOr(NetworkError))]
    else [ParentOutcome(repos, email)]
  }

  /** The UI state a whole attempt ends in. */
  function LoginUi(repos: LoginRepos, email: string, password: string): LoginUiState {
    var auth := repos.auth(Credentials(email, password));
    if auth.Failure? then LoginUiState(false, Some(auth.MessageOr(NetworkError)))
    else ParentUi(LoginUiState(true, None), repos, email)
  }

  /** The session store a whole attempt ends in: untouched when sign-in is
      rejected, otherwise the old session replaced by the new token and,
      when possible, the parent. */
  function LoginStore(st: Store, repos: LoginRepos, email: string, password: string): Store {
    var auth := repos.auth(Credentials(email, password));
    if auth.Failure? then st
    else CacheParent(SaveToken(ClearSession(st), auth.value.token), repos.getParent(email), repos.saveUserThrows)
  }

  /** The shared failure branch: stop loading, keep the message, show it.
      Each stage below returns only the effects it adds itself. */
  method ShowError(ui: LoginUiState, st: Store, msg: string) returns (r: LoginRun)
    ensures r.ui == ui.(isLoading := false, error := Some(msg))
    ensures r.store == st
    ensures |r.effects| == 2 && r.effects[0] == UiUpdate(r.ui)
    ensures Events(r.effects) == [ShowMessage(msg)]
    ensures SessionOps(r.effects) == []
  {
    var failed := ui.(isLoading := false, error := Some(msg));
    TracePair<LoginUiState, LoginEvent>(UiUpdate(failed), Emit(ShowMessage(msg)));
    r := LoginRun(failed, st, [UiUpdate(failed), Emit(ShowMessage(msg))]);
  }

  /** `login(email, password)`. */
  method Login(ui: LoginUiState, st: Store, email: string, password: string, repos: LoginRepos) returns (r: LoginRun)
    // Every attempt starts by showing progress and clearing the old error,
    // then authenticates with the trimmed email.
    ensures |r.effects| >= 4
    ensures r.effects[0] == UiUpdate(LoginUiState(true, None))
    ensures r.effects[1] == Call(LoginCall(Credentials(email, password)))
    ensures r.ui == LoginUi(repos, email, password)
    ensures r.store == LoginStore(st, repos, email, password)
    ensures Events(r.effects) == LoginEvents(repos, email, password)
    // A rejected sign-in writes nothing to the session store.
    ensures repos.auth(Credentials(email, password)).Failure? ==> SessionOps(r.effects) == []
    // An accepted one clears the old session and saves the new token before
    // the parent is looked up, by the email exactly as passed; the parent,
    // once found, is cached before its babies are looked up by its id.
    ensures repos.auth(Credentials(email, password)).Success? ==>
      var token := repos.auth(Credentials(email, password)).value.token;
      && |r.effects| >= 5
      && r.effects[2] == SessionWrite(ClearSessionOp)
      && r.effects[3] == SessionWrite(SaveTokenOp(token))
      && r.effects[4] == Call(GetParentCall(email))
      && SessionOps(r.effects) == [ClearSessionOp, SaveTokenOp(token)] + CachedUser(repos.getParent(email))
    ensures repos.auth(Credentials(email, password)).Success? && repos.getParent(email).Success? ==>
      var p := repos.getParent(email).value;
      && |r.effects| >= 7
      && r.effects[5] == SessionWrite(SaveUserOp(p.id, p.name, p.email))
      && r.effects[6] == Call(GetBabiesCall(p.id))
  {
    var loading := ui.(isLoading := true, error := None);
    var creds := Credentials(email, password);
    var started: seq<LoginEffect> := [UiUpdate(loading), Call(LoginCall(creds))];
    TracePair<LoginUiState, LoginEvent>(UiUpdate(loading), Call(LoginCall(creds)));
    var auth := repos.auth(creds);
    var rest: LoginRun;
    if auth.Failure? {
      rest := ShowError(loading, st, auth.MessageOr(NetworkError));
    } else {
      rest := StartSession(loading, st, auth.value.token, email, repos);
    }
    TraceThen(started, rest.effects);
    r := LoginRun(rest.ui, rest.store, started + rest.effects);
  }

  /** The success branch of `login`: replace the session by the new token,
      then look the parent up. */
  method StartSession(ui: LoginUiState, st: Store, token: string, email: string, repos: LoginRepos)
    returns (r: LoginRun)
    ensures |r.effects| >= 5
    ensures r.effects[0] == SessionWrite(ClearSessionOp)
    ensures r.effects[1] == SessionWrite(SaveTokenOp(token))
    ensures r.effects[2] == Call(GetParentCall(email))
    ensures repos.getParent(email).Success? ==>
      var p := repos.getParent(email).value;
      && r.effects[3] == SessionWrite(SaveUserOp(p.id, p.name, p.email))
      && r.effects[4] == Call(GetBabiesCall(p.id))
    ensures r.store == CacheParent(SaveToken(ClearSession(st), token), repos.getParent(email), repos.saveUserThrows)
    ensures r.ui == ParentUi(ui, repos, email)
    ensures SessionOps(r.effects) == [ClearSessionOp, SaveTokenOp(token)] + CachedUser(repos.getParent(email))
    ensures Events(r.effects) == [ParentOutcome(repos, email)]
  {
    var signedIn: seq<LoginEffect> := [SessionWrite(ClearSessionOp), SessionWrite(SaveTokenOp(token))];
    TracePair<LoginUiState, LoginEvent>(SessionWrite(ClearSessionOp), SessionWrite(SaveTokenOp(token)));
    var rest := GetParentInfoAndProceed(ui, SaveToken(ClearSession(st), token), email, repos);
    TraceThen(signedIn, rest.effects);
    r := LoginRun(rest.ui, rest.store, signedIn + rest.effects);
  }

  /** `getParentInfoAndProceed(email)`: look the parent up by email, cache it
      (a failing write is ignored), then look up its babies by its id. */
  method GetParentInfoAndProceed(ui: LoginUiState, st: Store, email: string, repos: LoginRepos)
    returns (r: LoginRun)
    ensures |r.effects| >= 3
    ensures r.effects[0] == Call(GetParentCall(email))
    ensures repos.getParent(email).Success? ==>
      var p := repos.getParent(email).value;
      && r.effects[1] == SessionWrite(SaveUserOp(p.id, p.name, p.email))
      && r.effects[2] == Call(GetBabiesCall(p.id))
    ensures r.store == CacheParent(st, repos.getParent(email), repos.saveUserThrows)
    ensures r.ui == ParentUi(ui, repos, email)
    ensures SessionOps(r.effects) == CachedUser(repos.getParent(email))
    ensures Events(r.effects) == [ParentOutcome(repos, email)]
  {
    var asked: seq<LoginEffect> := [Call(GetParentCall(email))];
    TraceOne<LoginUiState, LoginEvent>(Call(GetParentCall(email)));
    var reply := repos.getParent(email);
    var rest: LoginRun;
    if reply.Failure? {
      rest := ShowError(ui, st, reply.MessageOr(NetworkError));
    } else {
      rest := CacheParentAndProceed(ui, st, reply.value, repos);
    }
    TraceThen(asked, rest.effects);
    r := LoginRun(rest.ui, rest.store, asked + rest.effects);
  }

  /** The success branch of `getParentInfoAndProceed`: `saveUser` inside a
      `try` whose failure is ignored, then the baby lookup by `parent.id`. */
  method CacheParentAndProceed(ui: LoginUiState, st: Store, p: Parent, repos: LoginRepos) returns (r: LoginRun)
    ensures |r.effects| >= 2
    ensures r.effects[0] == SessionWrite(SaveUserOp(p.id, p.name, p.email))
    ensures r.effects[1] == Call(GetBabiesCall(p.id))
    ensures r.store == (if repos.saveUserThrows then st else SaveUser(st, p.id, p.name, p.email))
    ensures r.ui == BabiesUi(ui, repos.getBabies(p.id))
    ensures Events(r.effects) == [BabiesOutcome(repos.getBabies(p.id))]
    ensures SessionOps(r.effects) == [SaveUserOp(p.id, p.name, p.email)]
  {
    var store := if repos.saveUserThrows then st else SaveUser(st, p.id, p.name, p.email);
    var saved: seq<LoginEffect> := [SessionWrite(SaveUserOp(p.id, p.name, p.email))];
    TraceOne<LoginUiState, LoginEvent>(SessionWrite(SaveUserOp(p.id, p.name, p.email)));
    var rest := GetBabiesForUser(ui, store, p.id, repos);
    TraceThen(saved, rest.effects);
    r := LoginRun(rest.ui, rest.store, saved + rest.effects);
  }

  /** `getBabiesForUser(userId)`: stop loading and open the next screen, or
      show the error. */
  method GetBabiesForUser(ui: LoginUiState, st: Store, userId: int, repos: LoginRepos) returns (r: LoginRun)
    ensures r.store == st
    ensures |r.effects| >= 1 && r.effects[0] == Call(GetBabiesCall(userId))
    ensures r.ui == BabiesUi(ui, repos.getBabies(userId))
    ensures Events(r.effects) == [BabiesOutcome(repos.getBabies(userId))]
    ensures SessionOps(r.effects) == []
  {
    var asked: seq<LoginEffect> := [Call(GetBabiesCall(userId))];
    TraceOne<LoginUiState, LoginEvent>(Call(GetBabiesCall(userId)));
    var reply := repos.getBabies(userId);
    var rest: LoginRun;
    if reply.Failure? {
      rest := ShowError(ui, st, reply.MessageOr(NetworkError));
    } else {
      var done := ui.(isLoading := false);
      var nav := if reply.value == [] then NavigateToRegisterBaby else NavigateToHome;
      TracePair<LoginUiState, LoginEvent>(UiUpdate(done), Emit(nav));
      rest := LoginRun(done, st, [UiUpdate(done), Emit(nav)]);
    }
    TraceThen(asked, rest.effects);
    r := LoginRun(rest.ui, rest.store, asked + rest.effects);
  }

  /** `clearError`: only the error is reset. */
  function ClearError(ui: LoginUiState): (r: LoginUiState)
    ensures r.error == None
    ensures r.isLoading == ui.isLoading
  {
    ui.(error := None)
  }

  /** `navigateToRegister`: only the event that opens the registration
      screen. It does not count as a post-sign-in navigation, and the UI
      state and the session store are untouched. */
  method NavigateToRegisterScreen(ui: LoginUiState, st: Store) returns (r: LoginRun)
    ensures r.ui == ui && r.store == st
    ensures Events(r.effects) == [NavigateToRegister]
    ensures SessionOps(r.effects) == []
    ensures Navigations(Events(r.effects)) == 0
  {
    TraceOne<LoginUiState, LoginEvent>(Emit(NavigateToRegister));
    assert [NavigateToRegister][..0] == [];
    r := LoginRun(ui, st, [Emit(NavigateToRegister)]);
  }

  /** A sign-in attempt emits exactly one event. It opens exactly one screen
      when all three stages succeed (the baby registration screen for a
      parent without babies, home otherwise) and ends idle without an error;
      when any stage fails it opens none, and the one event is a message
      that the UI state keeps as its error. */
  lemma LoginNavigatesOnce(repos: LoginRepos, email: string, password: string)
    ensures var ev := LoginEvents(repos, email, password);
      && |ev| == 1
      && Navigations(ev) == (if SignsIn(repos, email, password) then 1 else 0)
    ensures SignsIn(repos, email, password) ==>
      && LoginUi(repos, email, password) == LoginUiState(false, None)
      && LoginEvents(repos, email, password) ==
           [if repos.getBabies(repos.getParent(email).value.id).value == [] then NavigateToRegisterBaby else NavigateToHome]
    ensures !SignsIn(repos, email, password) ==>
      && LoginEvents(repos, email, password)[0].ShowMessage?
      && LoginUi(repos, email, password) == LoginUiState(false, Some(LoginEvents(repos, email, password)[0].message))
  {
    var ev := LoginEvents(repos, email, password);
    assert ev[..0] == [];
  }

  /** A failed parent lookup leaves the new token saved and no user cached:
      the session holds a token without a user, and nothing is rolled back. */
  lemma ParentFailureKeepsToken(st: Store, email: string, password: string, repos: LoginRepos)
    requires repos.auth(Credentials(email, password)).Success?
    requires repos.getParent(email).Failure?
    ensures GetToken(LoginStore(st, repos, email, password)) == Some(repos.auth(Credentials(email, password)).value.token)
    ensures GetUser(LoginStore(st, repos, email, password)) == None
  {
  }

  /** Once the parent is found and cached, the session holds exactly the new
      token and the new parent (if `getUser` accepts it), so nothing of an
      earlier session can be read back; if caching threw, no user at all. */
  lemma SignedInSession(st: Store, email: string, password: string, repos: LoginRepos)
    requires repos.auth(Credentials(email, password)).Success?
    requires repos.getParent(email).Success?
    ensures var s := LoginStore(st, repos, email, password);
      var p := repos.getParent(email).value;
      && GetToken(s) == Some(repos.auth(Credentials(email, password)).value.token)
      && (repos.saveUserThrows ==> GetUser(s) == None)
      && (!repos.saveUserThrows ==>
            GetUser(s) ==
              (if p.id != NoUserId && p.name != [] && p.email != [] then Some(CurrentUser(p.id, p.name, p.email)) else None))
  {
    var p := repos.getParent(email).value;
    if !repos.saveUserThrows && p.id != NoUserId && p.name != [] && p.email != [] {
      assert GetUser(LoginStore(st, repos, email, password)).Some?;
    }
  }
}
