/** `babycareia/ui/viewmodel/RegisterViewModel.kt`: the earlier
    registration flow. It sends a payload that also carries a sex code and,
    on success, only sends the user to the sign-in screen: it keeps no
    session of its own. */
module LegacyRegisterViewModel {
  import opened Wrappers
  import opened Text
  import opened Domain
  import opened Effects

  const RegisterFailed: string := "Error al registrarse"
  /** The sex code sent when none is given. */
  const DefaultSex: string := "O"

  datatype LegacyUiState = LegacyUiState(isLoading: bool, error: Option<string>)

  datatype LegacyEvent =
    | NavigateToLogin
    | ShowMessage(message: string)

  type LegacyEffect = Effect<LegacyUiState, LegacyEvent>

  /** This flow has no session store: only the UI state and the effects. */
  datatype LegacyRun = LegacyRun(ui: LegacyUiState, effects: seq<LegacyEffect>)

  /** The payload: name and email trimmed, the sex code defaulted. */
  function Request(name: string, email: string, password: string, phone: Option<string>,
                   relation: Option<string>, age: Option<int>, sex: Option<string>): LegacyRegisterData
  {
    LegacyRegisterData(Trim(name), Trim(email), password, phone, relation, age, sex.GetOr(DefaultSex))
  }

  /** `register(name, email, password, phone, relation, age, sex)`. */
  function Register(ui: LegacyUiState, name: string, email: string, password: string,
                    phone: Option<string>, relation: Option<string>, age: Option<int>, sex: Option<string>,
                    register: LegacyRegisterData -> Result<AuthResult>): (r: LegacyRun)
    ensures |r.effects| == 4
    ensures r.effects[0] == UiUpdate(LegacyUiState(true, None))
    ensures r.effects[1] == Call(LegacyRegisterCall(Request(name, email, password, phone, relation, age, sex)))
    // Nothing is written to the session store, whatever the outcome.
    ensures SessionOps(r.effects) == []
    ensures r.ui.isLoading == false
    // Success: the sign-in screen opens and no error is left.
    ensures Events(r.effects) == [NavigateToLogin] <==>
      register(Request(name, email, password, phone, relation, age, sex)).Success?
    ensures register(Request(name, email, password, phone, relation, age, sex)).Success? ==>
      r.ui.error == None
    // Failure: the message (or the fixed one) is kept and shown once.
    ensures register(Request(name, email, password, phone, relation, age, sex)).Failure? ==>
      var msg := register(Request(name, email, password, phone, relation, age, sex)).MessageOr(RegisterFailed);
      r.ui.error == Some(msg) && Events(r.effects) == [ShowMessage(msg)]
  {
    var loading := ui.(isLoading := true, error := None);
    var data := Request(name, email, password, phone, relation, age, sex);
    var reply := register(data);
    var last :=
      if reply.Success? then [UiUpdate(loading.(isLoading := false)), Emit(NavigateToLogin)]
      else [UiUpdate(loading.(isLoading := false, error := Some(reply.MessageOr(RegisterFailed)))),
            Emit(ShowMessage(reply.MessageOr(RegisterFailed)))];
    var started: seq<LegacyEffect> := [UiUpdate(loading), Call(LegacyRegisterCall(data))];
    EventsAppendPair<LegacyUiState, LegacyEvent>([], started[0], started[1]);
    SessionOpsAppendPair<LegacyUiState, LegacyEvent>([], started[0], started[1]);
    assert [] + [started[0], started[1]] == started;
    EventsAppendPair(started, last[0], last[1]);
    SessionOpsAppendPair(started, last[0], last[1]);
    assert started + [last[0], last[1]] == started + last;
    assert reply.Failure? ==> Events(started + last)[0] != NavigateToLogin;
    LegacyRun(last[0].ui, started + last)
  }

  /** `clearError`: only the error is reset. */
  function ClearError(ui: LegacyUiState): (r: LegacyUiState)
    ensures r.error == None
    ensures r.isLoading == ui.isLoading
  {
    ui.(error := None)
  }

  /** A payload sent without a sex carries "O", one sent with a sex carries
      it as given, and building the payload again from what was sent
      changes nothing. */
  lemma RequestSex(name: string, email: string, password: string, phone: Option<string>,
                   relation: Option<string>, age: Option<int>, sex: Option<string>)
    ensures Request(name, email, password, phone, relation, age, None).sex == "O"
    ensures sex.Some? ==> Request(name, email, password, phone, relation, age, sex).sex == sex.value
    ensures var d := Request(name, email, password, phone, relation, age, sex);
      Request(d.name, d.email, d.password, d.phone, d.relation, d.age, Some(d.sex)) == d
  {
    TrimIdempotent(name);
    TrimIdempotent(email);
  }
}
