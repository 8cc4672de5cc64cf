/** `ui/viewmodel/ProfileViewModel.kt`: the profile screen's data. Loading
    reads the cached user and looks the parent up by that user's email; it
    emits no events and writes nothing to the session store. The
    repository's `getParent` is a parameter. */
module ProfileViewModel {
  import opened Wrappers
  import opened Domain
  import opened Session
  import opened Effects

  const NoUser: string := "No se encontró información del usuario. Por favor inicia sesión de nuevo."
  const LoadFailed: string := "Error al cargar el perfil"

  datatype ProfileUiState = ProfileUiState(parent: Option<Parent>, isLoading: bool, error: Option<string>)

  /** The screen's initial state. */
  const Initial: ProfileUiState := ProfileUiState(None, false, None)

  /** This view-model emits no events, so its event type is the unit type. */
  type ProfileEffect = Effect<ProfileUiState, ()>

  datatype ProfileRun = ProfileRun(ui: ProfileUiState, effects: seq<ProfileEffect>)

  /** The state a load ends in, given what the store and the repository
      hold: the fixed error without a cached user, otherwise the parent
      found (clearing the error) or the lookup's message (keeping the parent
      shown before). */
  function Loaded(ui: ProfileUiState, st: Store, getParent: string -> Result<Parent>): ProfileUiState {
    if GetUser(st).None? then ui.(isLoading := false, error := Some(NoUser))
    else
      var reply := getParent(GetUser(st).value.email);
      if reply.Success? then ui.(parent := Some(reply.value), isLoading := false, error := None)
      else ui.(isLoading := false, error := Some(reply.MessageOr(LoadFailed)))
  }

  /** `loadParent()`. */
  function LoadParent(ui: ProfileUiState, st: Store, getParent: string -> Result<Parent>): (r: ProfileRun)
    ensures |r.effects| >= 2
    ensures r.effects[0] == UiUpdate(ui.(isLoading := true, error := None))
    ensures r.ui == Loaded(ui, st, getParent)
    ensures r.effects[|r.effects| - 1] == UiUpdate(r.ui)
    // Without a cached user the repository is not called.
    ensures GetUser(st).None? ==> |r.effects| == 2
    // With one, it is called once, with that user's email.
    ensures GetUser(st).Some? ==> |r.effects| == 3 && r.effects[1] == Call(GetParentCall(GetUser(st).value.email))
    ensures Events(r.effects) == []
    ensures SessionOps(r.effects) == []
  {
    var loading := ui.(isLoading := true, error := None);
    var effects: seq<ProfileEffect> :=
      if GetUser(st).None? then [UiUpdate(loading), UiUpdate(Loaded(ui, st, getParent))]
      else [UiUpdate(loading), Call(GetParentCall(GetUser(st).value.email)), UiUpdate(Loaded(ui, st, getParent))];
    QuietTrace(effects);
    ProfileRun(Loaded(ui, st, getParent), effects)
  }

  /** Construction runs one load from the initial state. */
  function Init(st: Store, getParent: string -> Result<Parent>): (r: ProfileRun)
    ensures r == LoadParent(Initial, st, getParent)
  {
    LoadParent(Initial, st, getParent)
  }

  /** `refresh()` runs the same load again from the current state. */
  function Refresh(ui: ProfileUiState, st: Store, getParent: string -> Result<Parent>): (r: ProfileRun)
    ensures r == LoadParent(ui, st, getParent)
  {
    LoadParent(ui, st, getParent)
  }

  /** `clearError`: only the error is reset. */
  function ClearError(ui: ProfileUiState): (r: ProfileUiState)
    ensures r.error == None
    ensures r.parent == ui.parent && r.isLoading == ui.isLoading
  {
    ui.(error := None)
  }

  /** Refreshing with nothing changed in the store or the backend leaves the
      screen as the first load left it. */
  lemma RefreshIdempotent(ui: ProfileUiState, st: Store, getParent: string -> Result<Parent>)
    ensures Refresh(LoadParent(ui, st, getParent).ui, st, getParent).ui == LoadParent(ui, st, getParent).ui
  {
  }

  /** A load shows the parent found for the cached user's email, and shows
      an error exactly when there is no user or the lookup failed, in which
      case the parent shown before is kept. */
  lemma LoadOutcome(ui: ProfileUiState, st: Store, getParent: string -> Result<Parent>)
    ensures Loaded(ui, st, getParent).isLoading == false
    ensures Loaded(ui, st, getParent).error.None? <==>
      GetUser(st).Some? && getParent(GetUser(st).value.email).Success?
    ensures Loaded(ui, st, getParent).error.Some? ==> Loaded(ui, st, getParent).parent == ui.parent
    ensures Loaded(ui, st, getParent).error.None? ==>
      Loaded(ui, st, getParent).parent == Some(getParent(GetUser(st).value.email).value)
  {
  }

  /** After a sign-in cached a user `getUser` accepts, the profile is looked
      up by that user's email. */
  lemma LoadsSignedInUser(ui: ProfileUiState, st: Store, id: int, name: string, email: string,
                          getParent: string -> Result<Parent>)
    requires id != NoUserId && name != [] && email != []
    ensures LoadParent(ui, SaveUser(st, id, name, email), getParent).effects[1] == Call(GetParentCall(email))
  {
  }
}
