/** `ui/viewmodel/AddBabyViewModel.kt`: registering a baby for a parent.
    The view-model remembers the id of the cached user as the current parent;
    `saveBaby` uses an explicit parent id when given one and that remembered
    id otherwise, and never calls the repository without a parent. The
    repository's `createBaby` is a parameter. */
module AddBabyViewModel {
  import opened Wrappers
  import opened Domain
  import opened BabySexCodec
  import opened Session
  import opened Effects

  const NoParent: string := "No se encontró el padre actual. Inicia sesión de nuevo."
  const Created: string := "Bebé registrado exitosamente"
  const CreateFailed: string := "Error al registrar el bebé"

  datatype AddBabyUiState = AddBabyUiState(isLoading: bool, error: Option<string>, success: bool)

  datatype AddBabyEvent =
    | NavigateToHome
    | ShowMessage(message: string)

  /** The view-model's state: the UI state and `currentParentId`. */
  datatype AddBabyVm = AddBabyVm(ui: AddBabyUiState, currentParentId: Option<int>)

  type AddBabyEffect = Effect<AddBabyUiState, AddBabyEvent>

  datatype AddBabyRun = AddBabyRun(vm: AddBabyVm, effects: seq<AddBabyEffect>)

  /** `tokenStore.getUser()?.id`. */
  function CachedUserId(st: Store): (r: Option<int>)
    ensures r.Some? <==> GetUser(st).Some?
    ensures r.Some? ==> r.value == GetUser(st).value.id
  {
    if GetUser(st).Some? then Some(GetUser(st).value.id) else None
  }

  /** A fresh view-model: default UI state, the cached user's id. */
  function Init(st: Store): (vm: AddBabyVm)
    ensures vm.ui == AddBabyUiState(false, None, false)
    ensures vm.currentParentId == CachedUserId(st)
  {
    AddBabyVm(AddBabyUiState(false, None, false), CachedUserId(st))
  }

  /** `refreshCurrentParent`: re-read the id, leave the UI state alone. */
  function RefreshCurrentParent(vm: AddBabyVm, st: Store): (r: AddBabyVm)
    ensures r.ui == vm.ui
    ensures r.currentParentId == CachedUserId(st)
  {
    vm.(currentParentId := CachedUserId(st))
  }

  /** After a sign-in cached a user `getUser` accepts, the view-model's
      current parent is that user; after the session is cleared it has none. */
  lemma CurrentParentFollowsSession(st: Store, vm: AddBabyVm, id: int, name: string, email: string)
    ensures id != NoUserId && name != [] && email != [] ==>
      Init(SaveUser(st, id, name, email)).currentParentId == Some(id) &&
      RefreshCurrentParent(vm, SaveUser(st, id, name, email)).currentParentId == Some(id)
    ensures Init(ClearSession(st)).currentParentId == None
    ensures RefreshCurrentParent(vm, ClearSession(st)).currentParentId == None
  {
  }

  /** `parentId ?: currentParentId.value`. */
  function ResolveParent(explicit: Option<int>, current: Option<int>): (r: Option<int>)
    ensures r.Some? <==> explicit.Some? || current.Some?
    ensures explicit.Some? ==> r == explicit
    ensures explicit.None? ==> r == current
  {
    if explicit.Some? then explicit else current
  }

  /** The events a `createBaby` reply leads to: the confirmation and then
      the home screen, or the failure message alone. */
  function CreateEvents(reply: Result<Baby>): seq<AddBabyEvent> {
    if reply.Success? then [ShowMessage(Created), NavigateToHome]
    else [ShowMessage(reply.MessageOr(CreateFailed))]
  }

  /** The UI state a `createBaby` reply leaves behind. */
  function CreateUi(ui: AddBabyUiState, reply: Result<Baby>): AddBabyUiState {
    if reply.Success? then ui.(isLoading := false, success := true)
    else ui.(isLoading := false, error := Some(reply.MessageOr(CreateFailed)))
  }

  /** `saveBaby(parentId, name, ageMonths, sex, weight, height)`. */
  method SaveBaby(vm: AddBabyVm, parentId: Option<int>, name: string, ageMonths: int, sex: BabySex,
                  weight: Option<Float>, height: Option<Float>, create: BabyData -> Result<Baby>)
    returns (r: AddBabyRun)
    // Starting resets only `isLoading` and `error`; `success` is kept.
    ensures |r.effects| >= 3
    ensures r.effects[0] == UiUpdate(vm.ui.(isLoading := true, error := None))
    ensures r.vm.currentParentId == vm.currentParentId
    ensures r.vm.ui.isLoading == false
    ensures vm.ui.success ==> r.vm.ui.success
    ensures SessionOps(r.effects) == []
    // Without a parent nothing is sent: the fixed error is kept and shown.
    ensures ResolveParent(parentId, vm.currentParentId).None? ==>
      && (forall i :: 0 <= i < |r.effects| ==> !r.effects[i].Call?)
      && r.vm.ui == vm.ui.(isLoading := false, error := Some(NoParent))
      && Events(r.effects) == [ShowMessage(NoParent)]
    // With one, the data sent carries it and the other arguments unchanged.
    ensures ResolveParent(parentId, vm.currentParentId).Some? ==>
      var data := BabyData(ResolveParent(parentId, vm.currentParentId).value, name, ageMonths, sex, weight, height);
      && r.effects[1] == Call(CreateBabyCall(data))
      && r.vm.ui == CreateUi(vm.ui.(isLoading := true, error := None), create(data))
      && Events(r.effects) == CreateEvents(create(data))
  {
    var loading := vm.ui.(isLoading := true, error := None);
    var effects: seq<AddBabyEffect> := [UiUpdate(loading)];
    EventsAppendOne<AddBabyUiState, AddBabyEvent>([], UiUpdate(loading));
    SessionOpsAppendOne<AddBabyUiState, AddBabyEvent>([], UiUpdate(loading));
    assert [] + effects == effects;
    var finalParentId := ResolveParent(parentId, vm.currentParentId);
    if finalParentId.None? {
      var ui := loading.(isLoading := false, error := Some(NoParent));
      EventsAppendPair(effects, UiUpdate(ui), Emit(ShowMessage(NoParent)));
      SessionOpsAppendPair(effects, UiUpdate(ui), Emit(ShowMessage(NoParent)));
      r := AddBabyRun(vm.(ui := ui), effects + [UiUpdate(ui), Emit(ShowMessage(NoParent))]);
    } else {
      var data := BabyData(finalParentId.value, name, ageMonths, sex, weight, height);
      r := CreateAndReport(AddBabyRun(vm.(ui := loading), effects), data, create);
      assert r.effects[..1] == effects;
    }
  }

  /** The part of `saveBaby` after the parent is known: send the data and
      report the reply. */
  method CreateAndReport(run: AddBabyRun, data: BabyData, create: BabyData -> Result<Baby>) returns (r: AddBabyRun)
    ensures |r.effects| >= |run.effects| + 3 && r.effects[..|run.effects|] == run.effects
    ensures r.effects[|run.effects|] == Call(CreateBabyCall(data))
    ensures r.vm == run.vm.(ui := CreateUi(run.vm.ui, create(data)))
    ensures Events(r.effects) == Events(run.effects) + CreateEvents(create(data))
    ensures SessionOps(r.effects) == SessionOps(run.effects)
  {
    var effects := run.effects + [Call(CreateBabyCall(data))];
    EventsAppendOne(run.effects, Call(CreateBabyCall(data)));
    SessionOpsAppendOne(run.effects, Call(CreateBabyCall(data)));
    var reply := create(data);
    var ui := CreateUi(run.vm.ui, reply);
    if reply.Success? {
      EventsAppendPair(effects, UiUpdate(ui), Emit(ShowMessage(Created)));
      SessionOpsAppendPair(effects, UiUpdate(ui), Emit(ShowMessage(Created)));
      var shown := effects + [UiUpdate(ui), Emit(ShowMessage(Created))];
      EventsAppendOne(shown, Emit(NavigateToHome));
      SessionOpsAppendOne(shown, Emit(NavigateToHome));
      r := AddBabyRun(run.vm.(ui := ui), shown + [Emit(NavigateToHome)]);
      assert r.effects[..|run.effects|] == effects[..|run.effects|];
    } else {
      var msg := reply.MessageOr(CreateFailed);
      EventsAppendPair(effects, UiUpdate(ui), Emit(ShowMessage(msg)));
      SessionOpsAppendPair(effects, UiUpdate(ui), Emit(ShowMessage(msg)));
      r := AddBabyRun(run.vm.(ui := ui), effects + [UiUpdate(ui), Emit(ShowMessage(msg))]);
      assert r.effects[..|run.effects|] == effects[..|run.effects|];
    }
  }

  /** A save opens the home screen exactly when a parent is known and the
      baby was created, after the confirmation message; a failed save keeps
      an earlier `success` and stores its message as the error. */
  lemma CreateOutcome(ui: AddBabyUiState, reply: Result<Baby>)
    ensures NavigateToHome in CreateEvents(reply) <==> reply.Success?
    ensures reply.Success? ==> CreateEvents(reply) == [ShowMessage(Created), NavigateToHome]
    ensures CreateUi(ui, reply).success == (ui.success || reply.Success?)
    ensures CreateUi(ui, reply).isLoading == false
    ensures reply.Failure? ==> CreateUi(ui, reply).error == Some(CreateEvents(reply)[0].message)
  {
  }

  /** `clearError`: only the error is reset. */
  function ClearError(ui: AddBabyUiState): (r: AddBabyUiState)
    ensures r.error == None
    ensures r.isLoading == ui.isLoading && r.success == ui.success
  {
    ui.(error := None)
  }
}
