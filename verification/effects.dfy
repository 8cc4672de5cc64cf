/** What a view-model action does, in order. The source runs each action as
    a chain of coroutines that update a `StateFlow` of UI state, write to the
    session store, call repositories and emit one-shot events on a
    `SharedFlow`. Here an action is one function whose result records that
    chain as a sequence of effects. */
module Effects {
  import opened Wrappers
  import opened Domain
  import opened Session

  /** A write to the session store. */
  datatype SessionOp =
    | ClearSessionOp
    | SaveTokenOp(token: string)
    | SaveUserOp(id: int, name: string, email: string)

  /** A repository call together with the argument it received. */
  datatype RepoCall =
    | LoginCall(credentials: LoginCredentials)
    | RegisterCall(data: RegisterData)
    | LegacyRegisterCall(legacyData: LegacyRegisterData)
    | GetParentCall(email: string)
    | GetBabiesCall(parentId: int)
    | CreateBabyCall(babyData: BabyData)

  /** One step of an action: a new UI state `U`, a session write, a
      repository call, or an event `E` emitted to the screen. */
  datatype Effect<U, E> =
    | UiUpdate(ui: U)
    | SessionWrite(op: SessionOp)
    | Call(call: RepoCall)
    | Emit(event: E)

  /** The events an action emitted, in order. */
  function Events<U, E>(effects: seq<Effect<U, E>>): seq<E> {
    if |effects| == 0 then []
    else
      var last := effects[|effects| - 1];
      Events(effects[..|effects| - 1]) + (if last.Emit? then [last.event] else [])
  }

  /** The session writes an action made, in order. */
  function SessionOps<U, E>(effects: seq<Effect<U, E>>): seq<SessionOp> {
    if |effects| == 0 then []
    else
      var last := effects[|effects| - 1];
      SessionOps(effects[..|effects| - 1]) + (if last.SessionWrite? then [last.op] else [])
  }

  /** Every event reported was emitted by the action, and every session
      write reported was made by it. */
  lemma {:induction false} ReportedEffectsOccur<U, E>(effects: seq<Effect<U, E>>)
    ensures forall e :: e in Events(effects) ==> Emit(e) in effects
    ensures forall op :: op in SessionOps(effects) ==> SessionWrite(op) in effects
  {
    if |effects| > 0 {
      var init := effects[..|effects| - 1];
      ReportedEffectsOccur(init);
      assert forall x :: x in init ==> x in effects;
    }
  }

  /** The events of a concatenation are the events of each part. */
  lemma {:induction false} EventsAppend<U, E>(a: seq<Effect<U, E>>, b: seq<Effect<U, E>>)
    ensures Events(a + b) == Events(a) + Events(b)
  {
    if |b| > 0 {
      var ab := a + b;
      assert ab[..|ab| - 1] == a + b[..|b| - 1];
      EventsAppend(a, b[..|b| - 1]);
    } else {
      assert a + b == a;
    }
  }

  /** The session writes of a concatenation are those of each part. */
  lemma {:induction false} SessionOpsAppend<U, E>(a: seq<Effect<U, E>>, b: seq<Effect<U, E>>)
    ensures SessionOps(a + b) == SessionOps(a) + SessionOps(b)
  {
    if |b| > 0 {
      var ab := a + b;
      assert ab[..|ab| - 1] == a + b[..|b| - 1];
      SessionOpsAppend(a, b[..|b| - 1]);
    } else {
      assert a + b == a;
    }
  }

  /** A trace of UI updates and repository calls only emits nothing and
      writes nothing to the session store. */
  lemma {:induction false} QuietTrace<U, E>(effects: seq<Effect<U, E>>)
    requires forall i :: 0 <= i < |effects| ==> effects[i].UiUpdate? || effects[i].Call?
    ensures Events(effects) == [] && SessionOps(effects) == []
  {
    if |effects| > 0 {
      QuietTrace(effects[..|effects| - 1]);
    }
  }

  /** The events of one effect. */
  function EventOf<U, E>(x: Effect<U, E>): seq<E> {
    if x.Emit? then [x.event] else []
  }

  /** The session write of one effect. */
  function SessionOpOf<U, E>(x: Effect<U, E>): seq<SessionOp> {
    if x.SessionWrite? then [x.op] else []
  }

  /** Appending two effects adds their events in order. */
  lemma EventsAppendPair<U, E>(a: seq<Effect<U, E>>, x: Effect<U, E>, y: Effect<U, E>)
    ensures Events(a + [x, y]) == Events(a) + EventOf(x) + EventOf(y)
  {
    assert (a + [x, y])[..|a| + 1] == a + [x];
    assert (a + [x])[..|a|] == a;
  }

  /** Appending one effect adds its event, if any. */
  lemma EventsAppendOne<U, E>(a: seq<Effect<U, E>>, x: Effect<U, E>)
    ensures Events(a + [x]) == Events(a) + EventOf(x)
  {
    assert (a + [x])[..|a|] == a;
  }

  /** Appending two effects adds their session writes in order. */
  lemma SessionOpsAppendPair<U, E>(a: seq<Effect<U, E>>, x: Effect<U, E>, y: Effect<U, E>)
    ensures SessionOps(a + [x, y]) == SessionOps(a) + SessionOpOf(x) + SessionOpOf(y)
  {
    assert (a + [x, y])[..|a| + 1] == a + [x];
    assert (a + [x])[..|a|] == a;
  }

  /** Appending one effect adds its session write, if any. */
  lemma SessionOpsAppendOne<U, E>(a: seq<Effect<U, E>>, x: Effect<U, E>)
    ensures SessionOps(a + [x]) == SessionOps(a) + SessionOpOf(x)
  {
    assert (a + [x])[..|a|] == a;
  }

  /** A one-effect trace emits that effect's event and makes its write. */
  lemma TraceOne<U, E>(x: Effect<U, E>)
    ensures Events([x]) == EventOf(x) && SessionOps([x]) == SessionOpOf(x)
  {
    assert [x][..0] == [];
  }

  /** A two-effect trace emits and writes in order. */
  lemma TracePair<U, E>(x: Effect<U, E>, y: Effect<U, E>)
    ensures Events([x, y]) == EventOf(x) + EventOf(y)
    ensures SessionOps([x, y]) == SessionOpOf(x) + SessionOpOf(y)
  {
    EventsAppendPair([], x, y);
    SessionOpsAppendPair([], x, y);
    assert [] + [x, y] == [x, y];
  }

  /** A trace that one stage starts and another continues: what each part
      emits and writes, in order. */
  lemma TraceThen<U, E>(a: seq<Effect<U, E>>, b: seq<Effect<U, E>>)
    ensures Events(a + b) == Events(a) + Events(b)
    ensures SessionOps(a + b) == SessionOps(a) + SessionOps(b)
  {
    EventsAppend(a, b);
    SessionOpsAppend(a, b);
  }

  /** The session write a parent lookup leads to in the sign-in flows:
      caching the parent found, or nothing. */
  function CachedUser(reply: Result<Parent>): seq<SessionOp> {
    if reply.Success? then [SaveUserOp(reply.value.id, reply.value.name, reply.value.email)] else []
  }

  /** The store after that write: the parent cached when it was found and
      `saveUser` did not throw (the flows ignore the exception), otherwise
      unchanged. */
  function CacheParent(st: Store, reply: Result<Parent>, saveUserThrows: bool): Store {
    if reply.Success? && !saveUserThrows then SaveUser(st, reply.value.id, reply.value.name, reply.value.email)
    else st
  }
}
