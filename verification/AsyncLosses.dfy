/** Exactly which steps lose a completion, and a run in which one is lost. */
module AsyncLosses {
  import opened Wrappers
  import opened AsyncDispatcher
  import opened AsyncPromise
  import opened AsyncInvariant
  import opened AsyncReachable
  import opened AsyncProgress
  import opened AsyncTheorems
  import opened AsyncRuns

  /** Nothing but the activation `a` knows about the promise, and `a` has no other use for it. */
  ghost predicate OnlyHeldBy(s: State, a: ActivationId, p: PromiseId) {
    a in s.acts && !s.d.Shadows(p) && p !in s.tsfn && !HeldElse(s.acts, a, p) && p !in HoldsList(s.acts[a].k)
  }

  /** Nothing but the shadow map of the queue that `a` takes knows about the promise. */
  ghost predicate OnlyShadowed(s: State, a: ActivationId, p: PromiseId) {
    a in s.acts && s.d.Shadows(p) && p !in s.tsfn && !HeldElse(s.acts, a, p)
  }

  lemma FailedCallLoses(s: State, a: ActivationId, answer: Answer, p: PromiseId)
    requires Ready(s, a) && GoodAnswer(s.acts[a], answer) && Waiting(s, p)
    requires s.acts[a].pc == Falling(FallbackCall, p) && answer.Failed?
    ensures var s' := Execute(s, a, answer);
            Waiting(s', p) && (!Located(s', p) <==> OnlyHeldBy(s, a, p))
  {
    var s' := Execute(s, a, answer);
    assert s' == ExecuteFallback(s, a, FallbackCall, p, answer);
    HeldAfter(s, s', a, p);
  }

  lemma DroppedQueueLoses(s: State, a: ActivationId, answer: Answer, p: PromiseId)
    requires Ready(s, a) && GoodAnswer(s.acts[a], answer) && Waiting(s, p)
    requires s.acts[a].pc.DroppingQueue? && s.d.Shadows(p)
    ensures var s' := Execute(s, a, answer);
            Waiting(s', p) && (!Located(s', p) <==> OnlyShadowed(s, a, p))
  {
    var s' := Execute(s, a, answer);
    assert s' == ExecuteDrop(s, a);
    HeldAfter(s, s', a, p);
  }

  lemma HeldAfter(s: State, s': State, a: ActivationId, p: PromiseId)
    requires a in s.acts && a in s'.acts && s'.acts == s.acts[a := s'.acts[a]]
    ensures Held(s'.acts, p) <==> HeldElse(s.acts, a, p) || p in Holds(s'.acts[a])
  {
    if Held(s'.acts, p) {
      var b :| b in s'.acts && p in Holds(s'.acts[b]);
      assert b != a ==> b in s.acts && s.acts[b] == s'.acts[b];
    }
    if HeldElse(s.acts, a, p) {
      var b :| b in s.acts && b != a && p in Holds(s.acts[b]);
      assert b in s'.acts && s'.acts[b] == s.acts[b];
    }
    assert a in s'.acts;
  }

  /** The step makes the call into the thread-safe function fail, and nothing else knows about the promise. */
  ghost predicate LosesByCall(s: State, l: Label, p: PromiseId) {
    FailsCall(s, l, p) && OnlyHeldBy(s, l.a, p)
  }

  /** The step takes a queue that still shadows the promise, and nothing else knows about it. */
  ghost predicate LosesByDrop(s: State, l: Label, p: PromiseId) {
    DropsShadow(s, l, p) && OnlyShadowed(s, l.a, p)
  }

  /**
   The exceptions of NoCompletionLost are exact: a step loses a stored completion, none
   of whose earlier steps was harmful, if and only if it is the failing call or the taking
   of a queue, with nobody else holding the completion.
   */
  lemma LosesExactly(s: State, l: Label, p: PromiseId)
    requires Inv(s) && Enabled(s, l) && Waiting(s, p) && !Flagged(s.promises[p])
    ensures Waiting(Apply(s, l), p) && !Located(Apply(s, l), p) <==> LosesByCall(s, l, p) || LosesByDrop(s, l, p)
  {
    if FailsCall(s, l, p) {
      FailedCallLoses(s, l.a, l.answer, p);
    } else if DropsShadow(s, l, p) {
      DroppedQueueLoses(s, l.a, l.answer, p);
    } else {
      HarmlessKeeps(s, l, p);
    }
  }

  lemma HarmlessKeeps(s: State, l: Label, p: PromiseId)
    requires Inv(s) && Enabled(s, l) && Waiting(s, p) && !Flagged(s.promises[p])
    requires !FailsCall(s, l, p) && !DropsShadow(s, l, p)
    ensures Waiting(Apply(s, l), p) ==> Located(Apply(s, l), p)
  {
    LabelPreserves(s, l);
    LabelAdvances(s, l, p);
    assert PromiseOk(Apply(s, l), p);
  }

  // ---- a run that loses one ----

  // One promise and one activation, no queue, open environment.
  function Solo(registry: set<PromiseId>, referenced: bool, pr: Promise, act: Activation, refs: seq<RefEvent>): State {
    State(Dispatcher(false, registry, referenced, None), map[0 := pr], multiset{}, {}, map[0 := act], false, true, None, false, refs)
  }

  function Creating(at: RegisterPoint): Activation {
    Activation(true, Registering(at, 0), Return)
  }

  function Working(pc: Pc): Activation {
    Activation(false, pc, Return)
  }

  const BORN := NewPromise(0)
  const ENTERED := BORN.(registration := Inserted)
  const READY_TO_RUN := BORN.(registration := Registered)
  const TAKEN := READY_TO_RUN.(operation := false)
  const LOCKED := TAKEN.(resultLock := Some(0))
  const FILLED := TAKEN.(result := Some(Value(7)), first := Some(Value(7)))
  const SWAPPED := FILLED.(fallbackQueued := true, caller := Some(0))
  const LOST := SWAPPED.(callFailed := true)

  // One step of the only activation, for each function the run goes through.
  lemma RegisterStep(s: State, at: RegisterPoint, s': State)
    requires Arrives(s) && s.acts == map[0 := Creating(at)] && 0 in s.promises
    requires s' == ExecuteRegister(s, 0, at, 0, Success)
    ensures Arrives(s')
  {
    assert Enabled(s, Step(0, Success));
    Arrive(s, Step(0, Success));
  }

  lemma CompleteStep(s: State, at: CompletePoint, s': State)
    requires Arrives(s) && s.acts == map[0 := Working(Completing(at, 0, Value(7)))] && 0 in s.promises
    requires at.CompleteLock? ==> s.promises[0].resultLock.None?
    requires s' == ExecuteComplete(s, 0, at, 0, Value(7))
    ensures Arrives(s')
  {
    assert Enabled(s, Step(0, Success));
    Arrive(s, Step(0, Success));
  }

  lemma RouteStep(s: State, at: RoutePoint, s': State)
    requires Arrives(s) && s.acts == map[0 := Working(Routing(at, 0))] && 0 in s.promises
    requires s' == ExecuteRoute(s, 0, at, 0, Success)
    ensures Arrives(s')
  {
    assert Enabled(s, Step(0, Success));
    Arrive(s, Step(0, Success));
  }

  lemma FallbackStep(s: State, at: FallbackPoint, answer: Answer, s': State)
    requires Arrives(s) && s.acts == map[0 := Working(Falling(at, 0))] && 0 in s.promises && (answer.Success? || answer.Failed?)
    requires s' == ExecuteFallback(s, 0, at, 0, answer)
    ensures Arrives(s')
  {
    assert Enabled(s, Step(0, answer));
    Arrive(s, Step(0, answer));
  }

  lemma ReturnStep(s: State, act: Activation)
    requires Arrives(s) && s.acts == map[0 := act] && act.pc.NextItem? && act.k.Return?
    ensures Arrives(s.(acts := map[]))
  {
    assert Enabled(s, Step(0, Success));
    Arrive(s, Step(0, Success));
    assert s.acts - {0} == map[];
    assert Apply(s, Step(0, Success)) == ExecuteNext(s, 0, Success);
  }

  function Creation(at: RegisterPoint): State {
    Solo({}, false, BORN, Creating(at), [])
  }

  lemma RunCreates()
    ensures Arrives(Creation(RegisterCheck))
  {
    assert Reaches([], INITIAL);
    Arrive(INITIAL, Create(0, 0));
    assert Apply(INITIAL, Create(0, 0)) == Creation(RegisterCheck);
  }

  lemma RunInserts()
    ensures Arrives(Solo({0}, false, ENTERED, Creating(RegisterRef), []))
  {
    RunCreates();
    RegisterStep(Creation(RegisterCheck), RegisterCheck, Creation(RegisterInsert));
    RegisterStep(Creation(RegisterInsert), RegisterInsert, Solo({0}, false, ENTERED, Creating(RegisterRef), []));
  }

  lemma RunRegisters()
    ensures Arrives(Solo({0}, true, READY_TO_RUN, Activation(true, NextItem, Return), [Ref]))
  {
    RunInserts();
    var stores := Solo({0}, false, ENTERED, Creating(RegisterStore), [Ref]);
    RegisterStep(Solo({0}, false, ENTERED, Creating(RegisterRef), []), RegisterRef, stores);
    RegisterStep(stores, RegisterStore, Solo({0}, true, READY_TO_RUN, Activation(true, NextItem, Return), [Ref]));
  }

  function After(pr: Promise, pc: Pc): State {
    Solo({0}, true, pr, Working(pc), [Ref])
  }

  function AtComplete(pr: Promise, at: CompletePoint): State {
    After(pr, Completing(at, 0, Value(7)))
  }

  lemma RunEnters()
    ensures Arrives(AtComplete(TAKEN, CompleteUpgrade))
  {
    RunRegisters();
    var s := Solo({0}, true, READY_TO_RUN, Activation(true, NextItem, Return), [Ref]);
    ReturnStep(s, Activation(true, NextItem, Return));
    Arrive(s.(acts := map[]), TakeOperation(0));
    var t := SetPromise(s.(acts := map[]), 0, TAKEN);
    Arrive(t, Complete(0, 0, false, Value(7)));
    assert Apply(t, Complete(0, 0, false, Value(7))) == AtComplete(TAKEN, CompleteUpgrade);
  }

  lemma RunLocks()
    ensures Arrives(AtComplete(TAKEN, CompleteLock))
  {
    RunEnters();
    CompleteStep(AtComplete(TAKEN, CompleteUpgrade), CompleteUpgrade, AtComplete(TAKEN, CompleteCheck));
    CompleteStep(AtComplete(TAKEN, CompleteCheck), CompleteCheck, AtComplete(TAKEN, CompleteLock));
  }

  lemma RunStores()
    ensures Arrives(After(FILLED, Routing(RouteCheck, 0)))
  {
    RunLocks();
    CompleteStep(AtComplete(TAKEN, CompleteLock), CompleteLock, AtComplete(LOCKED, CompleteWrite));
    CompleteStep(AtComplete(LOCKED, CompleteWrite), CompleteWrite, After(FILLED, Routing(RouteCheck, 0)));
  }

  lemma RunRoutes()
    ensures Arrives(After(FILLED, Falling(FallbackCheck, 0)))
  {
    RunStores();
    RouteStep(After(FILLED, Routing(RouteCheck, 0)), RouteCheck, After(FILLED, Routing(RouteInsert, 0)));
    RouteStep(After(FILLED, Routing(RouteInsert, 0)), RouteInsert, After(FILLED, Falling(FallbackCheck, 0)));
  }

  lemma RunSwaps()
    ensures Arrives(After(SWAPPED, Falling(FallbackCall, 0)))
  {
    RunRoutes();
    FallbackStep(After(FILLED, Falling(FallbackCheck, 0)), FallbackCheck, Success, After(FILLED, Falling(FallbackSwap, 0)));
    FallbackStep(After(FILLED, Falling(FallbackSwap, 0)), FallbackSwap, Success, After(SWAPPED, Falling(FallbackCall, 0)));
  }

  lemma RunFails()
    ensures Arrives(After(LOST, NextItem))
  {
    RunSwaps();
    FallbackStep(After(SWAPPED, Falling(FallbackCall, 0)), FallbackCall, Failed, After(LOST, NextItem));
  }

  /** A completion of value 7 for the only promise, lost because the thread-safe function refuses the call. */
  lemma SomeRunLoses()
    ensures exists labels, s :: Reaches(labels, s) && s.acts == map[] && !s.d.closing && Waiting(s, 0) && !Located(s, 0)
  {
    RunFails();
    var s := After(LOST, NextItem);
    ReturnStep(s, Working(NextItem));
    var labels :| Reaches(labels, s.(acts := map[]));
  }
}
