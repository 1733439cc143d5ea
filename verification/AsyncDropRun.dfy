/**
 A run in which `unregister_queue` drops a completion. Its own settlement of an earlier
 promise re-enters JavaScript, which unregisters the queue and registers a new one; a
 completion is routed to the new queue before the outer call takes it.
 */
module AsyncDropRun {
  import opened Wrappers
  import opened AsyncDispatcher
  import opened AsyncPromise
  import opened AsyncInvariant
  import opened AsyncProgress
  import opened AsyncTheorems
  import opened AsyncRuns
  import opened AsyncLosses

  // ---- calls that run from start to end ----

  lemma MayInstall(s: State, a: ActivationId)
    requires Arrives(s) && JsMayEnter(s, a) && s.alive && !s.d.closing && s.d.queue.None?
    ensures Arrives(Enter(s, a, Activation(true, Installing(true), Return)))
  {
    Arrive(s, RegisterQueue(a));
    Moves(s, a, Activation(true, Installing(false), Return), Success, s, Activation(true, Installing(true), Return));
  }

  /** `register_queue` while there is none. */
  lemma Installs(s: State, a: ActivationId)
    requires Arrives(s) && JsMayEnter(s, a) && s.alive && !s.d.closing && s.d.queue.None?
    ensures Arrives(s.(d := InstallQueue(s.d)))
  {
    MayInstall(s, a);
    var t := s.(d := InstallQueue(s.d));
    Moves(s, a, Activation(true, Installing(true), Return), Success, t, Activation(true, NextItem, Return));
    Leaves(t, a, true);
  }

  predicate Completable(s: State, p: PromiseId, a: ActivationId) {
    && a !in s.acts && s.alive && s.d.Accepting() && !s.d.closing && p in s.promises
    && s.promises[p].registration.Registered? && s.promises[p].resultLock.None?
    && s.promises[p].result.None? && !s.promises[p].settled
  }

  function Filling(s: State, p: PromiseId, r: Completion): State
    requires p in s.promises
  {
    SetPromise(s, p, s.promises[p].(operation := false, result := Some(r), resultLock := None, first := Some(r)))
  }

  /** The completion is stored, and its callback accepted by the queue. */
  function Completed(s: State, p: PromiseId, r: Completion): State
    requires p in s.promises
  {
    Filling(s, p, r).(d := InsertPending(s.d, p).0, queued := s.queued + multiset{p})
  }

  function Emptied(s: State, p: PromiseId): State
    requires p in s.promises
  {
    SetPromise(s, p, s.promises[p].(operation := false))
  }

  lemma Enters(s: State, p: PromiseId, a: ActivationId, r: Completion)
    requires Arrives(s) && Completable(s, p, a)
    ensures Arrives(Enter(Emptied(s, p), a, Worker(Completing(CompleteUpgrade, p, r))))
  {
    Arrive(s, TakeOperation(p));
    Arrive(Emptied(s, p), Complete(p, a, false, r));
  }

  /** `take_operation` and the checks of `complete`, on a worker thread. */
  lemma Checks(s: State, p: PromiseId, a: ActivationId, r: Completion)
    requires Arrives(s) && Completable(s, p, a)
    ensures Arrives(Enter(Emptied(s, p), a, Worker(Completing(CompleteLock, p, r))))
  {
    Enters(s, p, a, r);
    var t := Emptied(s, p);
    Moves(t, a, Worker(Completing(CompleteUpgrade, p, r)), Success, t, Worker(Completing(CompleteCheck, p, r)));
    Moves(t, a, Worker(Completing(CompleteCheck, p, r)), Success, t, Worker(Completing(CompleteLock, p, r)));
  }

  lemma Locks(s: State, p: PromiseId, a: ActivationId, r: Completion)
    requires Completable(s, p, a) && Arrives(Enter(s, a, Worker(Completing(CompleteLock, p, r))))
    ensures Arrives(Enter(SetPromise(s, p, s.promises[p].(resultLock := Some(a))), a, Worker(Completing(CompleteWrite, p, r))))
  {
    var locked := SetPromise(s, p, s.promises[p].(resultLock := Some(a)));
    Moves(s, a, Worker(Completing(CompleteLock, p, r)), Success, locked, Worker(Completing(CompleteWrite, p, r)));
  }

  lemma Writes(s: State, p: PromiseId, a: ActivationId, r: Completion)
    requires a !in s.acts && p in s.promises && Arrives(Enter(s, a, Worker(Completing(CompleteWrite, p, r))))
    ensures var pr := s.promises[p].(result := Some(r), resultLock := None, first := Some(r));
            Arrives(Enter(SetPromise(s, p, pr), a, Worker(Routing(RouteCheck, p))))
  {
    var filled := SetPromise(s, p, s.promises[p].(result := Some(r), resultLock := None, first := Some(r)));
    Moves(s, a, Worker(Completing(CompleteWrite, p, r)), Success, filled, Worker(Routing(RouteCheck, p)));
  }

  lemma Stores(s: State, p: PromiseId, a: ActivationId, r: Completion)
    requires Arrives(s) && Completable(s, p, a)
    ensures Arrives(Enter(Filling(s, p, r), a, Worker(Routing(RouteCheck, p))))
  {
    Overwrites(s.promises, p);
    Checks(s, p, a, r);
    var t := Emptied(s, p);
    Locks(t, p, a, r);
    var locked := SetPromise(t, p, t.promises[p].(resultLock := Some(a)));
    Writes(locked, p, a, r);
  }

  lemma Shadowing(s: State, p: PromiseId, a: ActivationId)
    requires a !in s.acts && s.d.Accepting() && !s.d.closing && p in s.promises
    requires Arrives(Enter(s, a, Worker(Routing(RouteCheck, p))))
    ensures Arrives(Enter(s.(d := InsertPending(s.d, p).0), a, Worker(Routing(RouteEnqueue, p))))
  {
    Moves(s, a, Worker(Routing(RouteCheck, p)), Success, s, Worker(Routing(RouteInsert, p)));
    Moves(s, a, Worker(Routing(RouteInsert, p)), Success, s.(d := InsertPending(s.d, p).0), Worker(Routing(RouteEnqueue, p)));
  }

  lemma Enqueues(s: State, p: PromiseId, a: ActivationId)
    requires a !in s.acts && p in s.promises && Arrives(Enter(s, a, Worker(Routing(RouteEnqueue, p))))
    ensures Arrives(s.(queued := s.queued + multiset{p}))
  {
    var t := s.(queued := s.queued + multiset{p});
    Moves(s, a, Worker(Routing(RouteEnqueue, p)), Success, t, Worker(NextItem));
    Leaves(t, a, false);
  }

  lemma Completes(s: State, p: PromiseId, a: ActivationId, r: Completion)
    requires Arrives(s) && Completable(s, p, a)
    ensures Arrives(Completed(s, p, r))
  {
    Stores(s, p, a, r);
    var t := Filling(s, p, r);
    Shadowing(t, p, a);
    Enqueues(t.(d := InsertPending(s.d, p).0), p, a);
  }

  function Looping(s: State): Activation {
    Activation(true, NextItem, DrainLoop({}, !s.d.closing, true))
  }

  /** The first step of `unregister_queue`. */
  lemma Drains(s: State, a: ActivationId)
    requires Arrives(s) && JsMayEnter(s, a) && s.alive
    ensures var (d, list) := DrainPending(s.d);
            Arrives(Enter(s.(d := d), a, Activation(true, Drained(list), DrainLoop({}, false, true))))
  {
    Arrive(s, UnregisterQueue(a));
    var draining := Activation(true, Draining, DrainLoop({}, false, true));
    var (d, list) := DrainPending(s.d);
    Moves(s, a, draining, Success, s.(d := d), draining.(pc := Drained(list)));
  }

  lemma DrainsNothing(s: State, a: ActivationId)
    requires Arrives(s) && JsMayEnter(s, a) && s.alive && s.d.queue == Some(QueueRegistration(false, {}))
    ensures Arrives(Enter(s, a, Looping(s)))
  {
    Drains(s, a);
    Moves(s, a, Activation(true, Drained({}), DrainLoop({}, false, true)), Success, s, Looping(s));
  }

  lemma NothingShadowed(s: State)
    requires s.d.queue == Some(QueueRegistration(false, {}))
    ensures Unshadow(s).promises == s.promises
  {
  }

  /** A nested `unregister_queue` of a queue that was drained already. */
  lemma Unregisters(s: State, a: ActivationId)
    requires Arrives(s) && JsMayEnter(s, a) && s.alive && s.d.queue == Some(QueueRegistration(false, {}))
    ensures Arrives(s.(d := TakeQueue(s.d)))
  {
    DrainsNothing(s, a);
    Moves(s, a, Looping(s), Success, s, Looping(s).(pc := DroppingQueue));
    var t := s.(d := TakeQueue(s.d));
    NothingShadowed(s);
    Moves(s, a, Looping(s).(pc := DroppingQueue), Success, t, Activation(true, NextItem, Return));
    Leaves(t, a, true);
  }

  // ---- the outer call ----

  const OUTER := DrainLoop({}, true, true)

  function Outer(pc: Pc): Activation {
    Activation(true, pc, OUTER)
  }

  function Claiming(p: PromiseId): Activation {
    Activation(true, NextItem, DrainLoop({p}, true, true))
  }

  /** `unregister_queue` claims the only shadowed promise. */
  lemma Claims(s: State, p: PromiseId, a: ActivationId)
    requires Arrives(s) && JsMayEnter(s, a) && s.alive && !s.d.closing && s.d.queue == Some(QueueRegistration(true, {p}))
    ensures Arrives(Enter(s.(d := DrainPending(s.d).0), a, Claiming(p)))
  {
    Drains(s, a);
    var t := s.(d := DrainPending(s.d).0);
    Moves(t, a, Activation(true, Drained({p}), DrainLoop({}, false, true)), Success, t, Claiming(p));
  }

  lemma Opens(s: State, p: PromiseId, a: ActivationId)
    requires Arrives(Enter(s, a, Claiming(p))) && OthersParked(s, a) && a !in s.acts && p in s.promises
    ensures Arrives(Enter(s, a, Outer(Deciding(SettleUpgrade, p))))
  {
    assert {p} - {p} == {};
    Moves(s, a, Claiming(p), Pick(p), s, Outer(Calling(ScopeOpen, p)));
    Moves(s, a, Outer(Calling(ScopeOpen, p)), Success, s, Outer(Deciding(SettleUpgrade, p)));
  }

  /** The winner of the swap takes the result and opens the callback scope. */
  lemma Parks(s: State, p: PromiseId, a: ActivationId)
    requires Arrives(Enter(s, a, Claiming(p))) && OthersParked(s, a) && a !in s.acts
    requires s.alive && !s.d.closing && p in s.promises && !s.promises[p].settled
    requires s.promises[p].result.Some? && s.promises[p].resultLock.None?
    ensures var pr := s.promises[p].(settled := true, fate := Settled, winner := a, result := None);
            Arrives(Enter(SetPromise(s, p, pr), a, Outer(Settling(SettleDeferred(s.promises[p].result.value), p))))
  {
    Overwrites(s.promises, p);
    Opens(s, p, a);
    Decides(s, p, a, OUTER);
    Wins(s, p, a, OUTER);
    var t := SetPromise(s, p, s.promises[p].(settled := true, fate := Settled, winner := a));
    TakesResult(t, p, a, OUTER);
  }

  lemma Finishes(s: State, p: PromiseId, a: ActivationId)
    requires Arrives(Enter(s, a, Outer(Finishing(p)))) && OthersParked(s, a) && a !in s.acts && p in s.promises
    requires s.d.registry - {p} != {}
    ensures Arrives(Enter(s.(d := RemoveRegistry(s.d, p)), a, Outer(NextItem)))
  {
    Moves(s, a, Outer(Finishing(p)), Success, s.(d := RemoveRegistry(s.d, p)), Outer(NextItem));
  }

  /** The settlement ends; other promises are still registered. */
  lemma Settles(s: State, p: PromiseId, a: ActivationId, c: Completion)
    requires Arrives(Enter(s, a, Outer(Settling(SettleDeferred(c), p)))) && OthersParked(s, a) && a !in s.acts
    requires p in s.promises && s.d.registry - {p} != {}
    ensures var pr := s.promises[p];
            Arrives(Enter(SetPromise(s, p, pr.(deferred := pr.deferred + 1, outcome := Some(c), contexts := pr.contexts + 1,
                                               references := pr.references + 1)).(d := RemoveRegistry(s.d, p)),
                          a, Outer(NextItem)))
  {
    var pr := s.promises[p];
    Overwrites(s.promises, p);
    Closes(s, p, a, c, OUTER);
    Deletes(SetPromise(s, p, pr.(deferred := pr.deferred + 1, outcome := Some(c), contexts := pr.contexts + 1)), p, a, OUTER);
    Finishes(SetPromise(s, p, pr.(deferred := pr.deferred + 1, outcome := Some(c), contexts := pr.contexts + 1, references := pr.references + 1)), p, a);
  }

  /** The loop is empty: the queue is taken, whichever it is. */
  lemma Takes(s: State, a: ActivationId)
    requires Arrives(Enter(s, a, Outer(NextItem))) && OthersParked(s, a) && a !in s.acts
    ensures Arrives(Unshadow(s).(d := TakeQueue(s.d)))
  {
    Moves(s, a, Outer(NextItem), Success, s, Outer(DroppingQueue));
    var t := Unshadow(s).(d := TakeQueue(s.d));
    Moves(s, a, Outer(DroppingQueue), Success, t, Activation(true, NextItem, Return));
    Leaves(t, a, true);
  }

  lemma Discards(s: State, p: PromiseId)
    requires Arrives(s) && p in s.queued
    ensures Arrives(s.(queued := s.queued - multiset{p}))
  {
    Arrive(s, QueueDiscards(p));
  }

  // ---- the run ----

  const SECOND := NewPromise(0).(registration := Registered)

  function Base(queue: Option<QueueRegistration>, registry: set<PromiseId>, first: Promise, second: Promise,
                queued: multiset<PromiseId>): State {
    State(Dispatcher(false, registry, true, queue), map[0 := first, 1 := second], queued, {}, map[], false, true, None, false, [Ref])
  }

  const ONE_REGISTERED := Solo({0}, true, READY_TO_RUN, Activation(true, NextItem, Return), [Ref]).(acts := map[])

  lemma SecondCreated()
    ensures Arrives(Enter(SetPromise(ONE_REGISTERED, 1, NewPromise(0)), 0, Activation(true, Registering(RegisterInsert, 1), Return)))
  {
    RunRegisters();
    assert ONE_REGISTERED.acts[0 := Activation(true, NextItem, Return)] == map[0 := Activation(true, NextItem, Return)];
    Leaves(ONE_REGISTERED, 0, true);
    Arrive(ONE_REGISTERED, Create(1, 0));
    var t := SetPromise(ONE_REGISTERED, 1, NewPromise(0));
    var creating := Activation(true, Registering(RegisterCheck, 1), Return);
    Moves(t, 0, creating, Success, t, creating.(pc := Registering(RegisterInsert, 1)));
  }

  lemma TwoRegistered()
    ensures Arrives(Base(None, {0, 1}, READY_TO_RUN, SECOND, multiset{}))
  {
    SecondCreated();
    var t := SetPromise(ONE_REGISTERED, 1, NewPromise(0));
    var u := Base(None, {0, 1}, READY_TO_RUN, SECOND, multiset{});
    assert {0} + {1} == {0, 1};
    assert u.promises == t.promises[1 := SECOND];
    Moves(t, 0, Activation(true, Registering(RegisterInsert, 1), Return), Success, u, Activation(true, NextItem, Return));
    Leaves(u, 0, true);
  }

  const FIRST_FILLED := READY_TO_RUN.(operation := false, result := Some(Value(7)), first := Some(Value(7)))
  const FIRST_WON := FIRST_FILLED.(settled := true, fate := Settled, winner := 0, result := None)
  const FIRST_DONE := FIRST_WON.(deferred := 1, outcome := Some(Value(7)), contexts := 1, references := 1)
  const SECOND_FILLED := SECOND.(operation := false, result := Some(Value(8)), first := Some(Value(8)))

  lemma FirstRouted()
    ensures Arrives(Base(Some(QueueRegistration(true, {0})), {0, 1}, FIRST_FILLED, SECOND, multiset{0}))
  {
    TwoRegistered();
    var s := Base(None, {0, 1}, READY_TO_RUN, SECOND, multiset{});
    Installs(s, 0);
    var t := Base(Some(QueueRegistration(true, {})), {0, 1}, READY_TO_RUN, SECOND, multiset{});
    assert t == s.(d := InstallQueue(s.d));
    Completes(t, 0, 0, Value(7));
    assert {} + {0} == {0};
    assert Completed(t, 0, Value(7)) == Base(Some(QueueRegistration(true, {0})), {0, 1}, FIRST_FILLED, SECOND, multiset{0});
  }

  function Nested(queue: Option<QueueRegistration>, second: Promise, queued: multiset<PromiseId>): State {
    Enter(Base(queue, {0, 1}, FIRST_WON, second, queued), 0, Outer(Settling(SettleDeferred(Value(7)), 0)))
  }

  lemma FirstParked()
    ensures Arrives(Nested(Some(QueueRegistration(false, {})), SECOND, multiset{0}))
  {
    FirstRouted();
    var s := Base(Some(QueueRegistration(true, {0})), {0, 1}, FIRST_FILLED, SECOND, multiset{0});
    Claims(s, 0, 0);
    var t := s.(d := DrainPending(s.d).0);
    Parks(t, 0, 0);
    assert SetPromise(t, 0, FIRST_WON) == Base(Some(QueueRegistration(false, {})), {0, 1}, FIRST_WON, SECOND, multiset{0});
  }

  lemma QueueTaken()
    ensures Arrives(Nested(None, SECOND, multiset{0}))
  {
    FirstParked();
    var s := Nested(Some(QueueRegistration(false, {})), SECOND, multiset{0});
    assert Parked(s.acts[0]);
    Unregisters(s, 1);
  }

  lemma QueueReplaced()
    ensures Arrives(Nested(Some(QueueRegistration(true, {})), SECOND, multiset{0}))
  {
    QueueTaken();
    var s := Nested(None, SECOND, multiset{0});
    assert Parked(s.acts[0]);
    Installs(s, 1);
  }

  lemma SecondRouted()
    ensures Arrives(Nested(Some(QueueRegistration(true, {1})), SECOND_FILLED, multiset{0, 1}))
  {
    QueueReplaced();
    var s := Nested(Some(QueueRegistration(true, {})), SECOND, multiset{0});
    Completes(s, 1, 1, Value(8));
    assert {} + {1} == {1};
    var t := Nested(Some(QueueRegistration(true, {1})), SECOND_FILLED, multiset{0, 1});
    assert Filling(s, 1, Value(8)).promises == t.promises;
    assert Completed(s, 1, Value(8)) == t;
  }

  lemma SecondDropped()
    ensures Arrives(Base(None, {1}, FIRST_DONE, SECOND_FILLED.(unshadowed := true), multiset{0, 1}))
  {
    SecondRouted();
    var s := Base(Some(QueueRegistration(true, {1})), {0, 1}, FIRST_WON, SECOND_FILLED, multiset{0, 1});
    assert {0, 1} - {0} == {1};
    Settles(s, 0, 0, Value(7));
    var t := Base(Some(QueueRegistration(true, {1})), {1}, FIRST_DONE, SECOND_FILLED, multiset{0, 1});
    assert t.promises == SetPromise(s, 0, FIRST_DONE).promises;
    Takes(t, 0);
    assert Unshadow(t).promises == map[0 := FIRST_DONE, 1 := SECOND_FILLED.(unshadowed := true)];
  }

  lemma CallbacksDiscarded()
    ensures Arrives(Base(None, {1}, FIRST_DONE, SECOND_FILLED.(unshadowed := true), multiset{}))
  {
    SecondDropped();
    var s := Base(None, {1}, FIRST_DONE, SECOND_FILLED.(unshadowed := true), multiset{0, 1});
    Discards(s, 0);
    assert multiset{0, 1} - multiset{0} == multiset{1};
    Discards(s.(queued := multiset{1}), 1);
    assert multiset{1} - multiset{1} == multiset{};
  }

  /**
   A completion of value 8 is lost although no native call failed: the queue it was routed
   to is dropped by an `unregister_queue` that began on an earlier queue, and discards its
   callbacks when it shuts down.
   */
  lemma SomeRunDrops()
    ensures exists labels, s :: Reaches(labels, s) && s.acts == map[] && !s.d.closing && s.queued == multiset{}
                                && Waiting(s, 1) && !s.promises[1].callFailed && !Located(s, 1)
  {
    CallbacksDiscarded();
    var labels :| Reaches(labels, Base(None, {1}, FIRST_DONE, SECOND_FILLED.(unshadowed := true), multiset{}));
  }
}
