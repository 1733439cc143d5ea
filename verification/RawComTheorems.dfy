/** Conservation of raw COM references over whole runs, and what single operations do to them. */
module RawComTheorems {
  import opened Wrappers
  import opened Tally
  import opened ComObjects
  import opened RawCom

  /** Every live reference can still be reached through some handle. */
  ghost predicate NoOrphans(w: World) {
    forall c {:trigger Reached(w, c)} :: 0 <= c < |w.values| ==> Reached(w, c)
  }

  predicate Reached(w: World, c: nat)
    requires c < |w.values|
  {
    w.values[c].Some? ==> StillReferred(w.handles, c)
  }

  lemma NewCellKeeps(w: World, thread: ThreadId, v: ObjectId, kind: Handle)
    requires Shaped(w) && NoOrphans(w) && kind.Refers()
    ensures Shaped(NewCell(w, thread, v, kind)) && NoOrphans(NewCell(w, thread, v, kind))
  {
    var w' := NewCell(w, thread, v, kind);
    forall c | 0 <= c < |w'.values| ensures Reached(w', c) {
      if c < |w.values| {
        assert Reached(w, c);
        if w.values[c].Some? {
          var h :| 0 <= h < |w.handles| && w.handles[h].RefersTo(c);
          assert w'.handles[h].RefersTo(c);
        }
      } else {
        assert w'.handles[|w.handles|].RefersTo(c);
      }
    }
  }

  lemma TakeCellKeeps(w: World, c: nat)
    requires Shaped(w) && NoOrphans(w) && c < |w.values|
    ensures Shaped(TakeCell(w, c)) && NoOrphans(TakeCell(w, c))
  {
    forall d | 0 <= d < |w.values| ensures Reached(TakeCell(w, c), d) { assert Reached(w, d); }
  }

  // Counters, leases, managed values and slots do not matter for reachability.
  lemma SameCellsKeep(w: World, w': World)
    requires Shaped(w) && NoOrphans(w) && w'.threads == w.threads && w'.values == w.values && w'.handles == w.handles
    ensures Shaped(w') && NoOrphans(w')
  {
    forall c | 0 <= c < |w'.values| ensures Reached(w', c) { assert Reached(w, c); }
  }

  lemma AddHandleKeeps(w: World, handle: Handle)
    requires Shaped(w) && NoOrphans(w) && (handle.Refers() ==> handle.cell < |w.values|)
    ensures Shaped(AddHandle(w, handle)) && NoOrphans(AddHandle(w, handle))
  {
    var w' := AddHandle(w, handle);
    forall c | 0 <= c < |w'.values| ensures Reached(w', c) {
      assert Reached(w, c);
      if w.values[c].Some? {
        var h :| 0 <= h < |w.handles| && w.handles[h].RefersTo(c);
        assert w'.handles[h].RefersTo(c);
      }
    }
  }

  lemma OwnKeeps(w: World, thread: ThreadId, value: Result<ObjectId, ComError>)
    requires Shaped(w) && NoOrphans(w)
    ensures Shaped(Own(w, thread, value).0) && NoOrphans(Own(w, thread, value).0)
  {
    if value.Ok? { NewCellKeeps(w, thread, value.value, Owner(0)); }
  }

  lemma QueryKeeps(w: World, v: ObjectId, iid: Option<QueryAnswer>)
    requires Shaped(w) && NoOrphans(w)
    ensures Shaped(QueryMaybe(w, v, iid).0) && NoOrphans(QueryMaybe(w, v, iid).0)
  {
    SameCellsKeep(w, QueryMaybe(w, v, iid).0);
  }

  lemma ManagedKeeps(w: World, thread: ThreadId, m: nat, admitted: bool, call: ManagedCall)
    requires Shaped(w) && NoOrphans(w) && m < |w.managed|
    ensures var w' := ApplyManaged(w, thread, m, admitted, call).0; Shaped(w') && NoOrphans(w')
  {
    var (cloned, value) := CloneManaged(w, m, admitted);
    SameCellsKeep(w, cloned);
    if value.Ok? {
      match call
      case AddRef => OwnKeeps(cloned, thread, value);
      case QueryInterface(answer) =>
        QueryKeeps(cloned, value.value, Some(answer));
        OwnKeeps(QueryOwned(cloned, value.value, answer).0, thread, QueryOwned(cloned, value.value, answer).1);
      case Borrow => NewCellKeeps(cloned, thread, value.value, Borrowed(0));
    }
  }

  lemma CallOwnerKeeps(w: World, thread: ThreadId, c: nat, v: ObjectId, call: OwnerCall)
    requires Shaped(w) && NoOrphans(w) && c < |w.values|
    ensures var w' := CallOwner(w, thread, c, v, call).0; Shaped(w') && NoOrphans(w')
  {
    TakeCellKeeps(w, c);
    match call
    case PointerTo => AddHandleKeeps(w, Borrowed(c));
    case Query(answer) =>
      SameCellsKeep(w, Acquire(w, v));
      QueryKeeps(Acquire(w, v), v, Some(answer));
      OwnKeeps(QueryOwned(Acquire(w, v), v, answer).0, thread, QueryOwned(Acquire(w, v), v, answer).1);
    case Retain =>
      SameCellsKeep(w, Acquire(w, v));
      OwnKeeps(Acquire(w, v), thread, Ok(v));
    case Release => SameCellsKeep(TakeCell(w, c), CallOwner(w, thread, c, v, call).0);
    case Detach => NewCellKeeps(TakeCell(w, c), thread, v, Detached(0));
    case TransferTo(written) => if written { SameCellsKeep(TakeCell(w, c), CallOwner(w, thread, c, v, call).0); }
    case IntoManaged(iid, bound) =>
      QueryKeeps(TakeCell(w, c), v, iid);
      SameCellsKeep(QueryMaybe(TakeCell(w, c), v, iid).0, CallOwner(w, thread, c, v, call).0);
  }

  lemma FinalizeKeeps(w: World, thread: ThreadId, h: nat, exited: bool)
    requires Shaped(w) && NoOrphans(w) && h < |w.handles|
    ensures Shaped(Finalize(w, thread, h, exited)) && NoOrphans(Finalize(w, thread, h, exited))
  {
    var w' := Finalize(w, thread, h, exited);
    var handle := w.handles[h];
    forall c | 0 <= c < |w'.values| ensures Reached(w', c) {
      assert Reached(w, c);
      if w'.values[c].Some? {
        var k :| 0 <= k < |w.handles| && w.handles[k].RefersTo(c);
        if k == h {
          assert StillReferred(w.handles[h := Dropped], c);
        } else {
          assert w'.handles[k].RefersTo(c);
        }
      }
    }
  }

  lemma ReplaceHandleKeeps(w: World, h: nat)
    requires Shaped(w) && NoOrphans(w) && h < |w.handles| && w.handles[h].External?
    ensures Shaped(w.(handles := w.handles[h := Consumed])) && NoOrphans(w.(handles := w.handles[h := Consumed]))
  {
    var w' := w.(handles := w.handles[h := Consumed]);
    forall c | 0 <= c < |w'.values| ensures Reached(w', c) {
      assert Reached(w, c);
      if w.values[c].Some? {
        var k :| 0 <= k < |w.handles| && w.handles[k].RefersTo(c);
        assert w'.handles[k].RefersTo(c);
      }
    }
  }

  lemma AssumeKeeps(w: World, thread: ThreadId, h: nat, iid: Option<QueryAnswer>)
    requires Shaped(w) && NoOrphans(w) && h < |w.handles|
    ensures Shaped(Assume(w, thread, h, iid).0) && NoOrphans(Assume(w, thread, h, iid).0)
  {
    if w.handles[h].External? {
      ReplaceHandleKeeps(w, h);
      if w.handles[h].address != 0 {
        var v: ObjectId := w.handles[h].address;
        var spent := w.(handles := w.handles[h := Consumed]);
        var taken := spent.(slots := spent.slots - multiset{v});
        SameCellsKeep(spent, taken);
        QueryKeeps(taken, v, iid);
        OwnKeeps(QueryMaybe(taken, v, iid).0, thread, QueryMaybe(taken, v, iid).1);
      }
    }
  }

  lemma AdoptKeeps(w: World, thread: ThreadId, h: nat, iid: Option<QueryAnswer>)
    requires Shaped(w) && NoOrphans(w) && h < |w.handles|
    ensures Shaped(Adopt(w, thread, h, iid).0) && NoOrphans(Adopt(w, thread, h, iid).0)
  {
    if w.handles[h].Detached? && Peek(w, thread, w.handles[h].cell).Ok? {
      var c, v := w.handles[h].cell, Peek(w, thread, w.handles[h].cell).value;
      TakeCellKeeps(w, c);
      QueryKeeps(TakeCell(w, c), v, iid);
      OwnKeeps(QueryMaybe(TakeCell(w, c), v, iid).0, thread, QueryMaybe(TakeCell(w, c), v, iid).1);
    }
  }

  lemma StepKeeps(w: World, op: Op)
    requires Shaped(w) && NoOrphans(w) && Possible(w, op)
    ensures Shaped(Apply(w, op).0) && NoOrphans(Apply(w, op).0)
  {
    match op
    case ManagedArrives(v) => SameCellsKeep(w, Apply(w, op).0);
    case DropManaged(m, leak) => SameCellsKeep(w, Apply(w, op).0);
    case OnManaged(thread, m, admitted, call) => ManagedKeeps(w, thread, m, admitted, call);
    case OnOwner(thread, h, call) =>
      if w.handles[h].Owner? && Peek(w, thread, w.handles[h].cell).Ok? {
        CallOwnerKeeps(w, thread, w.handles[h].cell, Peek(w, thread, w.handles[h].cell).value, call);
      }
    case AdoptTransferred(thread, h, iid) => AdoptKeeps(w, thread, h, iid);
    case AssumeTransferred(thread, h, iid) => AssumeKeeps(w, thread, h, iid);
    case ToValue(thread, h) =>
      if w.handles[h].Refers() { AddHandleKeeps(w, ValueOf(w.handles[h].cell)); }
    case FromAddress(address) => AddHandleKeeps(w, External(address));
    case Lease(thread, h) => SameCellsKeep(w, Apply(w, op).0);
    case EndLease(l) => SameCellsKeep(w, Apply(w, op).0);
    case DropHandle(thread, h, exited) => FinalizeKeeps(w, thread, h, exited);
  }

  // ---- whole runs ----

  ghost function Run(w: World, ops: seq<Op>): (r: Option<World>)
    requires Shaped(w) && NoOrphans(w)
    decreases |ops|
  {
    if ops == [] then Some(w)
    else if !(Possible(w, ops[0]) && Trusted(w, ops[0])) then None
    else
      StepKeeps(w, ops[0]);
      Run(Apply(w, ops[0]).0, ops[1..])
  }

  lemma {:induction false} RunKeeps(w: World, ops: seq<Op>, o: ObjectId)
    requires Shaped(w) && NoOrphans(w) && Run(w, ops).Some?
    ensures var w' := Run(w, ops).value; Shaped(w') && NoOrphans(w') && InHand(w', o) == InHand(w, o)
    decreases |ops|
  {
    if ops != [] {
      StepKeeps(w, ops[0]);
      StepBalanced(w, ops[0], o);
      RunKeeps(Apply(w, ops[0]).0, ops[1..], o);
    }
  }

  /**
   In every run in which `assumeTransferred` is told the truth: what the native side has
   handed out and not got back is exactly what live references, leases, managed values,
   transferred slots and deliberate leaks hold; and no live reference is unreachable.
   */
  lemma Conserved(ops: seq<Op>, w: World, o: ObjectId)
    requires Run(EMPTY_WORLD, ops) == Some(w)
    ensures Outstanding(w, o) == HeldReferences(w, o)
    ensures w.released[o] <= w.acquired[o]
    ensures NoOrphans(w)
  {
    RunKeeps(EMPTY_WORLD, ops, o);
  }

  predicate NothingHeld(w: World) {
    && (forall h :: 0 <= h < |w.handles| ==> !w.handles[h].Refers())
    && (forall l :: 0 <= l < |w.leases| ==> w.leases[l].None?)
    && (forall m :: 0 <= m < |w.managed| ==> w.managed[m].None?)
  }

  /** When every handle, lease and managed value is gone, only transferred slots and leaks are left unreleased. */
  lemma AllReturned(ops: seq<Op>, w: World, o: ObjectId)
    requires Run(EMPTY_WORLD, ops) == Some(w) && NothingHeld(w)
    ensures w.acquired[o] == w.released[o] + w.slots[o] + w.leaked[o]
  {
    Conserved(ops, w, o);
    forall c | 0 <= c < |w.values| ensures w.values[c].None? { assert Reached(w, c); }
    CountPositive<ObjectId>(w.values, o);
    CountPositive<ObjectId>(w.leases, o);
    CountPositive<ObjectId>(w.managed, o);
  }

  // ---- single operations ----

  /** A transfer that is refused, for whatever reason, changes nothing; an accepted one moves the reference into the slot. */
  lemma TransferExact(w: World, thread: ThreadId, h: nat, written: bool)
    requires Shaped(w) && h < |w.handles|
    ensures var (w', error) := Apply(w, OnOwner(thread, h, TransferTo(written)));
      && (error.None? <==> written && w.handles[h].Owner? && thread == w.threads[w.handles[h].cell] && w.values[w.handles[h].cell].Some?)
      && (error.Some? ==> w' == w)
      && (error.None? ==>
            var c := w.handles[h].cell;
            && w'.slots == w.slots + multiset{w.values[c].value} && w'.values == w.values[c := None]
            && w'.acquired == w.acquired && w'.released == w.released && w'.handles == w.handles)
  {
  }

  /** A failed query has released its input once and kept nothing the callee returned. */
  predicate ConsumedOnce(w: World, w': World, v: ObjectId, answer: QueryAnswer) {
    var extra: multiset<ObjectId> := if answer.queried.Some? then multiset{answer.queried.value} else multiset{};
    w'.acquired == w.acquired + extra && w'.released == w.released + multiset{v} + extra
  }

  lemma FailedQueryConsumesOnce(w: World, v: ObjectId, answer: QueryAnswer)
    requires QueryOwned(w, v, answer).1.Err?
    ensures ConsumedOnce(w, QueryOwned(w, v, answer).0, v, answer)
    ensures var w' := QueryOwned(w, v, answer).0; w' == w.(acquired := w'.acquired, released := w'.released)
  {
    var w' := QueryOwned(w, v, answer).0;
    if answer.queried.Some? {
      var q := answer.queried.value;
      assert w.released + multiset{v} + multiset{q} == w'.released;
    } else {
      assert w.released + multiset{v} + multiset{} == w'.released && w.acquired + multiset{} == w'.acquired;
    }
  }

  /** So an adoption whose query fails empties the pointer's reference and makes no owner. */
  lemma FailedAdoptionConsumesOnce(w: World, thread: ThreadId, h: nat, answer: QueryAnswer)
    requires Shaped(w) && h < |w.handles| && w.handles[h].Detached? && Peek(w, thread, w.handles[h].cell).Ok?
    requires Apply(w, AdoptTransferred(thread, h, Some(answer))).1.Some?
    ensures var (w', c) := (Apply(w, AdoptTransferred(thread, h, Some(answer))).0, w.handles[h].cell);
      && ConsumedOnce(w, w', w.values[c].value, answer)
      && w'.values == w.values[c := None] && w'.handles == w.handles
      && Apply(w', AdoptTransferred(thread, h, Some(answer))) == (w', Some(NotLive))
  {
    var c := w.handles[h].cell;
    FailedQueryConsumesOnce(TakeCell(w, c), w.values[c].value, answer);
  }

  /** Detaching and adopting moves the reference without a single AddRef or Release. */
  lemma DetachAdoptMoves(w: World, thread: ThreadId, h: nat)
    requires Shaped(w) && h < |w.handles| && w.handles[h].Owner? && Peek(w, thread, w.handles[h].cell).Ok?
    ensures var (detached, none) := Apply(w, OnOwner(thread, h, Detach));
      && Shaped(detached)
      && var (adopted, error) := Apply(detached, AdoptTransferred(thread, |w.handles|, None));
      && error.None?
      && adopted.acquired == w.acquired && adopted.released == w.released && adopted.slots == w.slots
      && adopted.handles == w.handles + [Detached(|w.values|), Owner(|w.values| + 1)]
      && adopted.values == w.values[w.handles[h].cell := None] + [None, w.values[w.handles[h].cell]]
  {
    var c := w.handles[h].cell;
    var detached := Apply(w, OnOwner(thread, h, Detach)).0;
    assert detached.handles[|w.handles|] == Detached(|w.values|);
    assert detached.values[|w.values|] == w.values[c];
  }

  /** A transferred reference taken back by its address is the same reference, again without counting. */
  lemma TransferAssumeMoves(w: World, thread: ThreadId, h: nat, back: nat)
    requires Shaped(w) && h < |w.handles| && w.handles[h].Owner? && Peek(w, thread, w.handles[h].cell).Ok?
    requires back < |w.handles| && w.handles[back] == External(w.values[w.handles[h].cell].value)
    ensures var (given, none) := Apply(w, OnOwner(thread, h, TransferTo(true)));
      && Shaped(given) && Trusted(given, AssumeTransferred(thread, back, None))
      && var (taken, error) := Apply(given, AssumeTransferred(thread, back, None));
      && error.None?
      && taken.acquired == w.acquired && taken.released == w.released && taken.slots == w.slots
      && taken.values == w.values[w.handles[h].cell := None] + [w.values[w.handles[h].cell]]
  {
  }

  /** Off its owner thread a reference is never released: operations fail, and finalizing the last handle leaks it. */
  lemma OffThreadNeverReleases(w: World, thread: ThreadId, h: nat, call: OwnerCall, iid: Option<QueryAnswer>, exited: bool)
    requires Shaped(w) && h < |w.handles| && w.handles[h].Refers() && thread != w.threads[w.handles[h].cell]
    ensures Apply(w, OnOwner(thread, h, call)).0 == w
    ensures Apply(w, AdoptTransferred(thread, h, iid)).0 == w
    ensures Apply(w, Lease(thread, h)).0 == w && Apply(w, ToValue(thread, h)).0 == w
    ensures var (w', c) := (Apply(w, DropHandle(thread, h, exited)).0, w.handles[h].cell);
      && w'.acquired == w.acquired && w'.released == w.released
      && var last := w.handles[h].Owner? || !StillReferred(w.handles[h := Dropped], c);
         w'.leaked == w.leaked + (if last && w.values[c].Some? then multiset{w.values[c].value} else multiset{})
  {
  }

  function Actor(op: Op): Option<ThreadId> {
    match op
    case OnManaged(thread, _, _, _) => Some(thread)
    case OnOwner(thread, _, _) => Some(thread)
    case AdoptTransferred(thread, _, _) => Some(thread)
    case AssumeTransferred(thread, _, _) => Some(thread)
    case ToValue(thread, _) => Some(thread)
    case Lease(thread, _) => Some(thread)
    case DropHandle(thread, _, _) => Some(thread)
    case _ => None
  }

  /** The reference is where it was, or has been leaked. */
  predicate StaysOrLeaks(w: World, w': World, c: nat)
    requires c < |w.threads| == |w.values|
  {
    && c < |w'.threads| == |w'.values| && w'.threads[c] == w.threads[c] && w.leaked <= w'.leaked
    && (w'.values[c] == w.values[c] ||
        (w.values[c].Some? && w'.values[c].None? && w.leaked[w.values[c].value] < w'.leaked[w.values[c].value]))
  }

  lemma OwnStays(w: World, w': World, thread: ThreadId, value: Result<ObjectId, ComError>, c: nat)
    requires c < |w.threads| == |w.values| && StaysOrLeaks(w, w', c)
    ensures StaysOrLeaks(w, Own(w', thread, value).0, c)
  {
  }

  lemma QueryStays(w: World, w': World, v: ObjectId, iid: Option<QueryAnswer>, c: nat)
    requires c < |w.threads| == |w.values| && StaysOrLeaks(w, w', c)
    ensures StaysOrLeaks(w, QueryMaybe(w', v, iid).0, c)
  {
  }

  // The call takes its own cell at most, and that is another one.
  lemma CallStays(w: World, thread: ThreadId, cell: nat, v: ObjectId, call: OwnerCall, c: nat)
    requires Shaped(w) && cell < |w.values| && c < |w.values| && cell != c
    ensures StaysOrLeaks(w, CallOwner(w, thread, cell, v, call).0, c)
  {
    match call
    case Query(answer) =>
      QueryStays(w, Acquire(w, v), v, Some(answer), c);
      OwnStays(w, QueryOwned(Acquire(w, v), v, answer).0, thread, QueryOwned(Acquire(w, v), v, answer).1, c);
    case IntoManaged(iid, _) => QueryStays(w, TakeCell(w, cell), v, iid, c);
    case _ =>
  }

  lemma FinalizeStays(w: World, thread: ThreadId, h: nat, exited: bool, c: nat)
    requires Shaped(w) && h < |w.handles| && c < |w.values| && thread != w.threads[c]
    ensures StaysOrLeaks(w, Finalize(w, thread, h, exited), c)
  {
  }

  lemma ManagedStays(w: World, thread: ThreadId, m: nat, admitted: bool, call: ManagedCall, c: nat)
    requires Shaped(w) && m < |w.managed| && c < |w.values|
    ensures StaysOrLeaks(w, ApplyManaged(w, thread, m, admitted, call).0, c)
  {
    var (cloned, value) := CloneManaged(w, m, admitted);
    if call.QueryInterface? && value.Ok? {
      QueryStays(w, cloned, value.value, Some(call.answer), c);
      OwnStays(w, QueryOwned(cloned, value.value, call.answer).0, thread, QueryOwned(cloned, value.value, call.answer).1, c);
    }
  }

  lemma AdoptStays(w: World, thread: ThreadId, h: nat, iid: Option<QueryAnswer>, c: nat)
    requires Shaped(w) && h < |w.handles| && c < |w.values| && thread != w.threads[c]
    ensures StaysOrLeaks(w, Adopt(w, thread, h, iid).0, c)
  {
    if w.handles[h].Detached? && Peek(w, thread, w.handles[h].cell).Ok? {
      var cell := w.handles[h].cell;
      var (taken, v) := (TakeCell(w, cell), w.values[cell].value);
      QueryStays(w, taken, v, iid, c);
      OwnStays(w, QueryMaybe(taken, v, iid).0, thread, QueryMaybe(taken, v, iid).1, c);
    }
  }

  lemma AssumeStays(w: World, thread: ThreadId, h: nat, iid: Option<QueryAnswer>, c: nat)
    requires Shaped(w) && h < |w.handles| && c < |w.values|
    ensures StaysOrLeaks(w, Assume(w, thread, h, iid).0, c)
  {
  }

  lemma StepStays(w: World, op: Op, c: nat)
    requires Shaped(w) && Possible(w, op) && c < |w.values| && Actor(op) != Some(w.threads[c])
    ensures StaysOrLeaks(w, Apply(w, op).0, c)
  {
    match op
    case OnManaged(thread, m, admitted, call) => ManagedStays(w, thread, m, admitted, call, c);
    case OnOwner(thread, h, call) =>
      if w.handles[h].Owner? && Peek(w, thread, w.handles[h].cell).Ok? {
        CallStays(w, thread, w.handles[h].cell, w.values[w.handles[h].cell].value, call, c);
      }
    case AdoptTransferred(thread, h, iid) => AdoptStays(w, thread, h, iid, c);
    case AssumeTransferred(thread, h, iid) => AssumeStays(w, thread, h, iid, c);
    case DropHandle(thread, h, exited) => FinalizeStays(w, thread, h, exited, c);
    case _ =>
  }

  /** Whatever other threads do, a reference stays where it is unless one of them leaks it: only its owner can give it up. */
  lemma {:induction false} OthersOnlyLeak(w: World, ops: seq<Op>, c: nat)
    requires Shaped(w) && NoOrphans(w) && Run(w, ops).Some? && c < |w.values|
    requires forall op :: op in ops ==> Actor(op) != Some(w.threads[c])
    ensures StaysOrLeaks(w, Run(w, ops).value, c)
    decreases |ops|
  {
    if ops != [] {
      StepKeeps(w, ops[0]);
      StepStays(w, ops[0], c);
      OthersOnlyLeak(Apply(w, ops[0]).0, ops[1..], c);
    }
  }
}
