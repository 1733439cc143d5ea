/**
 Raw COM references: who holds each +1. A reference sits in a `RawComReference`, in an
 invocation lease, in a managed value, or in a memory slot it was transferred to; the
 operations move it between these places, and native AddRef and Release are counted.
 */
module RawCom {
  import opened Wrappers
  import opened Tally
  import opened ComObjects

  type ThreadId = nat

  datatype ComError =
    | WrongThread | NotLive | Apartment | QueryFailed | QueryNull | NotDetached | AlreadyConsumed | NotExternal | NullPointer
    | WriteFailed | BindFailed | NotOwner

  /** What JavaScript holds: an owned pointer, the raw pointers derived from it, or a value made from one. */
  datatype Handle =
    | Owner(cell: nat)
    | Borrowed(cell: nat)
    | Detached(cell: nat)
    | ValueOf(cell: nat)
    | InMemory
    | External(address: nat)
    | Consumed
    | Dropped
  {
    predicate Refers() {
      Owner? || Borrowed? || Detached? || ValueOf?
    }

    predicate RefersTo(c: nat) {
      Refers() && cell == c
    }
  }

  datatype World = World(
    threads: seq<ThreadId>,               // owner thread of each RawComReference
    values: seq<Option<ObjectId>>,        // and its value
    handles: seq<Handle>,
    leases: seq<Option<ObjectId>>,
    managed: seq<Option<ObjectId>>,
    slots: multiset<ObjectId>,            // transferred to memory and not taken back
    leaked: multiset<ObjectId>,           // deliberately forgotten off the owner thread or at exit
    acquired: multiset<ObjectId>,         // native AddRef
    released: multiset<ObjectId>)         // native Release

  const EMPTY_WORLD := World([], [], [], [], [], multiset{}, multiset{}, multiset{}, multiset{})

  predicate Shaped(w: World) {
    && |w.threads| == |w.values|
    && forall h {:trigger w.handles[h]} :: 0 <= h < |w.handles| && w.handles[h].Refers() ==> w.handles[h].cell < |w.values|
  }

  /** The references handed out by the native side and not given back. */
  function Outstanding(w: World, o: ObjectId): int {
    w.acquired[o] as int - w.released[o] as int
  }

  function HeldReferences(w: World, o: ObjectId): int {
    Count(w.values, o) + Count(w.leases, o) + Count(w.managed, o) + w.slots[o] + w.leaked[o]
  }

  // ---- primitives ----

  function Acquire(w: World, o: ObjectId): World {
    w.(acquired := w.acquired + multiset{o})
  }

  function ReleaseNative(w: World, o: ObjectId): World {
    w.(released := w.released + multiset{o})
  }

  /** A new reference and the first handle to it. */
  function NewCell(w: World, thread: ThreadId, o: ObjectId, kind: Handle): World
    requires kind.Refers()
  {
    w.(threads := w.threads + [thread], values := w.values + [Some(o)], handles := w.handles + [kind.(cell := |w.values|)])
  }

  function TakeCell(w: World, c: nat): World
    requires c < |w.values|
  {
    w.(values := w.values[c := None])
  }

  function AddHandle(w: World, handle: Handle): World {
    w.(handles := w.handles + [handle])
  }

  /** The live value of a reference, for its owner thread only. */
  function Peek(w: World, thread: ThreadId, c: nat): (r: Result<ObjectId, ComError>)
    requires Shaped(w) && c < |w.values|
  {
    if thread != w.threads[c] then Err(WrongThread)
    else if w.values[c].None? then Err(NotLive)
    else Ok(w.values[c].value)
  }

  /** What a QueryInterface call answers; a failing call may still return an interface. */
  datatype QueryAnswer = QueryAnswer(ok: bool, queried: Option<ObjectId>)

  /** Consumes one reference to `o`: it is released whatever the answer. */
  function QueryOwned(w: World, o: ObjectId, answer: QueryAnswer): (r: (World, Result<ObjectId, ComError>)) {
    var called := if answer.queried.Some? then Acquire(w, answer.queried.value) else w;
    var consumed := ReleaseNative(called, o);
    if !answer.ok then (if answer.queried.Some? then ReleaseNative(consumed, answer.queried.value) else consumed, Err(QueryFailed))
    else if answer.queried.None? then (consumed, Err(QueryNull))
    else (consumed, Ok(answer.queried.value))
  }

  function QueryMaybe(w: World, o: ObjectId, iid: Option<QueryAnswer>): (r: (World, Result<ObjectId, ComError>)) {
    if iid.None? then (w, Ok(o)) else QueryOwned(w, o, iid.value)
  }

  /** Wraps a reference the caller owns, or reports the error of the query that lost it. */
  function Own(w: World, thread: ThreadId, value: Result<ObjectId, ComError>): (r: (World, Option<ComError>)) {
    if value.Err? then (w, Some(value.error)) else (NewCell(w, thread, value.value, Owner(0)), None)
  }

  // ---- operations ----

  datatype ManagedCall = AddRef | QueryInterface(answer: QueryAnswer) | Borrow

  datatype OwnerCall =
    | PointerTo
    | Query(answer: QueryAnswer)
    | Retain
    | Release
    | Detach
    | TransferTo(written: bool)
    | IntoManaged(iid: Option<QueryAnswer>, bound: bool)

  datatype Op =
    | ManagedArrives(o: ObjectId)
    | DropManaged(m: nat, leak: bool)
    | OnManaged(thread: ThreadId, m: nat, admitted: bool, managed: ManagedCall)
    | OnOwner(thread: ThreadId, h: nat, owner: OwnerCall)
    | AdoptTransferred(thread: ThreadId, h: nat, iid: Option<QueryAnswer>)
    | AssumeTransferred(thread: ThreadId, h: nat, iid: Option<QueryAnswer>)
    | ToValue(thread: ThreadId, h: nat)
    | FromAddress(address: nat)
    | Lease(thread: ThreadId, h: nat)
    | EndLease(l: nat)
    | DropHandle(thread: ThreadId, h: nat, exited: bool)

  predicate Possible(w: World, op: Op) {
    match op
    case ManagedArrives(_) => true
    case FromAddress(_) => true
    case DropManaged(m, _) => m < |w.managed|
    case OnManaged(_, m, _, _) => m < |w.managed|
    case OnOwner(_, h, _) => h < |w.handles|
    case AdoptTransferred(_, h, _) => h < |w.handles|
    case AssumeTransferred(_, h, _) => h < |w.handles|
    case ToValue(_, h) => h < |w.handles|
    case Lease(_, h) => h < |w.handles|
    case EndLease(l) => l < |w.leases|
    case DropHandle(_, h, _) => h < |w.handles|
  }

  /** A managed value's object, with a reference of its own, when its apartment admits the caller. */
  function CloneManaged(w: World, m: nat, admitted: bool): (r: (World, Result<ObjectId, ComError>))
    requires m < |w.managed|
  {
    if !admitted then (w, Err(Apartment))
    else if w.managed[m].None? then (w, Err(NotLive))
    else (Acquire(w, w.managed[m].value), Ok(w.managed[m].value))
  }

  function ApplyManaged(w: World, thread: ThreadId, m: nat, admitted: bool, call: ManagedCall): (r: (World, Option<ComError>))
    requires m < |w.managed|
  {
    var (cloned, value) := CloneManaged(w, m, admitted);
    if value.Err? then (w, Some(value.error))
    else
      match call
      case AddRef => Own(cloned, thread, value)
      case QueryInterface(answer) =>
        var (queried, q) := QueryOwned(cloned, value.value, answer);
        Own(queried, thread, q)
      case Borrow => (NewCell(cloned, thread, value.value, Borrowed(0)), None)
  }

  /** The operations of `DynComRawOwnedComPointer` on the reference of handle `h`. */
  function ApplyOwner(w: World, thread: ThreadId, h: nat, call: OwnerCall): (r: (World, Option<ComError>))
    requires Shaped(w) && h < |w.handles|
  {
    if !w.handles[h].Owner? then (w, Some(NotOwner))
    else
      var c := w.handles[h].cell;
      var value := Peek(w, thread, c);
      // Releasing twice is no error.
      if call.Release? && value == Err(NotLive) then (w, None)
      else if value.Err? then (w, Some(value.error))
      else CallOwner(w, thread, c, value.value, call)
  }

  function CallOwner(w: World, thread: ThreadId, c: nat, o: ObjectId, call: OwnerCall): (r: (World, Option<ComError>))
    requires c < |w.values|
  {
    match call
    case PointerTo => (AddHandle(w, Borrowed(c)), None)
    case Query(answer) =>
      var (queried, q) := QueryOwned(Acquire(w, o), o, answer);
      Own(queried, thread, q)
    case Retain => Own(Acquire(w, o), thread, Ok(o))
    case Release => (ReleaseNative(TakeCell(w, c), o), None)
    case Detach => (NewCell(TakeCell(w, c), thread, o, Detached(0)), None)
    case TransferTo(written) =>
      if !written then (w, Some(WriteFailed)) else (TakeCell(w, c).(slots := w.slots + multiset{o}), None)
    case IntoManaged(iid, bound) =>
      var (queried, q) := QueryMaybe(TakeCell(w, c), o, iid);
      if q.Err? then (queried, Some(q.error))
      else if !bound then (ReleaseNative(queried, q.value), Some(BindFailed))
      else (queried.(managed := queried.managed + [Some(q.value)]), None)
  }

  function Adopt(w: World, thread: ThreadId, h: nat, iid: Option<QueryAnswer>): (r: (World, Option<ComError>))
    requires Shaped(w) && h < |w.handles|
  {
    match w.handles[h]
    case Detached(c) =>
      var value := Peek(w, thread, c);
      if value.Err? then (w, Some(value.error))
      else
        var (queried, q) := QueryMaybe(TakeCell(w, c), value.value, iid);
        Own(queried, thread, q)
    case Consumed => (w, Some(AlreadyConsumed))
    case _ => (w, Some(NotDetached))
  }

  // The pointer is spent even when it turns out to be null.
  function Assume(w: World, thread: ThreadId, h: nat, iid: Option<QueryAnswer>): (r: (World, Option<ComError>))
    requires h < |w.handles|
  {
    match w.handles[h]
    case External(address) =>
      var spent := w.(handles := w.handles[h := Consumed]);
      if address == 0 then (spent, Some(NullPointer))
      else
        var (queried, q) := QueryMaybe(spent.(slots := spent.slots - multiset{address}), address, iid);
        Own(queried, thread, q)
    case Consumed => (w, Some(AlreadyConsumed))
    case _ => (w, Some(NotExternal))
  }

  predicate StillReferred(handles: seq<Handle>, c: nat) {
    exists h :: 0 <= h < |handles| && handles[h].RefersTo(c)
  }

  /** The last owner of a reference is gone: release it, or leak it where releasing is not safe. */
  function Dispose(w: World, thread: ThreadId, c: nat, exited: bool): World
    requires Shaped(w) && c < |w.values|
  {
    if w.values[c].None? then w
    else if thread != w.threads[c] || exited then TakeCell(w, c).(leaked := w.leaked + multiset{w.values[c].value})
    else ReleaseNative(TakeCell(w, c), w.values[c].value)
  }

  /** Finalizing an owned pointer disposes at once; any other handle only when it was the last. */
  function Finalize(w: World, thread: ThreadId, h: nat, exited: bool): World
    requires Shaped(w) && h < |w.handles|
  {
    var handle := w.handles[h];
    var dropped := w.(handles := w.handles[h := Dropped]);
    if !handle.Refers() then dropped
    else if handle.Owner? || !StillReferred(dropped.handles, handle.cell) then Dispose(dropped, thread, handle.cell, exited) else dropped
  }

  function ApplyShared(w: World, thread: ThreadId, h: nat, lease: bool): (r: (World, Option<ComError>))
    requires Shaped(w) && h < |w.handles|
  {
    var handle := w.handles[h];
    if !handle.Refers() then (w, Some(NotOwner))
    else
      var value := Peek(w, thread, handle.cell);
      if value.Err? then (w, Some(value.error))
      else if lease then (Acquire(w, value.value).(leases := w.leases + [Some(value.value)]), None)
      else (AddHandle(w, ValueOf(handle.cell)), None)
  }

  function Apply(w: World, op: Op): (r: (World, Option<ComError>))
    requires Shaped(w) && Possible(w, op)
  {
    match op
    case ManagedArrives(o) => (Acquire(w, o).(managed := w.managed + [Some(o)]), None)
    case DropManaged(m, leak) =>
      if w.managed[m].None? then (w, None)
      else
        var dropped, o := w.(managed := w.managed[m := None]), w.managed[m].value;
        (if leak then dropped.(leaked := w.leaked + multiset{o}) else ReleaseNative(dropped, o), None)
    case OnManaged(thread, m, admitted, call) => ApplyManaged(w, thread, m, admitted, call)
    case OnOwner(thread, h, call) => ApplyOwner(w, thread, h, call)
    case AdoptTransferred(thread, h, iid) => Adopt(w, thread, h, iid)
    case AssumeTransferred(thread, h, iid) => Assume(w, thread, h, iid)
    case ToValue(thread, h) => ApplyShared(w, thread, h, false)
    case FromAddress(address) => (AddHandle(w, External(address)), None)
    case Lease(thread, h) => ApplyShared(w, thread, h, true)
    case EndLease(l) =>
      if w.leases[l].None? then (w, None) else (ReleaseNative(w.(leases := w.leases[l := None]), w.leases[l].value), None)
    case DropHandle(thread, h, exited) => (Finalize(w, thread, h, exited), None)
  }

  // ---- what the code relies on ----

  /** `assumeTransferred` is told the truth: some transferred slot holds that +1. */
  predicate Trusted(w: World, op: Op) {
    op.AssumeTransferred? && op.h < |w.handles| && w.handles[op.h].External? && w.handles[op.h].address != 0
    ==> w.handles[op.h].address in w.slots
  }

  // ---- every +1 is in exactly one place ----

  predicate Balanced(w: World, o: ObjectId) {
    Outstanding(w, o) == HeldReferences(w, o)
  }

  /** Native references not accounted for by a place: held by the operation under way. */
  function InHand(w: World, o: ObjectId): int {
    Outstanding(w, o) - HeldReferences(w, o)
  }

  lemma NewCellBalance(w: World, thread: ThreadId, v: ObjectId, kind: Handle, o: ObjectId)
    requires kind.Refers()
    ensures InHand(NewCell(w, thread, v, kind), o) == InHand(w, o) - One(v == o)
  {
    CountAppend<ObjectId>(w.values, Some(v), o);
  }

  lemma TakeCellBalance(w: World, c: nat, o: ObjectId)
    requires c < |w.values|
    ensures InHand(TakeCell(w, c), o) == InHand(w, o) + One(w.values[c] == Some(o))
  {
    CountUpdate<ObjectId>(w.values, c, None, o);
  }

  lemma QueryBalance(w: World, v: ObjectId, iid: Option<QueryAnswer>, o: ObjectId)
    ensures var (w', q) := QueryMaybe(w, v, iid);
      && InHand(w', o) == InHand(w, o) - One(v == o) + (if q.Ok? then One(q.value == o) else 0)
      && w' == w.(acquired := w'.acquired, released := w'.released)
  {
  }

  lemma OwnBalance(w: World, thread: ThreadId, value: Result<ObjectId, ComError>, o: ObjectId)
    ensures InHand(Own(w, thread, value).0, o) == InHand(w, o) - (if value.Ok? then One(value.value == o) else 0)
  {
    if value.Ok? { NewCellBalance(w, thread, value.value, Owner(0), o); }
  }

  lemma ManagedBalanced(w: World, thread: ThreadId, m: nat, admitted: bool, call: ManagedCall, o: ObjectId)
    requires m < |w.managed|
    ensures InHand(ApplyManaged(w, thread, m, admitted, call).0, o) == InHand(w, o)
  {
    var (cloned, value) := CloneManaged(w, m, admitted);
    if value.Ok? {
      match call
      case AddRef => OwnBalance(cloned, thread, value, o);
      case QueryInterface(answer) =>
        QueryBalance(cloned, value.value, Some(answer), o);
        var (queried, q) := QueryOwned(cloned, value.value, answer);
        OwnBalance(queried, thread, q, o);
      case Borrow => NewCellBalance(cloned, thread, value.value, Borrowed(0), o);
    }
  }

  lemma OwnerBalanced(w: World, thread: ThreadId, c: nat, v: ObjectId, call: OwnerCall, o: ObjectId)
    requires c < |w.values| && w.values[c] == Some(v)
    ensures InHand(CallOwner(w, thread, c, v, call).0, o) == InHand(w, o)
  {
    match call
    case PointerTo =>
    case Query(answer) =>
      var acquired := Acquire(w, v);
      QueryBalance(acquired, v, Some(answer), o);
      var (queried, q) := QueryOwned(acquired, v, answer);
      OwnBalance(queried, thread, q, o);
    case Retain => OwnBalance(Acquire(w, v), thread, Ok(v), o);
    case Release => TakeCellBalance(w, c, o);
    case Detach =>
      TakeCellBalance(w, c, o);
      NewCellBalance(TakeCell(w, c), thread, v, Detached(0), o);
    case TransferTo(written) => TakeCellBalance(w, c, o);
    case IntoManaged(iid, bound) =>
      TakeCellBalance(w, c, o);
      QueryBalance(TakeCell(w, c), v, iid, o);
      var (queried, q) := QueryMaybe(TakeCell(w, c), v, iid);
      if q.Ok? { CountAppend<ObjectId>(queried.managed, Some(q.value), o); }
  }

  lemma AdoptBalanced(w: World, thread: ThreadId, h: nat, iid: Option<QueryAnswer>, o: ObjectId)
    requires Shaped(w) && h < |w.handles|
    ensures InHand(Adopt(w, thread, h, iid).0, o) == InHand(w, o)
  {
    if w.handles[h].Detached? {
      var c := w.handles[h].cell;
      var value := Peek(w, thread, c);
      if value.Ok? {
        TakeCellBalance(w, c, o);
        QueryBalance(TakeCell(w, c), value.value, iid, o);
        var (queried, q) := QueryMaybe(TakeCell(w, c), value.value, iid);
        OwnBalance(queried, thread, q, o);
      }
    }
  }

  lemma AssumeBalanced(w: World, thread: ThreadId, h: nat, iid: Option<QueryAnswer>, o: ObjectId)
    requires h < |w.handles| && Trusted(w, AssumeTransferred(thread, h, iid))
    ensures InHand(Assume(w, thread, h, iid).0, o) == InHand(w, o)
  {
    if w.handles[h].External? && w.handles[h].address != 0 {
      var v: ObjectId := w.handles[h].address;
      var spent := w.(handles := w.handles[h := Consumed]);
      var taken := spent.(slots := spent.slots - multiset{v});
      assert taken.slots[o] == w.slots[o] - One(v == o);
      QueryBalance(taken, v, iid, o);
      var (queried, q) := QueryMaybe(taken, v, iid);
      OwnBalance(queried, thread, q, o);
    }
  }

  lemma FinalizeBalanced(w: World, thread: ThreadId, h: nat, exited: bool, o: ObjectId)
    requires Shaped(w) && h < |w.handles|
    ensures InHand(Finalize(w, thread, h, exited), o) == InHand(w, o)
  {
    if w.handles[h].Refers() { TakeCellBalance(w.(handles := w.handles[h := Dropped]), w.handles[h].cell, o); }
  }

  lemma SharedBalanced(w: World, thread: ThreadId, h: nat, lease: bool, o: ObjectId)
    requires Shaped(w) && h < |w.handles|
    ensures InHand(ApplyShared(w, thread, h, lease).0, o) == InHand(w, o)
  {
    if w.handles[h].Refers() {
      var value := Peek(w, thread, w.handles[h].cell);
      if value.Ok? && lease { CountAppend<ObjectId>(w.leases, Some(value.value), o); }
    }
  }

  /** Every operation, whether it succeeds or fails, leaves no reference in nobody's hands. */
  lemma StepBalanced(w: World, op: Op, o: ObjectId)
    requires Shaped(w) && Possible(w, op) && Trusted(w, op)
    ensures InHand(Apply(w, op).0, o) == InHand(w, o)
  {
    match op
    case ManagedArrives(v) => CountAppend<ObjectId>(w.managed, Some(v), o);
    case DropManaged(m, leak) => CountUpdate<ObjectId>(w.managed, m, None, o);
    case OnManaged(thread, m, admitted, call) => ManagedBalanced(w, thread, m, admitted, call, o);
    case OnOwner(thread, h, call) =>
      if w.handles[h].Owner? && Peek(w, thread, w.handles[h].cell).Ok? {
        OwnerBalanced(w, thread, w.handles[h].cell, Peek(w, thread, w.handles[h].cell).value, call, o);
      }
    case AdoptTransferred(thread, h, iid) => AdoptBalanced(w, thread, h, iid, o);
    case AssumeTransferred(thread, h, iid) => AssumeBalanced(w, thread, h, iid, o);
    case ToValue(thread, h) => SharedBalanced(w, thread, h, false, o);
    case FromAddress(_) =>
    case Lease(thread, h) => SharedBalanced(w, thread, h, true, o);
    case EndLease(l) => CountUpdate<ObjectId>(w.leases, l, None, o);
    case DropHandle(thread, h, exited) => FinalizeBalanced(w, thread, h, exited, o);
  }
}
