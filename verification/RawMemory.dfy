/**
 Raw memory: allocations and external views over one address space, invocation leases,
 checked access and release. A storage is freed when the last allocation or lease that
 holds it lets go, and only if it is owned.
 */
module RawMemory {
  import opened Wrappers
  import opened Tally
  import opened LittleEndian
  import opened ByteRange

  type ThreadId = nat

  datatype MemoryError =
    | ZeroSize | BadAlignment | LayoutLimit | AllocationFailed | AddressOverflow | NullView | Misaligned
    | OffsetOverflow | RangeExceedsAllocation | WrongThread | Released

  /** `RawAllocationStorage` with its reference count and, as history, how often it was deallocated. */
  datatype Storage = Storage(owned: bool, address: nat, size: nat, strong: nat, freed: nat)

  datatype Allocation = Allocation(thread: ThreadId, size: nat, alignment: nat)

  /** `held[a]` is the storage of allocation `a`, until it is released; `leases[l]` likewise. */
  datatype Memory = Memory(
    heap: seq<byte>,
    storages: seq<Storage>,
    allocations: seq<Allocation>,
    held: seq<Option<nat>>,
    leases: seq<Option<nat>>)

  predicate PowerOfTwo(n: nat) {
    n == 1 || (n > 0 && n % 2 == 0 && PowerOfTwo(n / 2))
  }

  /** `Layout::from_size_align`: the size rounded up to the alignment must fit in `isize`. */
  predicate LayoutOk(size: nat, alignment: nat, usizeMax: int)
    requires alignment > 0
  {
    (size + alignment - 1) / alignment * alignment <= usizeMax / 2
  }

  function UsizeMax(m: Memory): int {
    |m.heap| - 1
  }

  // ---- operations ----

  function AddStorage(m: Memory, storage: Storage, allocation: Allocation): Memory {
    m.(storages := m.storages + [storage], allocations := m.allocations + [allocation], held := m.held + [Some(|m.storages|)])
  }

  function Zeros(n: nat): (r: seq<byte>)
    ensures |r| == n
  {
    seq(n, i => 0)
  }

  /** The answer is the address the allocator returned, if any. */
  function Allocate(m: Memory, thread: ThreadId, size: nat, alignment: nat, answer: Option<nat>): (r: (Memory, Option<MemoryError>))
    requires answer.Some? ==> Fits(answer.value, size, |m.heap|)
  {
    if size == 0 then (m, Some(ZeroSize))
    else if !PowerOfTwo(alignment) then (m, Some(BadAlignment))
    else if !LayoutOk(size, alignment, UsizeMax(m)) then (m, Some(LayoutLimit))
    else if answer.None? then (m, Some(AllocationFailed))
    else
      var zeroed := m.(heap := Patch(m.heap, answer.value, Zeros(size)));
      if answer.value + size > UsizeMax(m) then (zeroed, Some(AddressOverflow))
      else (AddStorage(zeroed, Storage(true, answer.value, size, 1, 0), Allocation(thread, size, alignment)), None)
  }

  function View(m: Memory, thread: ThreadId, address: nat, size: nat, alignment: nat): (r: (Memory, Option<MemoryError>)) {
    if !PowerOfTwo(alignment) then (m, Some(BadAlignment))
    else if !LayoutOk(size, alignment, UsizeMax(m)) then (m, Some(LayoutLimit))
    else if address == 0 && size != 0 then (m, Some(NullView))
    else if address != 0 && address % alignment != 0 then (m, Some(Misaligned))
    else if address + size > UsizeMax(m) then (m, Some(AddressOverflow))
    else (AddStorage(m, Storage(false, address, size, 1, 0), Allocation(thread, size, alignment)), None)
  }

  /** Whether the owner thread may touch a live allocation. */
  function Live(allocation: Allocation, held: Option<nat>, thread: ThreadId): (error: Option<MemoryError>) {
    if thread != allocation.thread then Some(WrongThread) else if held.None? then Some(Released) else None
  }

  function CheckRange(allocation: Allocation, offset: nat, width: nat, usizeMax: int): (error: Option<MemoryError>) {
    if offset + width > usizeMax then Some(OffsetOverflow)
    else if offset + width > allocation.size then Some(RangeExceedsAllocation)
    else None
  }

  function CheckAccess(m: Memory, a: nat, thread: ThreadId, offset: nat, width: nat): (error: Option<MemoryError>)
    requires a < |m.allocations| == |m.held|
  {
    var range := CheckRange(m.allocations[a], offset, width, UsizeMax(m));
    if range.Some? then range else Live(m.allocations[a], m.held[a], thread)
  }

  function Write(m: Memory, a: nat, thread: ThreadId, offset: nat, bytes: seq<byte>): (r: (Memory, Option<MemoryError>))
    requires Sound(m) && a < |m.held|
  {
    var error := CheckAccess(m, a, thread, offset, |bytes|);
    if error.Some? then (m, error)
    else
      assert HolderOk(m, a) && StorageOk(m, m.held[a].value);
      (m.(heap := Patch(m.heap, m.storages[m.held[a].value].address + offset, bytes)), None)
  }

  function Read(m: Memory, a: nat, thread: ThreadId, offset: nat, width: nat): (r: Result<seq<byte>, MemoryError>)
    requires Sound(m) && a < |m.held|
  {
    var error := CheckAccess(m, a, thread, offset, width);
    if error.Some? then Err(error.value)
    else
      assert HolderOk(m, a) && StorageOk(m, m.held[a].value);
      var from := m.storages[m.held[a].value].address + offset;
      Ok(m.heap[from..from + width])
  }

  function Retain(storage: Storage): Storage {
    storage.(strong := storage.strong + 1)
  }

  /** Dropping one holder; the last one deallocates an owned storage. */
  function LetGo(storage: Storage): Storage
    requires storage.strong > 0
  {
    storage.(strong := storage.strong - 1, freed := storage.freed + (if storage.owned && storage.strong == 1 then 1 else 0))
  }

  function LetGoOf(m: Memory, i: nat): Memory
    requires i < |m.storages| && m.storages[i].strong > 0
  {
    m.(storages := m.storages[i := LetGo(m.storages[i])])
  }

  function Lease(m: Memory, a: nat, thread: ThreadId): (r: (Memory, Option<MemoryError>))
    requires Sound(m) && a < |m.held|
  {
    var error := Live(m.allocations[a], m.held[a], thread);
    if error.Some? then (m, error)
    else
      assert HolderOk(m, a);
      var i := m.held[a].value;
      (m.(storages := m.storages[i := Retain(m.storages[i])], leases := m.leases + [Some(i)]), None)
  }

  function EndLease(m: Memory, l: nat): Memory
    requires Sound(m) && l < |m.leases|
  {
    assert LeaseOk(m, l);
    if m.leases[l].None? then m else LetGoOf(m, m.leases[l].value).(leases := m.leases[l := None])
  }

  function DropHeld(m: Memory, a: nat): Memory
    requires Sound(m) && a < |m.held|
  {
    assert HolderOk(m, a);
    if m.held[a].None? then m else LetGoOf(m, m.held[a].value).(held := m.held[a := None])
  }

  function Release(m: Memory, a: nat, thread: ThreadId): (r: (Memory, Option<MemoryError>))
    requires Sound(m) && a < |m.held|
  {
    if thread != m.allocations[a].thread then (m, Some(WrongThread)) else (DropHeld(m, a), None)
  }

  // ---- the invariant ----

  predicate StorageOk(m: Memory, i: nat)
    requires i < |m.storages|
  {
    var s := m.storages[i];
    && s.address + s.size <= UsizeMax(m)
    && s.strong == Count(m.held, i) + Count(m.leases, i)
    && s.freed == (if s.owned && s.strong == 0 then 1 else 0)
  }

  predicate HolderOk(m: Memory, a: nat)
    requires a < |m.held| == |m.allocations|
  {
    m.held[a].Some? ==>
      && m.held[a].value < |m.storages|
      && m.storages[m.held[a].value].size == m.allocations[a].size
      && m.storages[m.held[a].value].strong > 0
  }

  predicate LeaseOk(m: Memory, l: nat)
    requires l < |m.leases|
  {
    m.leases[l].Some? ==> m.leases[l].value < |m.storages| && m.storages[m.leases[l].value].strong > 0
  }

  predicate Sound(m: Memory) {
    && |m.heap| > 0 && |m.allocations| == |m.held|
    && (forall i {:trigger StorageOk(m, i)} :: 0 <= i < |m.storages| ==> StorageOk(m, i))
    && (forall a {:trigger HolderOk(m, a)} :: 0 <= a < |m.held| ==> HolderOk(m, a))
    && (forall l {:trigger LeaseOk(m, l)} :: 0 <= l < |m.leases| ==> LeaseOk(m, l))
  }

  // ---- every operation keeps it ----

  lemma AddStorageSound(m: Memory, storage: Storage, allocation: Allocation)
    requires Sound(m) && storage.strong == 1 && storage.freed == 0 && storage.address + storage.size <= UsizeMax(m)
    requires storage.size == allocation.size
    ensures Sound(AddStorage(m, storage, allocation))
  {
    var m' := AddStorage(m, storage, allocation);
    forall i: nat | i < |m'.storages| ensures StorageOk(m', i) {
      CountAppend<nat>(m.held, Some(|m.storages|), i);
      if i < |m.storages| {
        assert StorageOk(m, i);
      } else {
        NobodyHolds(m, i);
      }
    }
    forall a | 0 <= a < |m'.held| ensures HolderOk(m', a) {
      if a < |m.held| { assert HolderOk(m, a); }
    }
    forall l | 0 <= l < |m'.leases| ensures LeaseOk(m', l) {
      assert LeaseOk(m, l);
    }
  }

  lemma NobodyHolds(m: Memory, i: nat)
    requires Sound(m) && i >= |m.storages|
    ensures Count(m.held, i) == 0 && Count(m.leases, i) == 0
  {
    forall a | 0 <= a < |m.held| ensures m.held[a] != Some(i) { assert HolderOk(m, a); }
    forall l | 0 <= l < |m.leases| ensures m.leases[l] != Some(i) { assert LeaseOk(m, l); }
    CountPositive(m.held, i);
    CountPositive(m.leases, i);
  }

  // A storage that is held or leased has a positive count, so it survives until the last holder is gone.
  lemma RecountSound(m: Memory)
    requires |m.heap| > 0 && |m.allocations| == |m.held|
    requires forall i {:trigger StorageOk(m, i)} :: 0 <= i < |m.storages| ==> StorageOk(m, i)
    requires forall a :: 0 <= a < |m.held| && m.held[a].Some? ==>
               m.held[a].value < |m.storages| && m.storages[m.held[a].value].size == m.allocations[a].size
    requires forall l :: 0 <= l < |m.leases| && m.leases[l].Some? ==> m.leases[l].value < |m.storages|
    ensures Sound(m)
  {
    forall a | 0 <= a < |m.held| ensures HolderOk(m, a) {
      if m.held[a].Some? {
        assert StorageOk(m, m.held[a].value);
        CountPositive(m.held, m.held[a].value);
      }
    }
    forall l | 0 <= l < |m.leases| ensures LeaseOk(m, l) {
      if m.leases[l].Some? {
        assert StorageOk(m, m.leases[l].value);
        CountPositive(m.leases, m.leases[l].value);
      }
    }
  }

  lemma HeapSound(m: Memory, heap: seq<byte>)
    requires Sound(m) && |heap| == |m.heap|
    ensures Sound(m.(heap := heap))
  {
    var m' := m.(heap := heap);
    forall i: nat | i < |m'.storages| ensures StorageOk(m', i) { assert StorageOk(m, i); }
    forall a | 0 <= a < |m'.held| ensures HolderOk(m', a) { assert HolderOk(m, a); }
    forall l | 0 <= l < |m'.leases| ensures LeaseOk(m', l) { assert LeaseOk(m, l); }
  }

  lemma AllocateSound(m: Memory, thread: ThreadId, size: nat, alignment: nat, answer: Option<nat>)
    requires Sound(m) && (answer.Some? ==> Fits(answer.value, size, |m.heap|))
    ensures Sound(Allocate(m, thread, size, alignment, answer).0)
  {
    if size != 0 && PowerOfTwo(alignment) && LayoutOk(size, alignment, UsizeMax(m)) && answer.Some? {
      HeapSound(m, Patch(m.heap, answer.value, Zeros(size)));
      var zeroed := m.(heap := Patch(m.heap, answer.value, Zeros(size)));
      if answer.value + size <= UsizeMax(m) {
        AddStorageSound(zeroed, Storage(true, answer.value, size, 1, 0), Allocation(thread, size, alignment));
      }
    }
  }

  lemma ViewSound(m: Memory, thread: ThreadId, address: nat, size: nat, alignment: nat)
    requires Sound(m)
    ensures Sound(View(m, thread, address, size, alignment).0)
  {
    if address + size <= UsizeMax(m) {
      AddStorageSound(m, Storage(false, address, size, 1, 0), Allocation(thread, size, alignment));
    }
  }

  lemma LeaseSound(m: Memory, a: nat, thread: ThreadId)
    requires Sound(m) && a < |m.held|
    ensures Sound(Lease(m, a, thread).0)
  {
    var m' := Lease(m, a, thread).0;
    assert HolderOk(m, a);
    if Live(m.allocations[a], m.held[a], thread).None? {
      forall i: nat | i < |m'.storages| ensures StorageOk(m', i) {
        assert StorageOk(m, i);
        CountAppend(m.leases, m.held[a], i);
      }
      forall b | 0 <= b < |m'.held| && m'.held[b].Some?
        ensures m'.held[b].value < |m'.storages| && m'.storages[m'.held[b].value].size == m'.allocations[b].size
      {
        assert HolderOk(m, b);
      }
      forall l | 0 <= l < |m'.leases| && m'.leases[l].Some? ensures m'.leases[l].value < |m'.storages| {
        if l < |m.leases| { assert LeaseOk(m, l); }
      }
      RecountSound(m');
    }
  }

  lemma EndLeaseSound(m: Memory, l: nat)
    requires Sound(m) && l < |m.leases|
    ensures Sound(EndLease(m, l))
  {
    var m' := EndLease(m, l);
    assert LeaseOk(m, l);
    if m.leases[l].Some? {
      forall i: nat | i < |m'.storages| ensures StorageOk(m', i) {
        assert StorageOk(m, i);
        CountUpdate(m.leases, l, None, i);
      }
      forall b | 0 <= b < |m'.held| && m'.held[b].Some?
        ensures m'.held[b].value < |m'.storages| && m'.storages[m'.held[b].value].size == m'.allocations[b].size
      {
        assert HolderOk(m, b);
      }
      forall k | 0 <= k < |m'.leases| && m'.leases[k].Some? ensures m'.leases[k].value < |m'.storages| {
        assert LeaseOk(m, k);
      }
      RecountSound(m');
    }
  }

  lemma DropHeldSound(m: Memory, a: nat)
    requires Sound(m) && a < |m.held|
    ensures Sound(DropHeld(m, a))
  {
    var m' := DropHeld(m, a);
    assert HolderOk(m, a);
    if m.held[a].Some? {
      forall i: nat | i < |m'.storages| ensures StorageOk(m', i) {
        assert StorageOk(m, i);
        CountUpdate(m.held, a, None, i);
      }
      forall b | 0 <= b < |m'.held| && m'.held[b].Some?
        ensures m'.held[b].value < |m'.storages| && m'.storages[m'.held[b].value].size == m'.allocations[b].size
      {
        assert HolderOk(m, b);
      }
      forall k | 0 <= k < |m'.leases| && m'.leases[k].Some? ensures m'.leases[k].value < |m'.storages| {
        assert LeaseOk(m, k);
      }
      RecountSound(m');
    }
  }

  // ---- runs ----

  datatype Op =
    | AllocateOp(thread: ThreadId, size: nat, alignment: nat, answer: Option<nat>)
    | ViewOp(thread: ThreadId, address: nat, size: nat, alignment: nat)
    | WriteOp(a: nat, thread: ThreadId, offset: nat, bytes: seq<byte>)
    | LeaseOp(a: nat, thread: ThreadId)
    | EndLeaseOp(l: nat)
    | ReleaseOp(a: nat, thread: ThreadId)
    | DropOp(a: nat)

  /** An owned storage that has not been deallocated. */
  predicate LiveBlock(s: Storage) {
    s.owned && s.strong > 0
  }

  /** What the code relies on: the allocator hands out blocks that no live block overlaps. */
  predicate AllocatorOk(m: Memory, address: nat, size: nat) {
    && Fits(address, size, |m.heap|)
    && forall i :: 0 <= i < |m.storages| && LiveBlock(m.storages[i]) ==> Apart(m.storages[i].address, m.storages[i].size, address, size)
  }

  predicate Possible(m: Memory, op: Op) {
    match op
    case AllocateOp(_, size, _, answer) => answer.Some? ==> AllocatorOk(m, answer.value, size)
    case ViewOp(_, _, _, _) => true
    case WriteOp(a, _, _, _) => a < |m.held|
    case LeaseOp(a, _) => a < |m.held|
    case EndLeaseOp(l) => l < |m.leases|
    case ReleaseOp(a, _) => a < |m.held|
    case DropOp(a) => a < |m.held|
  }

  function Apply(m: Memory, op: Op): Memory
    requires Sound(m) && Possible(m, op)
  {
    match op
    case AllocateOp(thread, size, alignment, answer) => Allocate(m, thread, size, alignment, answer).0
    case ViewOp(thread, address, size, alignment) => View(m, thread, address, size, alignment).0
    case WriteOp(a, thread, offset, bytes) => Write(m, a, thread, offset, bytes).0
    case LeaseOp(a, thread) => Lease(m, a, thread).0
    case EndLeaseOp(l) => EndLease(m, l)
    case ReleaseOp(a, thread) => Release(m, a, thread).0
    case DropOp(a) => DropHeld(m, a)
  }

  predicate LiveApart(m: Memory) {
    forall i, j :: 0 <= i < j < |m.storages| && LiveBlock(m.storages[i]) && LiveBlock(m.storages[j]) ==>
                     Apart(m.storages[i].address, m.storages[i].size, m.storages[j].address, m.storages[j].size)
  }

  /** How one operation may change what is already there. */
  predicate Grows(m: Memory, m': Memory) {
    && |m.heap| == |m'.heap| && |m.storages| <= |m'.storages| && |m.held| <= |m'.held| && |m.leases| <= |m'.leases|
    && (forall i {:trigger m'.storages[i]} :: 0 <= i < |m.storages| ==> Continues(m.storages[i], m'.storages[i]))
    && (forall a {:trigger m'.held[a]} :: 0 <= a < |m.held| ==> m'.held[a] == m.held[a] || m'.held[a].None?)
    && (forall l {:trigger m'.leases[l]} :: 0 <= l < |m.leases| ==> m'.leases[l] == m.leases[l] || m'.leases[l].None?)
  }

  predicate Continues(s: Storage, s': Storage) {
    && s'.owned == s.owned && s'.address == s.address && s'.size == s.size
    && (s.strong == 0 ==> s' == s) && s.freed <= s'.freed
  }

  lemma LiveApartKept(m: Memory, m': Memory)
    requires LiveApart(m) && Grows(m, m') && |m'.storages| == |m.storages|
    ensures LiveApart(m')
  {
    forall i, j | 0 <= i < j < |m'.storages| && LiveBlock(m'.storages[i]) && LiveBlock(m'.storages[j])
      ensures Apart(m'.storages[i].address, m'.storages[i].size, m'.storages[j].address, m'.storages[j].size)
    {
      assert Continues(m.storages[i], m'.storages[i]) && Continues(m.storages[j], m'.storages[j]);
    }
  }

  lemma ReleaseGrows(m: Memory, a: nat)
    requires Sound(m) && a < |m.held|
    ensures Sound(DropHeld(m, a)) && Grows(m, DropHeld(m, a)) && |DropHeld(m, a).storages| == |m.storages|
  {
    assert HolderOk(m, a);
    DropHeldSound(m, a);
  }

  lemma EndLeaseGrows(m: Memory, l: nat)
    requires Sound(m) && l < |m.leases|
    ensures Sound(EndLease(m, l)) && Grows(m, EndLease(m, l)) && |EndLease(m, l).storages| == |m.storages|
  {
    assert LeaseOk(m, l);
    EndLeaseSound(m, l);
  }

  lemma LeaseGrows(m: Memory, a: nat, thread: ThreadId)
    requires Sound(m) && a < |m.held|
    ensures Sound(Lease(m, a, thread).0) && Grows(m, Lease(m, a, thread).0) && |Lease(m, a, thread).0.storages| == |m.storages|
  {
    assert HolderOk(m, a);
    LeaseSound(m, a, thread);
  }

  lemma AddGrows(m: Memory, op: Op)
    requires Sound(m) && LiveApart(m) && Possible(m, op) && (op.AllocateOp? || op.ViewOp?)
    ensures Sound(Apply(m, op)) && Grows(m, Apply(m, op)) && LiveApart(Apply(m, op))
  {
    match op
    case AllocateOp(thread, size, alignment, answer) => AllocateSound(m, thread, size, alignment, answer);
    case ViewOp(thread, address, size, alignment) => ViewSound(m, thread, address, size, alignment);
  }

  lemma StepSound(m: Memory, op: Op)
    requires Sound(m) && LiveApart(m) && Possible(m, op)
    ensures Sound(Apply(m, op)) && LiveApart(Apply(m, op)) && Grows(m, Apply(m, op))
  {
    if op.AllocateOp? || op.ViewOp? {
      AddGrows(m, op);
    } else {
      match op {
        case WriteOp(a, thread, offset, bytes) => HeapSound(m, Apply(m, op).heap);
        case LeaseOp(a, thread) => LeaseGrows(m, a, thread);
        case EndLeaseOp(l) => EndLeaseGrows(m, l);
        case ReleaseOp(a, thread) => ReleaseGrows(m, a);
        case DropOp(a) => ReleaseGrows(m, a);
      }
      LiveApartKept(m, Apply(m, op));
    }
  }

  function Run(m: Memory, ops: seq<Op>): (r: Option<Memory>)
    requires Sound(m) && LiveApart(m)
    decreases |ops|
  {
    if ops == [] then Some(m)
    else if !Possible(m, ops[0]) then None
    else
      StepSound(m, ops[0]);
      Run(Apply(m, ops[0]), ops[1..])
  }

  /** Nothing allocated yet. */
  predicate Pristine(m: Memory) {
    |m.heap| > 0 && m.storages == [] && m.allocations == [] && m.held == [] && m.leases == []
  }

  lemma {:induction false} RunSound(m: Memory, ops: seq<Op>)
    requires Sound(m) && LiveApart(m) && Run(m, ops).Some?
    ensures Sound(Run(m, ops).value) && LiveApart(Run(m, ops).value) && Grows(m, Run(m, ops).value)
    decreases |ops|
  {
    if ops != [] {
      StepSound(m, ops[0]);
      RunSound(Apply(m, ops[0]), ops[1..]);
    }
  }

  // ---- main results ----

  /**
   In every run, an owned storage has been deallocated exactly once if nothing holds or
   leases it, and not at all otherwise; an external one never is.
   */
  lemma FreedExactlyOnce(m: Memory, ops: seq<Op>, i: nat)
    requires Pristine(m) && Run(m, ops).Some? && i < |Run(m, ops).value.storages|
    ensures var m' := Run(m, ops).value;
      && (m'.storages[i].freed == 1 <==> m'.storages[i].owned && Some(i) !in m'.held && Some(i) !in m'.leases)
      && m'.storages[i].freed <= 1
      && (!m'.storages[i].owned ==> m'.storages[i].freed == 0)
  {
    RunSound(m, ops);
    var m' := Run(m, ops).value;
    assert StorageOk(m', i);
    CountPositive<nat>(m'.held, i);
    CountPositive<nat>(m'.leases, i);
  }

  /** Once deallocated, a storage is never held, leased or deallocated again. */
  lemma FreedForever(m: Memory, ops: seq<Op>, i: nat)
    requires Sound(m) && LiveApart(m) && Run(m, ops).Some? && i < |m.storages| && m.storages[i].freed == 1
    ensures var m' := Run(m, ops).value; i < |m'.storages| && m'.storages[i] == m.storages[i] && Some(i) !in m'.held && Some(i) !in m'.leases
  {
    RunSound(m, ops);
    var m' := Run(m, ops).value;
    assert StorageOk(m, i) && StorageOk(m', i);
    CountPositive<nat>(m'.held, i);
    CountPositive<nat>(m'.leases, i);
  }

  /** After a release every access fails, whatever happens in between, and by whatever thread. */
  lemma ReleasedRefuses(m: Memory, ops: seq<Op>, a: nat, thread: ThreadId, offset: nat, bytes: seq<byte>)
    requires Sound(m) && LiveApart(m) && Run(m, ops).Some? && a < |m.held| && m.held[a].None?
    ensures var m' := Run(m, ops).value;
      && Sound(m') && a < |m'.held|
      && Write(m', a, thread, offset, bytes).0 == m' && Write(m', a, thread, offset, bytes).1.Some?
      && Read(m', a, thread, offset, |bytes|).Err?
      && Lease(m', a, thread).0 == m' && Lease(m', a, thread).1.Some?
  {
    RunSound(m, ops);
    assert Run(m, ops).value.held[a].None?;
  }

  /**
   A write succeeds exactly for the owner thread, inside a live allocation; it then
   changes its range of the address space and nothing else, and reads back equal.
   */
  lemma WriteExact(m: Memory, a: nat, thread: ThreadId, offset: nat, bytes: seq<byte>)
    requires Sound(m) && a < |m.held|
    ensures var (m', error) := Write(m, a, thread, offset, bytes);
      && (error.None? <==> thread == m.allocations[a].thread && m.held[a].Some? && Fits(offset, |bytes|, m.allocations[a].size))
      && (error.Some? ==> m' == m)
      && HolderOk(m, a)
      && (error.None? ==>
            && m' == m.(heap := m'.heap) && |m'.heap| == |m.heap| && Sound(m')
            && Read(m', a, thread, offset, |bytes|) == Ok(bytes)
            && var from := m.storages[m.held[a].value].address + offset;
               forall k :: 0 <= k < |m.heap| && !(from <= k < from + |bytes|) ==> m'.heap[k] == m.heap[k])
  {
    assert HolderOk(m, a);
    if m.held[a].Some? { assert StorageOk(m, m.held[a].value); }
    HeapSound(m, Write(m, a, thread, offset, bytes).0.heap);
  }

  /** The bytes of a leased owned storage change only by writes: its memory is not handed out again. */
  lemma LeaseProtects(m: Memory, op: Op, l: nat)
    requires Sound(m) && LiveApart(m) && Possible(m, op) && !op.WriteOp? && l < |m.leases| && m.leases[l].Some?
    ensures LeaseOk(m, l)
    ensures var s := m.storages[m.leases[l].value];
      && s.freed == 0 && s.address + s.size <= |m.heap| == |Apply(m, op).heap|
      && (s.owned ==> Apply(m, op).heap[s.address..s.address + s.size] == m.heap[s.address..s.address + s.size])
  {
    assert LeaseOk(m, l);
    var s := m.storages[m.leases[l].value];
    assert StorageOk(m, m.leases[l].value);
    if op.AllocateOp? && op.answer.Some? && s.owned {
      assert LiveBlock(s);
      PatchElsewhere(m.heap, op.answer.value, Zeros(op.size), s.address, s.size);
    }
  }

  // ---- integers of every width ----

  predicate IntFits(value: int, width: nat, signed: bool) {
    if signed then -(Pow256(width) as int) <= 2 * value < Pow256(width) else 0 <= value < Pow256(width)
  }

  /** Two's complement, least significant byte first. */
  function IntBytes(value: int, width: nat): (bytes: seq<byte>)
    requires IntFits(value, width, true) || IntFits(value, width, false)
    ensures |bytes| == width
  {
    Encode(if value < 0 then value + Pow256(width) else value, width)
  }

  function BytesInt(bytes: seq<byte>, signed: bool): int {
    var n := Decode(bytes);
    if signed && 2 * n >= Pow256(|bytes|) then n - Pow256(|bytes|) else n
  }

  lemma IntRoundTrip(value: int, width: nat, signed: bool)
    requires IntFits(value, width, signed)
    ensures BytesInt(IntBytes(value, width), signed) == value
  {
    DecodeEncode(if value < 0 then value + Pow256(width) else value, width);
  }

  /** An integer that fits its width and signedness is read back as it was written. */
  lemma IntReadsBack(m: Memory, a: nat, thread: ThreadId, offset: nat, value: int, width: nat, signed: bool)
    requires Sound(m) && a < |m.held| && IntFits(value, width, signed)
    requires Write(m, a, thread, offset, IntBytes(value, width)).1.None?
    ensures var m' := Write(m, a, thread, offset, IntBytes(value, width)).0;
            Sound(m') && Read(m', a, thread, offset, width).Ok? && BytesInt(Read(m', a, thread, offset, width).value, signed) == value
  {
    WriteExact(m, a, thread, offset, IntBytes(value, width));
    IntRoundTrip(value, width, signed);
  }

  // ---- the objects, in place ----

  class RawAllocationStorage {
    const owned: bool
    const address: nat
    const size: nat
    var strong: nat
    var freed: nat

    ghost function Value(): Storage
      reads this
    {
      Storage(owned, address, size, strong, freed)
    }

    /** Created with the one reference its allocation holds. */
    constructor (owned: bool, address: nat, size: nat)
      ensures Value() == Storage(owned, address, size, 1, 0)
    {
      this.owned, this.address, this.size := owned, address, size;
      strong, freed := 1, 0;
    }

    method RetainOne()
      modifies this
      ensures Value() == Retain(old(Value()))
    {
      strong := strong + 1;
    }

    method DropOne()
      requires strong > 0
      modifies this
      ensures Value() == LetGo(old(Value()))
    {
      strong := strong - 1;
      if strong == 0 && owned {
        freed := freed + 1;
      }
    }
  }

  class RawInvocationLease {
    var storage: RawAllocationStorage?

    constructor (storage: RawAllocationStorage)
      ensures this.storage == storage
    {
      this.storage := storage;
    }

    /** Dropping the lease lets go of the storage, once. */
    method End()
      requires storage != null ==> storage.strong > 0
      modifies this, storage
      ensures storage == null
      ensures old(storage) != null ==> old(storage).Value() == LetGo(old(storage.Value()))
    {
      if storage != null {
        storage.DropOne();
        storage := null;
      }
    }
  }

  class RawAllocation {
    const allocation: Allocation
    const heap: array<byte>
    var storage: RawAllocationStorage?

    ghost predicate Valid()
      reads this, storage
    {
      storage != null ==> storage.size == allocation.size && storage.address + storage.size < heap.Length && storage.strong > 0
    }

    ghost function Held(): Option<nat>
      reads this
    {
      if storage == null then None else Some(0)
    }

    constructor (allocation: Allocation, heap: array<byte>, storage: RawAllocationStorage)
      requires storage.size == allocation.size && storage.address + storage.size < heap.Length && storage.strong > 0
      ensures Valid() && this.allocation == allocation && this.heap == heap && this.storage == storage
    {
      this.allocation, this.heap, this.storage := allocation, heap, storage;
    }

    method LiveStorage(thread: ThreadId) returns (error: Option<MemoryError>)
      ensures error == Live(allocation, Held(), thread)
    {
      if thread != allocation.thread { return Some(WrongThread); }
      error := if storage == null then Some(Released) else None;
    }

    method CheckedRange(thread: ThreadId, offset: nat, width: nat) returns (error: Option<MemoryError>)
      ensures var range := CheckRange(allocation, offset, width, heap.Length - 1);
              error == if range.Some? then range else Live(allocation, Held(), thread)
    {
      error := CheckRange(allocation, offset, width, heap.Length - 1);
      if error.None? {
        error := LiveStorage(thread);
      }
    }

    /** An accepted write overwrites its range of the address space; a refused one changes nothing. */
    method WriteBytes(thread: ThreadId, offset: nat, bytes: seq<byte>) returns (error: Option<MemoryError>)
      requires Valid()
      modifies heap
      ensures error.None? <==> thread == allocation.thread && storage != null && Fits(offset, |bytes|, allocation.size)
      ensures error.Some? ==> heap[..] == old(heap[..])
      ensures error.None? ==> heap[..] == Patch(old(heap[..]), storage.address + offset, bytes)
    {
      error := CheckedRange(thread, offset, |bytes|);
      if error.None? {
        Overwrite(heap, storage.address + offset, bytes);
      }
    }

    method ReadBytes(thread: ThreadId, offset: nat, width: nat) returns (r: Result<seq<byte>, MemoryError>)
      requires Valid()
      ensures r.Ok? <==> thread == allocation.thread && storage != null && Fits(offset, width, allocation.size)
      ensures r.Ok? ==> r.value == heap[storage.address + offset..storage.address + offset + width]
    {
      var error := CheckedRange(thread, offset, width);
      if error.Some? { return Err(error.value); }
      r := Ok(heap[storage.address + offset..storage.address + offset + width]);
    }

    method AcquireLease(thread: ThreadId) returns (lease: RawInvocationLease?, error: Option<MemoryError>)
      requires Valid()
      modifies storage
      ensures Valid() && storage == old(storage) && error == Live(allocation, Held(), thread)
      ensures lease != null <==> error.None?
      ensures lease != null ==> fresh(lease) && lease.storage == storage && storage.Value() == Retain(old(storage.Value()))
      ensures lease == null && storage != null ==> storage.Value() == old(storage.Value())
    {
      error := LiveStorage(thread);
      lease := null;
      if error.None? {
        storage.RetainOne();
        lease := new RawInvocationLease(storage);
      }
    }

    /** The owner thread gives up its hold; the storage itself lives on while leases do. */
    method Release(thread: ThreadId) returns (error: Option<MemoryError>)
      requires Valid()
      modifies this, storage
      ensures Valid() && error.None? == (thread == allocation.thread)
      ensures error.None? ==> storage == null && (old(storage) != null ==> old(storage).Value() == LetGo(old(storage.Value())))
      ensures error.Some? ==> storage == old(storage) && (storage != null ==> storage.Value() == old(storage.Value()))
    {
      if thread != allocation.thread { return Some(WrongThread); }
      error := None;
      if storage != null {
        storage.DropOne();
        storage := null;
      }
    }
  }
}
