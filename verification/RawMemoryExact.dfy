/** What the operations on raw memory do when they succeed, and exactly when they do. */
module RawMemoryExact {
  import opened Wrappers
  import opened Tally
  import opened LittleEndian
  import opened ByteRange
  import opened RawMemory

  function Pow2(k: nat): nat {
    if k == 0 then 1 else 2 * Pow2(k - 1)
  }

  lemma {:induction false} PowerOfTwoExact(n: nat) returns (k: nat)
    requires PowerOfTwo(n)
    ensures n == Pow2(k)
  {
    k := 0;
    if n != 1 {
      var half := PowerOfTwoExact(n / 2);
      k := half + 1;
    }
  }

  lemma {:induction false} PowersOfTwo(k: nat)
    ensures PowerOfTwo(Pow2(k)) && Pow2(k) > 0
  {
    if k > 0 {
      PowersOfTwo(k - 1);
      assert Pow2(k) / 2 == Pow2(k - 1);
    }
  }

  /** Some multiple of the alignment holds the size and is no more than half the address space. */
  ghost predicate RoundsWithin(size: nat, alignment: nat, usizeMax: int) {
    exists k: nat :: size <= k * alignment <= usizeMax / 2
  }

  lemma LayoutOkExact(size: nat, alignment: nat, usizeMax: int)
    requires alignment > 0
    ensures LayoutOk(size, alignment, usizeMax) <==> RoundsWithin(size, alignment, usizeMax)
  {
    var k := (size + alignment - 1) / alignment;
    RoundUp(size, alignment, k);
    if j: nat :| size <= j * alignment <= usizeMax / 2 { RoundLeast(size, alignment, k, j); }
  }

  lemma RoundUp(size: nat, alignment: nat, k: nat)
    requires alignment > 0 && k == (size + alignment - 1) / alignment
    ensures size <= k * alignment < size + alignment
  {
    assert size + alignment - 1 == k * alignment + (size + alignment - 1) % alignment;
  }

  lemma Scale(a: nat, b: nat, factor: nat)
    requires a <= b
    ensures a * factor <= b * factor
  {
    assert b * factor == a * factor + (b - a) * factor;
  }

  lemma NextMultiple(j: nat, k: nat, factor: nat)
    requires j < k
    ensures j * factor + factor <= k * factor
  {
    Scale(j + 1, k, factor);
    assert (j + 1) * factor == j * factor + factor;
  }

  lemma RoundLeast(size: nat, alignment: nat, k: nat, j: nat)
    requires alignment > 0 && k * alignment < size + alignment && size <= j * alignment
    ensures k * alignment <= j * alignment
  {
    if j < k { NextMultiple(j, k, alignment); }
    if k <= j { Scale(k, j, alignment); }
  }

  /** What an allocation or a view is asked for that the platform can lay out. */
  ghost predicate Describable(size: nat, alignment: nat, usizeMax: int) {
    (exists k: nat :: alignment == Pow2(k)) && RoundsWithin(size, alignment, usizeMax)
  }

  lemma DescribableExact(size: nat, alignment: nat, usizeMax: int)
    ensures PowerOfTwo(alignment) && LayoutOk(size, alignment, usizeMax) <==> Describable(size, alignment, usizeMax)
  {
    if PowerOfTwo(alignment) { var k := PowerOfTwoExact(alignment); }
    if k: nat :| alignment == Pow2(k) {
      PowersOfTwo(k);
      LayoutOkExact(size, alignment, usizeMax);
    }
  }

  /** One more allocation of this size, held by a new storage at this address, and nothing else but the heap differs. */
  predicate AddsAllocation(m: Memory, m': Memory, thread: ThreadId, owned: bool, address: nat, size: nat, alignment: nat) {
    && m'.allocations == m.allocations + [Allocation(thread, size, alignment)]
    && m'.held == m.held + [Some(|m.storages|)]
    && m'.storages == m.storages + [Storage(owned, address, size, 1, 0)]
    && m'.leases == m.leases
  }

  /**
   An allocation succeeds exactly for a positive size the platform can lay out, when the
   allocator answers with a block that ends within the address space. The new allocation
   reads as zeros, and no byte outside it has changed.
   */
  lemma AllocateExact(m: Memory, thread: ThreadId, size: nat, alignment: nat, answer: Option<nat>)
    requires Sound(m) && (answer.Some? ==> AllocatorOk(m, answer.value, size))
    ensures var (m', error) := Allocate(m, thread, size, alignment, answer);
      && (error.None? <==> size > 0 && Describable(size, alignment, UsizeMax(m)) && answer.Some? && answer.value + size <= UsizeMax(m))
      && (error.None? ==>
            && Sound(m') && AddsAllocation(m, m', thread, true, answer.value, size, alignment)
            && Read(m', |m.held|, thread, 0, size) == Ok(seq(size, i => 0))
            && |m'.heap| == |m.heap|
            && forall k :: 0 <= k < |m.heap| && !(answer.value <= k < answer.value + size) ==> m'.heap[k] == m.heap[k])
      && (error.Some? ==> m' == m.(heap := m'.heap))
  {
    DescribableExact(size, alignment, UsizeMax(m));
    AllocateSound(m, thread, size, alignment, answer);
  }

  /** A view succeeds exactly for an aligned range within the address space, and touches no byte of it. */
  lemma ViewExact(m: Memory, thread: ThreadId, address: nat, size: nat, alignment: nat)
    requires Sound(m)
    ensures var (m', error) := View(m, thread, address, size, alignment);
      && (error.None? <==> Describable(size, alignment, UsizeMax(m)) && alignment > 0 && address % alignment == 0 && address + size <= UsizeMax(m)
                           && (address == 0 ==> size == 0))
      && (error.None? ==> m'.heap == m.heap && AddsAllocation(m, m', thread, false, address, size, alignment))
      && (error.Some? ==> m' == m)
  {
    DescribableExact(size, alignment, UsizeMax(m));
    if address == 0 && alignment > 0 { assert address % alignment == 0; }
  }

  /** A read gives the bytes of its range under the same condition as a write. */
  lemma ReadExact(m: Memory, a: nat, thread: ThreadId, offset: nat, width: nat)
    requires Sound(m) && a < |m.held|
    ensures HolderOk(m, a)
    ensures var r := Read(m, a, thread, offset, width);
      && (r.Ok? <==> thread == m.allocations[a].thread && m.held[a].Some? && Fits(offset, width, m.allocations[a].size))
      && (r.Ok? ==>
            && |r.value| == width
            && var from := m.storages[m.held[a].value].address + offset;
               from + width <= |m.heap| && forall k :: 0 <= k < width ==> r.value[k] == m.heap[from + k])
  {
    assert HolderOk(m, a);
    if m.held[a].Some? { assert StorageOk(m, m.held[a].value); }
  }

  /** Its storage has one holder less, and is deallocated now if that was the last of an owned one. */
  predicate LosesHolder(m: Memory, m': Memory, i: nat)
    requires i < |m.storages|
  {
    && m.storages[i].strong > 0
    && var s := m.storages[i];
       m'.storages == m.storages[i := Storage(s.owned, s.address, s.size, s.strong - 1, if s.owned && s.strong == 1 then 1 else 0)]
  }

  /** Releasing gives the hold up at once, on the owner thread only; releasing again does nothing and is no error. */
  lemma ReleaseExact(m: Memory, a: nat, thread: ThreadId)
    requires Sound(m) && a < |m.held|
    ensures var (m', error) := Release(m, a, thread);
      && (error.None? <==> thread == m.allocations[a].thread)
      && (error.Some? || m.held[a].None? ==> m' == m)
      && (error.None? && m.held[a].Some? ==>
            && m'.held == m.held[a := None] && m'.heap == m.heap && m'.leases == m.leases && m'.allocations == m.allocations
            && m.held[a].value < |m.storages| && LosesHolder(m, m', m.held[a].value))
  {
    assert HolderOk(m, a);
    if m.held[a].Some? { assert StorageOk(m, m.held[a].value); }
  }

  /** A lease adds a holder to the storage of a live allocation, which ending the lease takes away again. */
  lemma LeaseExact(m: Memory, a: nat, thread: ThreadId)
    requires Sound(m) && a < |m.held|
    ensures var (m', error) := Lease(m, a, thread);
      && (error.None? <==> thread == m.allocations[a].thread && m.held[a].Some?)
      && (error.Some? ==> m' == m)
      && (error.None? ==>
            && m'.leases == m.leases + [m.held[a]] && m'.held == m.held && m'.heap == m.heap
            && m.held[a].value < |m.storages| && Sound(m') && LosesHolder(m', m, m.held[a].value)
            && EndLease(m', |m.leases|) == m'.(leases := m.leases + [None], storages := m.storages))
  {
    assert HolderOk(m, a);
    if m.held[a].Some? {
      assert StorageOk(m, m.held[a].value);
      LeaseSound(m, a, thread);
    }
  }
}
