/** The lifecycle object itself: the `open` flag and the vector of registered handles, changed in place. */
module TsfnLifecycle {
  import opened Wrappers

  /** The shared pointer to a native function; taking it is what entitles to releasing it. */
  class NativeTsfn {
    var raw: bool
    var releases: nat
    var aborts: nat

    constructor ()
      ensures raw && releases == 0 && aborts == 0
    {
      raw, releases, aborts := true, 0, 0;
    }

    /** Releases or aborts the native function, if nobody else has. */
    method Release(abort: bool)
      modifies this
      ensures !raw
      ensures releases == old(releases) + (if old(raw) && !abort then 1 else 0)
      ensures aborts == old(aborts) + (if old(raw) && abort then 1 else 0)
    {
      if raw {
        raw := false;
        if abort { aborts := aborts + 1; } else { releases := releases + 1; }
      }
    }
  }

  datatype RegisteredHandle = RegisteredHandle(id: nat, native: NativeTsfn)

  function Ids(handles: seq<RegisteredHandle>): (ids: set<nat>) {
    set handle <- handles :: handle.id
  }

  predicate Distinct(handles: seq<RegisteredHandle>) {
    forall i, j :: 0 <= i < j < |handles| ==> handles[i].id != handles[j].id && handles[i].native != handles[j].native
  }

  /** `swap_remove`: the last handle takes the place of the removed one. */
  function SwapRemove(handles: seq<RegisteredHandle>, index: nat): (r: seq<RegisteredHandle>)
    requires index < |handles|
    ensures |r| == |handles| - 1
  {
    handles[index := handles[|handles| - 1]][..|handles| - 1]
  }

  lemma SwapRemoveMultiset(handles: seq<RegisteredHandle>, index: nat)
    requires index < |handles|
    ensures multiset(SwapRemove(handles, index)) == multiset(handles) - multiset{handles[index]}
  {
    var last := |handles| - 1;
    var swapped := handles[index := handles[last]];
    assert swapped == swapped[..last] + [handles[last]];
    assert multiset(swapped) == multiset(handles) - multiset{handles[index]} + multiset{handles[last]};
    assert multiset(swapped) == multiset(swapped[..last]) + multiset{handles[last]};
    Cancel(multiset(swapped[..last]), multiset(handles) - multiset{handles[index]}, multiset{handles[last]});
  }

  lemma Cancel<T>(x: multiset<T>, y: multiset<T>, z: multiset<T>)
    requires x + z == y + z
    ensures x == y
  {
    assert x == (x + z) - z && y == (y + z) - z;
  }

  lemma SwapRemoveDistinct(handles: seq<RegisteredHandle>, index: nat)
    requires index < |handles| && Distinct(handles)
    ensures Distinct(SwapRemove(handles, index))
  {
  }

  lemma SwapRemoveIds(handles: seq<RegisteredHandle>, index: nat)
    requires index < |handles| && Distinct(handles)
    ensures Ids(SwapRemove(handles, index)) == Ids(handles) - {handles[index].id}
  {
    var r, last := SwapRemove(handles, index), |handles| - 1;
    forall id | id in Ids(r) ensures id in Ids(handles) - {handles[index].id} {
      var i :| 0 <= i < |r| && r[i].id == id;
      assert r[i] == handles[if i == index then last else i];
    }
    forall id | id in Ids(handles) - {handles[index].id} ensures id in Ids(r) {
      var i :| 0 <= i < |handles| && handles[i].id == id;
      assert r[if i == last then index else i] == handles[i];
    }
  }

  /** Removing a handle this way removes that handle and no other, whatever becomes of the order. */
  lemma SwapRemoveExact(handles: seq<RegisteredHandle>, index: nat)
    requires index < |handles| && Distinct(handles)
    ensures Distinct(SwapRemove(handles, index))
    ensures multiset(SwapRemove(handles, index)) == multiset(handles) - multiset{handles[index]}
    ensures Ids(SwapRemove(handles, index)) == Ids(handles) - {handles[index].id}
  {
    SwapRemoveDistinct(handles, index);
    SwapRemoveMultiset(handles, index);
    SwapRemoveIds(handles, index);
  }

  class TsfnLifecycle {
    var open: bool
    var handles: seq<RegisteredHandle>

    constructor ()
      ensures open && handles == []
    {
      open, handles := true, [];
    }

    method Register(id: nat, native: NativeTsfn)
      modifies this`handles
      ensures handles == old(handles) + [RegisteredHandle(id, native)]
    {
      handles := handles + [RegisteredHandle(id, native)];
    }

    method Unregister(id: nat) returns (native: Option<NativeTsfn>)
      requires Distinct(handles)
      modifies this`handles
      ensures Distinct(handles) && Ids(handles) == Ids(old(handles)) - {id}
      ensures native.None? <==> id !in Ids(old(handles))
      ensures native.Some? ==> RegisteredHandle(id, native.value) in old(handles)
                               && multiset(handles) == multiset(old(handles)) - multiset{RegisteredHandle(id, native.value)}
      ensures native.None? ==> handles == old(handles)
    {
      native := None;
      for index := 0 to |handles|
        invariant handles == old(handles) && native.None?
        invariant forall i :: 0 <= i < index ==> handles[i].id != id
      {
        if handles[index].id == id {
          native := Some(handles[index].native);
          SwapRemoveExact(handles, index);
          handles := SwapRemove(handles, index);
          return;
        }
      }
    }

    /** The first close empties the list and gives up every listed function once; later closes change nothing. */
    method CloseAndAbort()
      requires Distinct(handles)
      modifies this, set handle <- handles :: handle.native
      ensures !open
      ensures !old(open) ==> handles == old(handles)
      ensures old(open) ==> handles == []
      ensures old(open) ==> forall handle :: handle in old(handles) ==>
                !handle.native.raw && handle.native.aborts == old(handle.native.aborts) + (if old(handle.native.raw) then 1 else 0)
    {
      if !open { return; }
      open := false;
      var drained := handles;
      handles := [];
      for index := 0 to |drained|
        invariant !open && handles == []
        invariant forall i :: 0 <= i < index ==>
          !drained[i].native.raw && drained[i].native.aborts == old(drained[i].native.aborts) + (if old(drained[i].native.raw) then 1 else 0)
        invariant forall i :: index <= i < |drained| ==>
          drained[i].native.raw == old(drained[i].native.raw) && drained[i].native.aborts == old(drained[i].native.aborts)
      {
        drained[index].native.Release(true);
      }
    }
  }
}
