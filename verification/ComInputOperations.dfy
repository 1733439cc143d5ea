/**
 Binding and initializing an input tree, in place. Every change of the forest is one of
 the sections of module ComInput, recorded in `trace`, so that what is proved of all runs
 holds of these operations; no other thread runs in between here.
 */
module ComInputOperations {
  import opened Wrappers
  import opened ComInput

  /** A WinRT value as `initialize_winrt` sees it: a container of readable or unreadable items, or interfaces. */
  datatype Shape = Interfaces(bindings: seq<Binding>, ok: bool) | Container(items: seq<Item>)
  datatype Item = Unreadable | Readable(value: Shape)

  /** The interfaces found, bound on this thread. */
  function Bound(found: seq<Binding>, thread: ThreadId): (r: seq<Binding>)
    ensures |r| == |found| && forall i :: 0 <= i < |found| ==> r[i] == found[i].(thread := thread)
  {
    seq(|found|, i requires 0 <= i < |found| => found[i].(thread := thread))
  }

  /** `x` can be reached from `n`, or comes after it in the order of creation under one home. */
  predicate Lower(f: Forest, x: NodeId, n: NodeId)
    requires x in f.nodes && n in f.nodes
  {
    x == n || f.nodes[x].home < f.nodes[n].home || (f.nodes[x].home == f.nodes[n].home && n < x)
  }

  /** Only owner tokens were claimed, and only by this thread. */
  predicate OnlyClaims(f: Forest, f': Forest, thread: ThreadId) {
    && f'.next == f.next && f'.nodes.Keys == f.nodes.Keys
    && forall x {:trigger ClaimedAt(f, f', thread, x)} :: x in f.nodes ==> ClaimedAt(f, f', thread, x)
  }

  predicate ClaimedAt(f: Forest, f': Forest, thread: ThreadId, x: NodeId)
    requires x in f.nodes
  {
    && x in f'.nodes && f'.nodes[x] == f.nodes[x].(owner := f'.nodes[x].owner)
    && (f'.nodes[x].owner == f.nodes[x].owner || (f.nodes[x].owner.None? && f'.nodes[x].owner == Some(thread)))
  }

  lemma ClaimsKeepOwns(f: Forest, f': Forest, thread: ThreadId, n: NodeId)
    requires OnlyClaims(f, f', thread) && n in f.nodes && Owns(f, n, thread)
    ensures n in f'.nodes && Owns(f', n, thread)
  {
    assert ClaimedAt(f, f', thread, n);
    forall t | t in f'.nodes[n].tokens && t in f'.nodes ensures f'.nodes[t].owner.None? || f'.nodes[t].owner.value == thread {
      assert ClaimedAt(f, f', thread, t);
    }
  }

  lemma ClaimsCompose(f: Forest, g: Forest, h: Forest, thread: ThreadId)
    requires OnlyClaims(f, g, thread) && OnlyClaims(g, h, thread)
    ensures OnlyClaims(f, h, thread)
  {
    forall x | x in f.nodes ensures ClaimedAt(f, h, thread, x) { assert ClaimedAt(f, g, thread, x) && ClaimedAt(g, h, thread, x); }
  }

  /** Only this thread claimed tokens, and nodes that are not lower than `n` kept everything else. */
  predicate Beneath(f: Forest, f': Forest, thread: ThreadId, n: NodeId)
    requires n in f.nodes
  {
    && f.next <= f'.next && f.nodes.Keys <= f'.nodes.Keys
    && forall x {:trigger SameBeneath(f, f', thread, n, x)} :: x in f.nodes ==> SameBeneath(f, f', thread, n, x)
  }

  predicate SameBeneath(f: Forest, f': Forest, thread: ThreadId, n: NodeId, x: NodeId)
    requires n in f.nodes && x in f.nodes
  {
    && x in f'.nodes && f'.nodes[x].tokens == f.nodes[x].tokens && f'.nodes[x].home == f.nodes[x].home
    && (f'.nodes[x].owner == f.nodes[x].owner || (f.nodes[x].owner.None? && f'.nodes[x].owner == Some(thread)))
    && (f.nodes[x].initialized ==> f'.nodes[x].initialized)
    && (!Lower(f, x, n) ==> ClaimedAt(f, f', thread, x))
  }

  lemma ClaimsBeneath(f: Forest, f': Forest, thread: ThreadId, n: NodeId)
    requires OnlyClaims(f, f', thread) && n in f.nodes
    ensures Beneath(f, f', thread, n)
  {
    forall x | x in f.nodes ensures SameBeneath(f, f', thread, n, x) { assert ClaimedAt(f, f', thread, x); }
  }

  lemma BeneathCompose(f: Forest, g: Forest, h: Forest, thread: ThreadId, n: NodeId, c: NodeId)
    requires n in f.nodes && n in g.nodes && c in g.nodes && Beneath(f, g, thread, n) && Beneath(g, h, thread, c) && Lower(g, c, n)
    ensures Beneath(f, h, thread, n)
  {
    assert SameBeneath(f, g, thread, n, n);
    forall x | x in f.nodes ensures SameBeneath(f, h, thread, n, x) {
      assert SameBeneath(f, g, thread, n, x) && SameBeneath(g, h, thread, c, x);
      if !Lower(f, x, n) { assert !Lower(g, x, c); }
    }
  }

  // What stays true of a child linked so far while a sibling is initialized.
  lemma StaysLinkable(g: Forest, h: Forest, thread: ThreadId, n: NodeId, c: NodeId, d: NodeId)
    requires n in g.nodes && c in g.nodes && Beneath(g, h, thread, c) && Lower(g, c, n) && c != n && Linkable(g, n, thread, d)
    ensures n in h.nodes && h.nodes[n].children == g.nodes[n].children && Linkable(h, n, thread, d)
  {
    assert SameBeneath(g, h, thread, c, n) && !Lower(g, n, c);
    assert SameBeneath(g, h, thread, c, d);
  }

  lemma {:induction false} RunAppend(f: Forest, first: seq<Label>, rest: seq<Label>)
    requires Run(f, first).Some?
    ensures Run(f, first + rest) == Run(Run(f, first).value, rest)
    decreases |first|
  {
    if first == [] {
      assert first + rest == rest;
    } else {
      assert (first + rest)[1..] == first[1..] + rest;
      RunAppend(Apply(f, first[0]), first[1..], rest);
    }
  }

  // Claims change no shape.
  lemma {:induction false} SubtreeSame(f: Forest, f': Forest, thread: ThreadId, n: NodeId)
    requires Inv(f) && Inv(f') && OnlyClaims(f, f', thread) && n in f.nodes
    ensures n in f'.nodes && Subtree(f', n) == Subtree(f, n)
    decreases f.nodes[n].home, f.next - n, |f.nodes[n].children| + 1
  {
    assert ClaimedAt(f, f', thread, n) && NodeOk(f, n) && NodeOk(f', n);
    BranchesSame(f, f', thread, n, f.nodes[n].children);
  }

  lemma {:induction false} BranchesSame(f: Forest, f': Forest, thread: ThreadId, n: NodeId, children: seq<NodeId>)
    requires Inv(f) && Inv(f') && OnlyClaims(f, f', thread) && n in f.nodes && n in f'.nodes
    requires forall c :: c in children ==> ChildOk(f, n, c) && ChildOk(f', n, c)
    ensures SubtreeAll(f', n, children) == SubtreeAll(f, n, children)
    decreases f.nodes[n].home, f.next - n, |children|
  {
    if children != [] {
      assert ChildOk(f, n, children[0]) && NodeOk(f, children[0]);
      SubtreeSame(f, f', thread, children[0]);
      BranchesSame(f, f', thread, n, children[1..]);
    }
  }

  lemma {:induction false} InSomeBranch(f: Forest, n: NodeId, children: seq<NodeId>, m: NodeId)
    requires Inv(f) && n in f.nodes && (forall c :: c in children ==> ChildOk(f, n, c)) && m in SubtreeAll(f, n, children)
    ensures exists c :: c in children && c in f.nodes && m in Subtree(f, c)
  {
    if m !in Subtree(f, children[0]) { InSomeBranch(f, n, children[1..], m); }
  }

  predicate ClaimedBy(f: Forest, nodes: set<NodeId>, thread: ThreadId) {
    forall m {:trigger m in nodes} :: m in nodes ==> m in f.nodes && f.nodes[m].owner == Some(thread)
  }

  lemma ClaimsStay(f: Forest, f': Forest, nodes: set<NodeId>, thread: ThreadId)
    requires OnlyClaims(f, f', thread) && ClaimedBy(f, nodes, thread)
    ensures ClaimedBy(f', nodes, thread)
  {
    forall m | m in nodes ensures m in f'.nodes && f'.nodes[m].owner == Some(thread) {
      assert m in f.nodes && f.nodes[m].owner == Some(thread);
      assert ClaimedAt(f, f', thread, m);
    }
  }

  lemma SubtreeBound(before: Forest, f: Forest, n: NodeId, thread: ThreadId)
    requires Inv(before) && Inv(f) && OnlyClaims(before, f, thread) && n in before.nodes
    requires before.nodes[n].owner == Some(thread) && Owns(before, n, thread) && !before.nodes[n].error
    requires forall c :: c in before.nodes[n].children ==> c in before.nodes && ClaimedBy(f, Subtree(before, c), thread)
    ensures n in f.nodes && ClaimedBy(f, Subtree(f, n), thread) && !f.nodes[n].error
  {
    SubtreeSame(before, f, thread, n);
    assert ClaimedAt(before, f, thread, n) && NodeOk(before, n);
    forall m | m in Subtree(f, n) ensures m in f.nodes && f.nodes[m].owner == Some(thread) {
      if m != n {
        InSomeBranch(before, n, before.nodes[n].children, m);
        var c :| c in before.nodes[n].children && c in before.nodes && m in Subtree(before, c);
        assert ClaimedBy(f, Subtree(before, c), thread);
      }
    }
  }

  /** The children found at the indexes of a container: the old ones where there were some, and all of them initialized. */
  predicate Collected(f: Forest, previous: seq<NodeId>, children: seq<NodeId>) {
    forall i {:trigger children[i]} :: 0 <= i < |children| ==>
      children[i] in f.nodes && f.nodes[children[i]].initialized && (i < |previous| ==> children[i] == previous[i])
  }

  /** The thread passes the owner check, and no error is recorded anywhere below. */
  predicate Bindable(f: Forest, n: NodeId, thread: ThreadId)
    requires Inv(f) && n in f.nodes
  {
    Owns(f, n, thread) && forall m {:trigger f.nodes[m]} :: m in Subtree(f, n) ==> !f.nodes[m].error
  }

  lemma BindableSame(f: Forest, f': Forest, thread: ThreadId, n: NodeId)
    requires Inv(f) && Inv(f') && OnlyClaims(f, f', thread) && n in f.nodes && Owns(f, n, thread)
    ensures n in f'.nodes && (Bindable(f', n, thread) <==> Bindable(f, n, thread))
  {
    SubtreeSame(f, f', thread, n);
    ClaimsKeepOwns(f, f', thread, n);
    forall m | m in Subtree(f, n) ensures m in f'.nodes && f'.nodes[m].error == f.nodes[m].error { assert ClaimedAt(f, f', thread, m); }
  }

  lemma FreshBindable(f: Forest, n: NodeId, thread: ThreadId)
    requires Inv(f) && n in f.nodes && f.nodes[n].tokens == {n} && f.nodes[n].owner.None? && f.nodes[n].children == [] && !f.nodes[n].error
    ensures Bindable(f, n, thread)
  {
    assert Subtree(f, n) == {n};
  }

  lemma {:induction false} BranchInSubtree(f: Forest, n: NodeId, children: seq<NodeId>, c: NodeId)
    requires Inv(f) && n in f.nodes && (forall x :: x in children ==> ChildOk(f, n, x)) && c in children
    ensures c in f.nodes && Subtree(f, c) <= SubtreeAll(f, n, children)
  {
    if c != children[0] { BranchInSubtree(f, n, children[1..], c); }
  }

  lemma BindableParts(f: Forest, n: NodeId, thread: ThreadId)
    requires Inv(f) && n in f.nodes && Owns(f, n, thread) && !f.nodes[n].error
    ensures Bindable(f, n, thread) <==> forall c :: c in f.nodes[n].children ==> c in f.nodes && Bindable(f, c, thread)
  {
    assert NodeOk(f, n);
    var children := f.nodes[n].children;
    if Bindable(f, n, thread) {
      forall c | c in children ensures c in f.nodes && Bindable(f, c, thread) {
        OwnsChild(f, n, c, thread);
        BranchInSubtree(f, n, children, c);
      }
    }
    if forall c :: c in children ==> c in f.nodes && Bindable(f, c, thread) {
      forall m | m in Subtree(f, n) ensures !f.nodes[m].error {
        if m != n { InSomeBranch(f, n, children, m); }
      }
    }
  }

  lemma CollectedStays(g: Forest, h: Forest, thread: ThreadId, n: NodeId, previous: seq<NodeId>, children: seq<NodeId>)
    requires n in g.nodes && Beneath(g, h, thread, n) && Collected(g, previous, children)
    ensures Collected(h, previous, children)
  {
    forall i | 0 <= i < |children| ensures children[i] in h.nodes && h.nodes[children[i]].initialized {
      assert SameBeneath(g, h, thread, n, children[i]);
    }
  }

  /** The subtree of `c` could be bound in `before`, and belongs to the thread now. */
  predicate Taken(before: Forest, f: Forest, c: NodeId, thread: ThreadId)
    requires Inv(before)
  {
    c in before.nodes && Bindable(before, c, thread) && ClaimedBy(f, Subtree(before, c), thread)
  }

  lemma AllTakenStay(before: Forest, f: Forest, f': Forest, nodes: seq<NodeId>, thread: ThreadId)
    requires Inv(before) && OnlyClaims(f, f', thread) && forall c :: c in nodes ==> Taken(before, f, c, thread)
    ensures forall c :: c in nodes ==> Taken(before, f', c, thread)
  {
    forall c | c in nodes ensures Taken(before, f', c, thread) { ClaimsStay(f, f', Subtree(before, c), thread); }
  }

  class Bookkeeping {
    var forest: Forest
    ghost var trace: seq<Label>

    ghost predicate Valid()
      reads this
    {
      Reaches(trace, forest) && Inv(forest)
    }

    constructor ()
      ensures Valid() && forest == EMPTY_FOREST
    {
      forest, trace := EMPTY_FOREST, [];
    }

    method Perform(l: Label)
      requires Valid() && Enabled(forest, l)
      modifies this
      ensures Valid() && forest == Apply(old(forest), l) && Extends(old(forest), forest, Touched(old(forest), l))
    {
      SectionOk(forest, l);
      RunAppend(EMPTY_FOREST, trace, [l]);
      assert Run(Apply(forest, l), []) == Some(Apply(forest, l));
      trace := trace + [l];
      forest := Apply(forest, l);
    }

    method BindNode(n: NodeId, thread: ThreadId) returns (error: Option<InputError>)
      requires Valid() && n in forest.nodes
      modifies this
      ensures Valid() && OnlyClaims(old(forest), forest, thread)
      ensures error.None? <==> Owns(old(forest), n, thread) && !old(forest).nodes[n].error
      ensures error.None? ==> forest.nodes[n].owner == Some(thread) && Owns(forest, n, thread) && !forest.nodes[n].error
    {
      if !Owns(forest, n, thread) { return Some(WrongThread); }
      if forest.nodes[n].error { return Some(Recorded); }
      ghost var before := forest;
      assert NodeOk(forest, n);
      Perform(Claim(n, thread));
      assert Kept(before, forest, n, n);
      forall x | x in before.nodes ensures ClaimedAt(before, forest, thread, x) { assert Kept(before, forest, n, x); }
      ClaimsKeepOwns(before, forest, thread, n);
      error := if Owns(forest, n, thread) then None else Some(WrongThread);
    }

    /** Success means that the whole subtree belongs to the thread; on failure some claims may stay. */
    method BindCurrentApartment(n: NodeId, thread: ThreadId) returns (error: Option<InputError>)
      requires Valid() && n in forest.nodes
      modifies this
      ensures Valid() && OnlyClaims(old(forest), forest, thread)
      ensures error.None? <==> Bindable(old(forest), n, thread)
      ensures error.None? ==> Owns(forest, n, thread) && ClaimedBy(forest, Subtree(forest, n), thread) && !forest.nodes[n].error
      decreases forest.nodes[n].home, forest.next - n, 1
    {
      ghost var start := forest;
      error := BindNode(n, thread);
      if error.Some? { return; }
      ghost var before := forest;
      assert ClaimedAt(start, before, thread, n) && NodeOk(before, n);
      BindableSame(start, before, thread, n);
      BindableParts(before, n, thread);
      error := BindChildren(n, thread);
      ClaimsCompose(start, before, forest, thread);
      if error.Some? { return; }
      SubtreeBound(before, forest, n, thread);
      ClaimsKeepOwns(before, forest, thread, n);
    }

    // Pinning the children repeats the owner check, which the owner of their parent passes.
    method BindChildren(n: NodeId, thread: ThreadId) returns (error: Option<InputError>)
      requires Valid() && n in forest.nodes && Owns(forest, n, thread)
      modifies this
      ensures Valid() && OnlyClaims(old(forest), forest, thread)
      ensures error.None? ==> forall c :: c in old(forest).nodes[n].children ==> Taken(old(forest), forest, c, thread)
      ensures error.Some? ==> exists c :: c in old(forest).nodes[n].children && c in old(forest).nodes && !Bindable(old(forest), c, thread)
      decreases forest.nodes[n].home, forest.next - n, 0
    {
      error := None;
      ghost var before := forest;
      var children := forest.nodes[n].children;
      assert NodeOk(before, n);
      for i := 0 to |children|
        invariant error.None? && Valid() && OnlyClaims(before, forest, thread)
        invariant forall c :: c in children[..i] ==> Taken(before, forest, c, thread)
      {
        ghost var g := forest;
        var c := children[i];
        assert ChildOk(before, n, c) && ClaimedAt(before, g, thread, c);
        OwnsChild(before, n, c, thread);
        BindableSame(before, g, thread, c);
        error := BindCurrentApartment(c, thread);
        ClaimsCompose(before, g, forest, thread);
        if error.Some? {
          assert c in before.nodes[n].children && !Bindable(before, c, thread);
          return;
        }
        SubtreeSame(before, forest, thread, c);
        AllTakenStay(before, g, forest, children[..i], thread);
        assert children[..i + 1] == children[..i] + [c];
      }
      assert children[..|children|] == children;
    }

    /** Adds a child that is not linked yet: a new, unclaimed node under the same home. */
    method DeferChild(n: NodeId, thread: ThreadId) returns (c: NodeId)
      requires Valid() && n in forest.nodes
      modifies this
      ensures Valid() && c == old(forest).next && c !in old(forest).nodes
      ensures forest == old(forest).(nodes := old(forest).nodes[c := Node({c}, None, [], [], false, false, old(forest).nodes[n].home)], next := c + 1)
      ensures Beneath(old(forest), forest, thread, n) && n < c
    {
      assert NodeOk(forest, n);
      Fresh(forest);
      c := forest.next;
      ghost var before := forest;
      Perform(Defer(n));
      assert {c} + TokensOf(before, []) + {} == {c};
      forall x | x in before.nodes ensures SameBeneath(before, forest, thread, n, x) { assert Kept(before, forest, c, x); }
    }

    /** One item of a container: the child at its index, or a new one, initialized unless it already was. */
    method InitializeItem(n: NodeId, thread: ThreadId, previous: seq<NodeId>, index: nat, item: Item) returns (child: Option<NodeId>)
      requires Valid() && n in forest.nodes && forest.nodes[n].children == previous
      modifies this
      ensures Valid() && Beneath(old(forest), forest, thread, n)
      ensures n in forest.nodes && forest.nodes[n] == old(forest).nodes[n].(owner := forest.nodes[n].owner)
      ensures child.Some? ==> Linkable(forest, n, thread, child.value) && forest.nodes[child.value].initialized
      ensures child.None? && item.Readable? ==> index < |previous| && previous[index] in old(forest).nodes && !Bindable(old(forest), previous[index], thread)
      ensures child.Some? ==> child.value == if index < |previous| then previous[index] else old(forest).next
      ensures forall d :: d in old(forest).nodes && Linkable(old(forest), n, thread, d) ==> Linkable(forest, n, thread, d)
      decreases item, 1
    {
      ghost var start := forest;
      assert NodeOk(forest, n);
      assert Beneath(start, start, thread, n);
      if item.Unreadable? { return None; }
      var c: NodeId;
      if index < |previous| {
        c := previous[index];
        assert ChildOk(forest, n, c);
        if !Owns(forest, c, thread) { return None; }
      } else {
        c := DeferChild(n, thread);
        FreshBindable(forest, c, thread);
      }
      ghost var middle := forest;
      assert Lower(middle, c, n) && c != n;
      if forest.nodes[c].initialized { return Some(c); }
      var error := InitializeWinrt(c, thread, item.value);
      BeneathCompose(start, middle, forest, thread, n, c);
      assert SameBeneath(middle, forest, thread, c, n) && SameBeneath(middle, forest, thread, c, c) && !Lower(middle, n, c);
      forall d | d in start.nodes && Linkable(start, n, thread, d) ensures Linkable(forest, n, thread, d) {
        StaysLinkable(middle, forest, thread, n, c, d);
      }
      child := if error.Some? then None else Some(c);
    }

    method InitializeItems(n: NodeId, thread: ThreadId, previous: seq<NodeId>, items: seq<Item>) returns (children: seq<NodeId>, failed: bool)
      requires Valid() && n in forest.nodes && forest.nodes[n].children == previous
      modifies this
      ensures Valid() && Beneath(old(forest), forest, thread, n)
      ensures n in forest.nodes && forest.nodes[n] == old(forest).nodes[n].(owner := forest.nodes[n].owner)
      ensures forall c :: c in children ==> Linkable(forest, n, thread, c)
      ensures failed <==> |children| < |items|
      ensures failed && |previous| <= |children| ==> items[|children|].Unreadable?
      ensures Collected(forest, previous, children) && |children| <= |items|
      decreases items
    {
      children, failed := [], false;
      ghost var start := forest;
      for index := 0 to |items|
        invariant Valid() && !failed && n in forest.nodes && forest.nodes[n] == start.nodes[n].(owner := forest.nodes[n].owner)
        invariant Beneath(start, forest, thread, n)
        invariant forall c :: c in children ==> Linkable(forest, n, thread, c)
        invariant |children| == index && Collected(forest, previous, children)
      {
        ghost var g := forest;
        var child := InitializeItem(n, thread, previous, index, items[index]);
        BeneathCompose(start, g, forest, thread, n, n);
        CollectedStays(g, forest, thread, n, previous, children);
        if child.None? {
          failed := true;
          return;
        }
        children := children + [child.value];
      }
    }

    /** The last section: new children and more bindings for a node this thread has claimed. */
    method ReplaceContents(n: NodeId, thread: ThreadId, children: seq<NodeId>, bindings: seq<Binding>, failed: bool)
      requires Valid() && Enabled(forest, Replace(n, thread, children, bindings, failed))
      modifies this
      ensures Valid() && n in old(forest.nodes) && n in forest.nodes && Beneath(old(forest), forest, thread, n)
      ensures forest.nodes[n].owner == Some(thread) && forest.nodes[n].initialized && forest.nodes[n].children == children
      ensures forest.nodes[n].bindings == old(forest.nodes[n].bindings) + bindings
      ensures forest.nodes[n].error == (old(forest.nodes[n].error) || failed)
      ensures forall c :: c in old(forest.nodes) && old(forest.nodes[c].initialized) ==> c in forest.nodes && forest.nodes[c].initialized
    {
      ghost var linked := forest;
      Perform(Replace(n, thread, children, bindings, failed));
      forall x | x in linked.nodes
        ensures SameBeneath(linked, forest, thread, n, x) && (linked.nodes[x].initialized ==> forest.nodes[x].initialized)
      {
        assert Kept(linked, forest, n, x);
      }
    }

    /**
     `initialize_winrt`: binds the subtree, then replaces the children of the node, and
     of the children it has to initialize, by old ones and by new ones it has claimed.
     */
    method InitializeWinrt(n: NodeId, thread: ThreadId, value: Shape) returns (error: Option<InputError>)
      requires Valid() && n in forest.nodes
      modifies this
      ensures Valid() && Beneath(old(forest), forest, thread, n)
      ensures error.None? <==> Bindable(old(forest), n, thread)
      ensures error.Some? ==> OnlyClaims(old(forest), forest, thread)
      ensures error.None? ==> n in forest.nodes && forest.nodes[n].owner == Some(thread) && forest.nodes[n].initialized
      ensures error.None? && value.Interfaces? ==>
        && forest.nodes[n].bindings == old(forest.nodes[n].bindings) + Bound(value.bindings, thread)
        && forest.nodes[n].children == [] && forest.nodes[n].error == !value.ok
      ensures error.None? && value.Container? ==>
        && forest.nodes[n].bindings == old(forest.nodes[n].bindings)
        && Collected(forest, old(forest.nodes[n].children), forest.nodes[n].children)
        && |forest.nodes[n].children| <= |value.items|
        && (forest.nodes[n].error <==> |forest.nodes[n].children| < |value.items|)
        && (forest.nodes[n].error && |old(forest.nodes[n].children)| <= |forest.nodes[n].children| ==>
              value.items[|forest.nodes[n].children|].Unreadable?)
      decreases value
    {
      ghost var start := forest;
      error := BindCurrentApartment(n, thread);
      ClaimsBeneath(start, forest, thread, n);
      if error.Some? { return; }
      ghost var bound := forest;
      assert n in Subtree(bound, n) && ClaimedAt(start, bound, thread, n);
      var previous := forest.nodes[n].children;
      var children, bindings, failed := [], [], false;
      match value {
        case Container(items) =>
          children, failed := InitializeItems(n, thread, previous, items);
        case Interfaces(found, ok) =>
          bindings := Bound(found, thread);
          failed := !ok;
      }
      BeneathCompose(start, bound, forest, thread, n, n);
      ghost var linked := forest;
      assert SameBeneath(bound, linked, thread, n, n);
      ReplaceContents(n, thread, children, bindings, failed);
      BeneathCompose(start, linked, forest, thread, n, n);
    }
  }
}
