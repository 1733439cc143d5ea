/**
 Apartment ownership of managed COM inputs. A node holds a write-once owner token, the
 tokens of everything below it when it was built, bindings that only the owner's thread
 may touch, and children that its owner may later replace. A step is one section under a
 node's lock; steps of different threads interleave freely.
 */
module ComInput {
  import opened Wrappers

  type NodeId = nat
  type ThreadId = nat

  /** A `ComApartmentBinding`: the thread it was made on, and whether its context is known and idle. */
  datatype Binding = Binding(thread: ThreadId, identified: bool, idle: bool)

  /**
   `tokens` are the nodes whose owner tokens every handle of this node checks; the token of
   a node is written as the node itself. `home` is history: the node this one was created
   under, or the node itself.
   */
  datatype Node = Node(
    tokens: set<NodeId>,
    owner: Option<ThreadId>,
    bindings: seq<Binding>,
    children: seq<NodeId>,
    initialized: bool,
    error: bool,
    home: NodeId)

  datatype Forest = Forest(nodes: map<NodeId, Node>, next: NodeId)

  const EMPTY_FOREST := Forest(map[], 0)

  /** `ensure_owner`: no token checked by this node belongs to another thread. */
  predicate Owns(f: Forest, n: NodeId, thread: ThreadId)
    requires n in f.nodes
  {
    forall t {:trigger f.nodes[t]} :: t in f.nodes[n].tokens && t in f.nodes ==> f.nodes[t].owner.None? || f.nodes[t].owner.value == thread
  }

  function SetNode(f: Forest, n: NodeId, node: Node): Forest {
    f.(nodes := f.nodes[n := node])
  }

  function TokensOf(f: Forest, children: seq<NodeId>): (r: set<NodeId>) {
    if children == [] then {}
    else (if children[0] in f.nodes then f.nodes[children[0]].tokens else {}) + TokensOf(f, children[1..])
  }

  /** `with_children`, with some further tokens to check. */
  function AddNode(f: Forest, children: seq<NodeId>, more: set<NodeId>, error: bool, home: NodeId): Forest {
    Forest(f.nodes[f.next := Node({f.next} + TokensOf(f, children) + more, None, [], children, false, error, home)], f.next + 1)
  }

  datatype Label =
    | Build(children: seq<NodeId>, error: bool)
    | FailedCopy(n: NodeId)
    | Defer(n: NodeId)                                          // a new child for `n`, not yet linked
    | Claim(n: NodeId, thread: ThreadId)
    | Attach(n: NodeId, thread: ThreadId, binding: Binding)
    | Replace(n: NodeId, thread: ThreadId, children: seq<NodeId>, bindings: seq<Binding>, failed: bool)

  /** A child `initialize_winrt` may link under `n`: an old one, or a new one it has claimed. */
  predicate Linkable(f: Forest, n: NodeId, thread: ThreadId, c: NodeId)
    requires n in f.nodes
  {
    c in f.nodes && (c in f.nodes[n].children
                     || (f.nodes[c].home == f.nodes[n].home && n < c && f.nodes[c].tokens == {c} && f.nodes[c].owner == Some(thread)))
  }

  predicate Enabled(f: Forest, l: Label) {
    match l
    case Build(children, _) => forall c :: c in children ==> c in f.nodes
    case FailedCopy(n) => n in f.nodes
    case Defer(n) => n in f.nodes
    // The check that precedes a claim may be out of date by the time of the claim.
    case Claim(n, _) => n in f.nodes && !f.nodes[n].error
    // Bindings and children are set only by the thread that has claimed the node.
    case Attach(n, thread, b) => n in f.nodes && f.nodes[n].owner == Some(thread) && b.thread == thread
    case Replace(n, thread, children, bindings, _) =>
      && n in f.nodes && f.nodes[n].owner == Some(thread)
      && (forall b :: b in bindings ==> b.thread == thread)
      && (forall c :: c in children ==> Linkable(f, n, thread, c))
  }

  function Apply(f: Forest, l: Label): Forest
    requires Enabled(f, l)
  {
    match l
    case Build(children, error) => AddNode(f, children, {}, error, f.next)
    case FailedCopy(n) => AddNode(f, [], f.nodes[n].tokens, true, f.next)
    case Defer(n) => AddNode(f, [], {}, false, f.nodes[n].home)
    case Claim(n, thread) => if f.nodes[n].owner.Some? then f else SetNode(f, n, f.nodes[n].(owner := Some(thread)))
    case Attach(n, _, b) => SetNode(f, n, f.nodes[n].(bindings := f.nodes[n].bindings + [b], initialized := true))
    case Replace(n, _, children, bindings, failed) =>
      SetNode(f, n, f.nodes[n].(bindings := f.nodes[n].bindings + bindings, children := children, initialized := true,
                                error := f.nodes[n].error || failed))
  }

  // ---- the invariant ----

  /** Children come before their parent, or were created under the same home after it. */
  predicate Below(f: Forest, n: NodeId, c: NodeId)
    requires n in f.nodes && c in f.nodes
  {
    f.nodes[c].home < f.nodes[n].home || (f.nodes[c].home == f.nodes[n].home && n < c)
  }

  /** Every token a child checks is checked by the parent, or belongs to the parent's owner. */
  predicate Covered(f: Forest, n: NodeId, c: NodeId)
    requires n in f.nodes && c in f.nodes
  {
    forall t {:trigger f.nodes[t]} :: t in f.nodes[c].tokens ==>
      t in f.nodes[n].tokens || (t in f.nodes && f.nodes[n].owner.Some? && f.nodes[t].owner == f.nodes[n].owner)
  }

  predicate ChildOk(f: Forest, n: NodeId, c: NodeId)
    requires n in f.nodes
  {
    c in f.nodes && Below(f, n, c) && Covered(f, n, c)
  }

  predicate NodeOk(f: Forest, n: NodeId)
    requires n in f.nodes
  {
    var node := f.nodes[n];
    && n < f.next && node.home <= n && n in node.tokens && node.tokens <= f.nodes.Keys
    && (forall b :: b in node.bindings ==> Some(b.thread) == node.owner)
    && (forall c {:trigger ChildOk(f, n, c)} :: c in node.children ==> ChildOk(f, n, c))
  }

  predicate Inv(f: Forest) {
    forall n {:trigger NodeOk(f, n)} :: n in f.nodes ==> NodeOk(f, n)
  }

  // ---- every section keeps it, and no token ever changes hands ----

  /** What a section leaves of the other nodes: all but the owner tokens still unclaimed. */
  predicate Extends(f: Forest, f': Forest, n: NodeId) {
    && f.next <= f'.next
    && f.nodes.Keys <= f'.nodes.Keys
    && (forall x {:trigger Kept(f, f', n, x)} :: x in f.nodes ==> Kept(f, f', n, x))
  }

  predicate Kept(f: Forest, f': Forest, n: NodeId, x: NodeId)
    requires x in f.nodes
  {
    && x in f'.nodes && f'.nodes[x].tokens == f.nodes[x].tokens && f'.nodes[x].home == f.nodes[x].home
    && (f.nodes[x].owner.Some? ==> f'.nodes[x].owner == f.nodes[x].owner)
    && f.nodes[x].bindings <= f'.nodes[x].bindings
    && (f.nodes[x].initialized ==> f'.nodes[x].initialized)
    && (f.nodes[x].error ==> f'.nodes[x].error)
    && (x != n ==> f'.nodes[x] == f.nodes[x])
  }

  lemma StillOk(f: Forest, f': Forest, n: NodeId, x: NodeId)
    requires Inv(f) && Extends(f, f', n) && x in f.nodes && x != n
    ensures x in f'.nodes && NodeOk(f', x)
  {
    assert NodeOk(f, x) && Kept(f, f', n, x);
    forall c | c in f'.nodes[x].children ensures ChildOk(f', x, c) {
      assert ChildOk(f, x, c);
      assert NodeOk(f, c) && Kept(f, f', n, c);
      forall t | t in f.nodes[c].tokens && t in f.nodes ensures Kept(f, f', n, t) {}
    }
  }

  lemma TokensCover(f: Forest, children: seq<NodeId>, c: NodeId)
    requires c in children && c in f.nodes
    ensures f.nodes[c].tokens <= TokensOf(f, children)
  {
    if c != children[0] { TokensCover(f, children[1..], c); }
  }

  lemma {:induction false} TokensKnown(f: Forest, children: seq<NodeId>)
    requires Inv(f)
    ensures TokensOf(f, children) <= f.nodes.Keys
  {
    if children != [] {
      if children[0] in f.nodes { assert NodeOk(f, children[0]); }
      TokensKnown(f, children[1..]);
    }
  }

  lemma AddNodeOk(f: Forest, children: seq<NodeId>, more: set<NodeId>, error: bool, home: NodeId)
    requires Inv(f) && f.next !in f.nodes && more <= f.nodes.Keys
    requires forall c :: c in children ==> c in f.nodes
    requires home == f.next || (home <= f.next && children == [])
    ensures Inv(AddNode(f, children, more, error, home)) && Extends(f, AddNode(f, children, more, error, home), f.next)
  {
    var f' := AddNode(f, children, more, error, home);
    TokensKnown(f, children);
    forall x | x in f'.nodes ensures NodeOk(f', x) {
      if x != f.next {
        StillOk(f, f', f.next, x);
      } else {
        forall c | c in children ensures ChildOk(f', x, c) {
          assert NodeOk(f, c);
          TokensCover(f, children, c);
        }
      }
    }
  }

  lemma Fresh(f: Forest)
    requires Inv(f)
    ensures f.next !in f.nodes
  {
    assert f.next in f.nodes ==> NodeOk(f, f.next);
  }

  lemma ClaimOk(f: Forest, n: NodeId, thread: ThreadId)
    requires Inv(f) && Enabled(f, Claim(n, thread))
    ensures Inv(Apply(f, Claim(n, thread))) && Extends(f, Apply(f, Claim(n, thread)), n)
  {
    var f' := Apply(f, Claim(n, thread));
    assert NodeOk(f, n);
    forall x | x in f'.nodes ensures NodeOk(f', x) {
      if x != n {
        StillOk(f, f', n, x);
      } else {
        forall c | c in f'.nodes[n].children ensures ChildOk(f', n, c) { assert ChildOk(f, n, c) && NodeOk(f, c); }
      }
    }
  }

  lemma AttachOk(f: Forest, n: NodeId, thread: ThreadId, b: Binding)
    requires Inv(f) && Enabled(f, Attach(n, thread, b))
    ensures Inv(Apply(f, Attach(n, thread, b))) && Extends(f, Apply(f, Attach(n, thread, b)), n)
  {
    var f' := Apply(f, Attach(n, thread, b));
    assert NodeOk(f, n);
    assert f.nodes[n].owner == Some(thread);
    forall x | x in f'.nodes ensures NodeOk(f', x) {
      if x != n {
        StillOk(f, f', n, x);
      } else {
        forall c | c in f'.nodes[n].children ensures ChildOk(f', n, c) { assert ChildOk(f, n, c) && NodeOk(f, c); }
      }
    }
  }

  lemma ReplaceOk(f: Forest, l: Label)
    requires Inv(f) && Enabled(f, l) && l.Replace?
    ensures Inv(Apply(f, l)) && Extends(f, Apply(f, l), l.n)
  {
    var f' := Apply(f, l);
    assert NodeOk(f, l.n);
    assert f.nodes[l.n].owner == Some(l.thread);
    forall x | x in f'.nodes ensures NodeOk(f', x) {
      if x != l.n {
        StillOk(f, f', l.n, x);
      } else {
        forall c | c in l.children ensures ChildOk(f', l.n, c) {
          assert Linkable(f, l.n, l.thread, c) && NodeOk(f, c);
          if c in f.nodes[l.n].children { assert ChildOk(f, l.n, c); }
        }
      }
    }
  }

  function Touched(f: Forest, l: Label): NodeId {
    if l.Build? || l.FailedCopy? || l.Defer? then f.next else l.n
  }

  lemma SectionOk(f: Forest, l: Label)
    requires Inv(f) && Enabled(f, l)
    ensures Inv(Apply(f, l)) && Extends(f, Apply(f, l), Touched(f, l))
  {
    Fresh(f);
    match l
    case Build(children, error) => AddNodeOk(f, children, {}, error, f.next);
    case FailedCopy(n) =>
      assert NodeOk(f, n);
      AddNodeOk(f, [], f.nodes[n].tokens, true, f.next);
    case Defer(n) =>
      assert NodeOk(f, n);
      AddNodeOk(f, [], {}, false, f.nodes[n].home);
    case Claim(n, thread) => ClaimOk(f, n, thread);
    case Attach(n, thread, b) => AttachOk(f, n, thread, b);
    case Replace(_, _, _, _, _) => ReplaceOk(f, l);
  }

  function Run(f: Forest, labels: seq<Label>): (r: Option<Forest>)
    decreases |labels|
  {
    if labels == [] then Some(f)
    else if Enabled(f, labels[0]) then Run(Apply(f, labels[0]), labels[1..])
    else None
  }

  /** A claimed token keeps its owner, and a node the tokens it checks. */
  predicate SameToken(f: Forest, f': Forest, x: NodeId)
    requires x in f.nodes
  {
    x in f'.nodes && f'.nodes[x].tokens == f.nodes[x].tokens && (f.nodes[x].owner.Some? ==> f'.nodes[x].owner == f.nodes[x].owner)
  }

  lemma {:induction false} RunOk(f: Forest, labels: seq<Label>)
    requires Inv(f) && Run(f, labels).Some?
    ensures Inv(Run(f, labels).value)
    ensures forall x {:trigger SameToken(f, Run(f, labels).value, x)} :: x in f.nodes ==> SameToken(f, Run(f, labels).value, x)
    decreases |labels|
  {
    if labels != [] {
      SectionOk(f, labels[0]);
      var f' := Apply(f, labels[0]);
      RunOk(f', labels[1..]);
      forall x | x in f.nodes ensures SameToken(f, Run(f, labels).value, x) {
        assert Kept(f, f', Touched(f, labels[0]), x);
        assert SameToken(f', Run(f', labels[1..]).value, x);
      }
    }
  }

  // ---- owning a node is owning everything below it ----

  function Subtree(f: Forest, n: NodeId): (r: set<NodeId>)
    requires Inv(f) && n in f.nodes
    ensures n in r && r <= f.nodes.Keys
    decreases f.nodes[n].home, f.next - n, |f.nodes[n].children| + 1
  {
    assert NodeOk(f, n);
    {n} + SubtreeAll(f, n, f.nodes[n].children)
  }

  function SubtreeAll(f: Forest, n: NodeId, children: seq<NodeId>): (r: set<NodeId>)
    requires Inv(f) && n in f.nodes && forall c :: c in children ==> ChildOk(f, n, c)
    ensures r <= f.nodes.Keys
    decreases f.nodes[n].home, f.next - n, |children|
  {
    if children == [] then {}
    else
      assert ChildOk(f, n, children[0]) && NodeOk(f, children[0]);
      Subtree(f, children[0]) + SubtreeAll(f, n, children[1..])
  }

  lemma OwnsChild(f: Forest, n: NodeId, c: NodeId, thread: ThreadId)
    requires Inv(f) && n in f.nodes && Owns(f, n, thread) && c in f.nodes[n].children
    ensures c in f.nodes && Owns(f, c, thread)
  {
    assert NodeOk(f, n) && ChildOk(f, n, c);
    forall t | t in f.nodes[c].tokens && t in f.nodes ensures f.nodes[t].owner.None? || f.nodes[t].owner.value == thread {
      if t !in f.nodes[n].tokens { assert f.nodes[n].owner.None? || f.nodes[n].owner.value == thread; }
    }
  }

  /**
   Whenever a thread passes the owner check of a node, it passes the check of every node
   below it, so every claimed token of the subtree is its own; children that
   `initialize_winrt` has replaced included.
   */
  lemma {:induction false} OwnerOfSubtree(f: Forest, n: NodeId, thread: ThreadId, m: NodeId)
    requires Inv(f) && n in f.nodes && Owns(f, n, thread) && m in Subtree(f, n)
    ensures Owns(f, m, thread)
    ensures f.nodes[m].owner.Some? ==> f.nodes[m].owner.value == thread
    decreases f.nodes[n].home, f.next - n, |f.nodes[n].children| + 1
  {
    assert NodeOk(f, n) && NodeOk(f, m);
    if m != n { OwnerOfBranches(f, n, f.nodes[n].children, thread, m); }
  }

  lemma {:induction false} OwnerOfBranches(f: Forest, n: NodeId, children: seq<NodeId>, thread: ThreadId, m: NodeId)
    requires Inv(f) && n in f.nodes && Owns(f, n, thread) && forall c :: c in children ==> ChildOk(f, n, c) && c in f.nodes[n].children
    requires m in SubtreeAll(f, n, children)
    ensures Owns(f, m, thread)
    decreases f.nodes[n].home, f.next - n, |children|
  {
    var c := children[0];
    assert ChildOk(f, n, c) && NodeOk(f, c);
    if m in Subtree(f, c) {
      OwnsChild(f, n, c, thread);
      OwnerOfSubtree(f, c, thread, m);
    } else {
      OwnerOfBranches(f, n, children[1..], thread, m);
    }
  }

  predicate Reaches(labels: seq<Label>, f: Forest) {
    Run(EMPTY_FOREST, labels) == Some(f)
  }

  /** Bindings a thread can read, having passed the owner check, were all made on that thread. */
  lemma BindingsReadByOwner(labels: seq<Label>, f: Forest, n: NodeId, thread: ThreadId, m: NodeId)
    requires Reaches(labels, f) && n in f.nodes && Owns(f, n, thread)
    ensures Inv(f)
    ensures m in Subtree(f, n) ==> forall b :: b in f.nodes[m].bindings ==> b.thread == thread
  {
    RunOk(EMPTY_FOREST, labels);
    if m in Subtree(f, n) {
      OwnerOfSubtree(f, n, thread, m);
      assert NodeOk(f, m);
    }
  }

  /** The bindings the destruction of a node's state frees on this thread; otherwise they are leaked. */
  function Freed(node: Node, thread: ThreadId, exited: bool): seq<Binding> {
    if node.owner.None? || (node.owner == Some(thread) && !exited) then node.bindings else []
  }

  /** A state is destroyed anywhere, but frees bindings only on the thread that made them. */
  lemma BindingsFreedByOwner(labels: seq<Label>, f: Forest, n: NodeId, thread: ThreadId, exited: bool)
    requires Reaches(labels, f) && n in f.nodes
    ensures forall b :: b in Freed(f.nodes[n], thread, exited) ==> b.thread == thread
  {
    RunOk(EMPTY_FOREST, labels);
    assert NodeOk(f, n);
  }

  // ---- whole operations of one thread ----

  datatype InputError = WrongThread | Recorded | Unidentified | Busy | ReadFailed

  /** `ensure_idle` of the node: its own error, then every child, then every binding. */
  function EnsureIdle(f: Forest, n: NodeId, thread: ThreadId): (error: Option<InputError>)
    requires Inv(f) && n in f.nodes
    decreases f.nodes[n].home, f.next - n, |f.nodes[n].children| + 1
  {
    assert NodeOk(f, n);
    if !Owns(f, n, thread) then Some(WrongThread)
    else if f.nodes[n].error then Some(Recorded)
    else
      var below := EnsureAllIdle(f, n, f.nodes[n].children, thread);
      if below.Some? then below else BindingsIdle(f.nodes[n].bindings, thread)
  }

  function EnsureAllIdle(f: Forest, n: NodeId, children: seq<NodeId>, thread: ThreadId): (error: Option<InputError>)
    requires Inv(f) && n in f.nodes && forall c :: c in children ==> ChildOk(f, n, c)
    decreases f.nodes[n].home, f.next - n, |children|
  {
    if children == [] then None
    else
      assert ChildOk(f, n, children[0]) && NodeOk(f, children[0]);
      var first := EnsureIdle(f, children[0], thread);
      if first.Some? then first else EnsureAllIdle(f, n, children[1..], thread)
  }

  function BindingsIdle(bindings: seq<Binding>, thread: ThreadId): (error: Option<InputError>) {
    if bindings == [] then None
    else if bindings[0].thread != thread then Some(WrongThread)
    else if !bindings[0].identified then Some(Unidentified)
    else if !bindings[0].idle then Some(Busy)
    else BindingsIdle(bindings[1..], thread)
  }

  predicate NodeIdle(f: Forest, m: NodeId)
    requires m in f.nodes
  {
    !f.nodes[m].error && forall b :: b in f.nodes[m].bindings ==> b.identified && b.idle
  }

  lemma {:induction false} BindingsIdleExact(bindings: seq<Binding>, thread: ThreadId)
    ensures BindingsIdle(bindings, thread).None? <==> forall b :: b in bindings ==> b.thread == thread && b.identified && b.idle
  {
    if bindings != [] {
      BindingsIdleExact(bindings[1..], thread);
      assert forall b :: b in bindings <==> b == bindings[0] || b in bindings[1..];
    }
  }

  lemma {:induction false} EnsureAllIdleExact(f: Forest, n: NodeId, children: seq<NodeId>, thread: ThreadId)
    requires Inv(f) && n in f.nodes && Owns(f, n, thread) && forall c :: c in children ==> ChildOk(f, n, c) && c in f.nodes[n].children
    ensures EnsureAllIdle(f, n, children, thread).None? <==> forall m :: m in SubtreeAll(f, n, children) ==> NodeIdle(f, m)
    decreases f.nodes[n].home, f.next - n, |children|
  {
    if children != [] {
      assert ChildOk(f, n, children[0]) && NodeOk(f, children[0]);
      OwnsChild(f, n, children[0], thread);
      EnsureIdleExact(f, children[0], thread);
      EnsureAllIdleExact(f, n, children[1..], thread);
    }
  }

  /** It succeeds exactly for the owner of a subtree in which no node has an error and every binding is idle. */
  lemma {:induction false} EnsureIdleExact(f: Forest, n: NodeId, thread: ThreadId)
    requires Inv(f) && n in f.nodes
    ensures EnsureIdle(f, n, thread).None? <==> Owns(f, n, thread) && forall m :: m in Subtree(f, n) ==> NodeIdle(f, m)
    decreases f.nodes[n].home, f.next - n, |f.nodes[n].children| + 1
  {
    assert NodeOk(f, n);
    if Owns(f, n, thread) {
      EnsureAllIdleExact(f, n, f.nodes[n].children, thread);
      BindingsIdleExact(f.nodes[n].bindings, thread);
      assert f.nodes[n].owner.None? || f.nodes[n].owner.value == thread;
      assert forall b :: b in f.nodes[n].bindings ==> b.thread == thread;
      assert Subtree(f, n) == {n} + SubtreeAll(f, n, f.nodes[n].children);
      assert (forall m :: m in Subtree(f, n) ==> NodeIdle(f, m))
        <==> NodeIdle(f, n) && forall m :: m in SubtreeAll(f, n, f.nodes[n].children) ==> NodeIdle(f, m);
    }
  }
}
