/** Native outputs over whole runs: every right to free is exercised once, handed on, or leaked, never twice. */
module NativeOutputRuns {
  import opened Wrappers
  import opened Tally
  import opened NativeOutputs

  /**
   The values and handles JavaScript holds, by creation; what was freed, what was leaked,
   and which rights the native side has handed out.
   */
  datatype World = World(
    values: seq<Option<Value>>,
    handles: seq<Option<Block>>,
    freed: multiset<Right>,
    leaked: multiset<Right>,
    issued: multiset<Right>)

  const EMPTY_WORLD := World([], [], multiset{}, multiset{}, multiset{})

  function HeldBy(v: Option<Value>): Option<Right> {
    if v.Some? then RightOf(v.value) else None
  }

  /** How many values hold the right. */
  function ValuesHolding(values: seq<Option<Value>>, r: Right): nat {
    if values == [] then 0 else (if HeldBy(values[0]) == Some(r) then 1 else 0) + ValuesHolding(values[1..], r)
  }

  function HandlesHolding(handles: seq<Option<Block>>, r: Right): nat {
    if r.how.ObjectDelete? then Count(handles, r.block) else 0
  }

  /** Rights issued and not yet freed or leaked, less those that values and handles hold. */
  function Unaccounted(w: World, r: Right): int {
    w.issued[r] as int - w.freed[r] as int - w.leaked[r] as int - ValuesHolding(w.values, r) - HandlesHolding(w.handles, r)
  }

  predicate Sound(w: World) {
    forall i {:trigger w.values[i]} :: 0 <= i < |w.values| && w.values[i].Some? ==> OneRight(w.values[i].value)
  }

  lemma {:induction false} ValuesAppend(values: seq<Option<Value>>, last: Option<Value>, r: Right)
    ensures ValuesHolding(values + [last], r) == ValuesHolding(values, r) + One(HeldBy(last) == Some(r))
  {
    if values == [] {
      assert values + [last] == [last];
    } else {
      assert (values + [last])[1..] == values[1..] + [last];
      ValuesAppend(values[1..], last, r);
    }
  }

  lemma {:induction false} ValuesUpdate(values: seq<Option<Value>>, i: nat, now: Option<Value>, r: Right)
    requires i < |values|
    ensures ValuesHolding(values[i := now], r) == ValuesHolding(values, r) - One(HeldBy(values[i]) == Some(r)) + One(HeldBy(now) == Some(r))
  {
    if i > 0 {
      assert values[i := now][1..] == values[1..][i - 1 := now];
      ValuesUpdate(values[1..], i - 1, now, r);
    }
  }

  // ---- operations ----

  function RightSet(right: Option<Right>): multiset<Right> {
    if right.Some? then multiset{right.value} else multiset{}
  }

  function AddValue(w: World, v: Value): World {
    w.(values := w.values + [Some(v)])
  }

  function SetValue(w: World, i: nat, v: Option<Value>): World
    requires i < |w.values|
  {
    w.(values := w.values[i := v])
  }

  function Free(w: World, right: Option<Right>): World {
    w.(freed := w.freed + RightSet(right))
  }

  datatype Op =
    | Output(kind: OutputKind, address: nat)                          // a raw pointer result of a native call
    | ObjectOutput(o: Block, thread: ThreadId)
    | AdoptCom(v: nat, thread: ThreadId, cast: bool, bound: bool)
    | AdoptCoTaskMem(v: nat)
    | TakeString(v: nat, bstr: bool)
    | TakeHandle(v: nat)
    | Release(v: nat, thread: ThreadId, cleaned: bool)
    | Drop(v: nat, thread: ThreadId, exited: bool, cleaned: bool)
    | ReleaseHandle(h: nat, cleaned: bool)
    | DropHandle(h: nat, cleaned: bool)

  predicate Possible(w: World, op: Op) {
    match op
    case Output(_, _) => true
    case ObjectOutput(_, _) => true
    case ReleaseHandle(h, _) => h < |w.handles|
    case DropHandle(h, _) => h < |w.handles|
    case AdoptCom(v, _, _, _) => v < |w.values| && w.values[v].Some?
    case AdoptCoTaskMem(v) => v < |w.values| && w.values[v].Some?
    case TakeString(v, _) => v < |w.values| && w.values[v].Some?
    case TakeHandle(v) => v < |w.values| && w.values[v].Some?
    case Release(v, _, _) => v < |w.values| && w.values[v].Some?
    case Drop(v, _, _, _) => v < |w.values| && w.values[v].Some?
  }

  /** The right the callee gives away with a pointer result, by the contract of the call: null and unclassified results carry none. */
  function IssuedRight(kind: OutputKind, address: nat): Option<Right> {
    if address == 0 then None
    else
      match kind
      case NoKind => None
      case UnclassifiedKind => None
      case ComKind => Some(Right(address, ComRelease))
      case CoTaskMemKind => Some(Right(address, TaskFree))
      case BstrKind => Some(Right(address, StringFree))
      case HandleKind => Some(Right(address, ObjectDelete))
  }

  function OutputValue(kind: OutputKind, address: nat): Value {
    Value(RawPtr(address), Classify(kind), None, None, None)
  }

  /** `adopt_com_pointer`: the reference moves into a managed object, or is released when that fails. */
  function Adopt(w: World, i: nat, thread: ThreadId, cast: bool, bound: bool): (r: (World, Option<OutputError>))
    requires i < |w.values| && w.values[i].Some?
  {
    var v := w.values[i].value;
    if Foreign(v, thread) then (w, Some(WrongApartment))
    else
      var (left, pointer) := TakePointer(v, ComOutput);
      if pointer.Err? then (w, Some(pointer.error))
      else
        var taken := SetValue(w, i, Some(left.(apartment := None)));
        if pointer.value == 0 then (taken, Some(NullOutput))
        else
          var o: Block := pointer.value;
          if !cast then (Free(taken, Some(Right(o, ComRelease))), Some(CastFailed))
          else if !bound then (Free(taken, Some(Right(o, ComRelease))), Some(BindFailed))
          else (AddValue(taken, Value(Object(o), NoProvenance, None, Some(thread), None)), None)
  }

  function AdoptTask(w: World, i: nat): (r: (World, Option<OutputError>))
    requires i < |w.values| && w.values[i].Some?
  {
    var (left, pointer) := TakePointer(w.values[i].value, CoTaskMemOutput);
    if pointer.Err? then (w, Some(pointer.error))
    else
      var taken := SetValue(w, i, Some(left));
      // The adopted value points at the block and owns it; only the owner frees it.
      if pointer.value == 0 then (AddValue(taken, NULL_VALUE), None)
      else (AddValue(taken, Value(RawPtr(pointer.value), Borrowed, Some(CoTaskMem(pointer.value)), None, None)), None)
  }

  function TakeText(w: World, i: nat, bstr: bool): (r: (World, Option<OutputError>))
    requires i < |w.values| && w.values[i].Some?
  {
    var (left, pointer) := TakePointer(w.values[i].value, if bstr then BstrOutput else CoTaskMemOutput);
    if pointer.Err? then (w, Some(pointer.error))
    else
      var taken := SetValue(w, i, Some(left));
      if pointer.value == 0 then (taken, None)
      else (Free(taken, Some(Right(pointer.value, if bstr then StringFree else TaskFree))), None)
  }

  function TakeOwnedHandle(w: World, i: nat): (r: (World, Option<OutputError>))
    requires i < |w.values| && w.values[i].Some?
  {
    var (left, pointer) := TakePointer(w.values[i].value, HandleOutput);
    if pointer.Err? then (w, Some(pointer.error))
    else
      var taken := SetValue(w, i, Some(left));
      if pointer.value == 0 then (taken, Some(NullOutput))
      else
        var b: Block := pointer.value;
        (taken.(handles := taken.handles + [Some(b)]), None)
  }

  function HandleRight(h: Option<Block>): Option<Right> {
    if h.Some? then Some(Right(h.value, ObjectDelete)) else None
  }

  function Apply(w: World, op: Op): (r: (World, Option<OutputError>))
    requires Possible(w, op)
  {
    match op
    case Output(kind, address) =>
      (AddValue(w.(issued := w.issued + RightSet(IssuedRight(kind, address))), OutputValue(kind, address)), None)
    case ObjectOutput(o, thread) =>
      var v := Value(Object(o), NoProvenance, None, Some(thread), Some(thread));
      (AddValue(w.(issued := w.issued + multiset{Right(o, ComRelease)}), v), None)
    case AdoptCom(i, thread, cast, bound) => Adopt(w, i, thread, cast, bound)
    case AdoptCoTaskMem(i) => AdoptTask(w, i)
    case TakeString(i, bstr) => TakeText(w, i, bstr)
    case TakeHandle(i) => TakeOwnedHandle(w, i)
    case Release(i, thread, cleaned) =>
      var (left, freed, error) := ReleaseValue(w.values[i].value, thread, cleaned);
      (Free(SetValue(w, i, Some(left)), freed), error)
    case Drop(i, thread, exited, cleaned) =>
      var (freed, leaked) := DropValue(w.values[i].value, thread, exited, cleaned);
      var dropped := Free(SetValue(w, i, None), freed);
      (dropped.(leaked := dropped.leaked + RightSet(leaked)), None)
    case ReleaseHandle(h, cleaned) =>
      if w.handles[h].None? then (w, None)
      else if !cleaned then (w, Some(CleanupFailed))
      else (Free(w.(handles := w.handles[h := None]), HandleRight(w.handles[h])), None)
    case DropHandle(h, cleaned) =>
      var dropped := w.(handles := w.handles[h := None]);
      (if cleaned then Free(dropped, HandleRight(w.handles[h])) else dropped.(leaked := dropped.leaked + RightSet(HandleRight(w.handles[h]))), None)
  }

  // ---- rights are conserved by every operation ----

  lemma SetValueBalance(w: World, i: nat, v: Option<Value>, r: Right)
    requires i < |w.values|
    ensures Unaccounted(SetValue(w, i, v), r) == Unaccounted(w, r) + One(HeldBy(w.values[i]) == Some(r)) - One(HeldBy(v) == Some(r))
  {
    ValuesUpdate(w.values, i, v, r);
  }

  lemma AddValueBalance(w: World, v: Value, r: Right)
    ensures Unaccounted(AddValue(w, v), r) == Unaccounted(w, r) - One(RightOf(v) == Some(r))
  {
    ValuesAppend(w.values, Some(v), r);
  }

  lemma FreeBalance(w: World, right: Option<Right>, r: Right)
    ensures Unaccounted(Free(w, right), r) == Unaccounted(w, r) - One(right == Some(r))
  {
  }

  lemma AdoptBalanced(w: World, i: nat, thread: ThreadId, cast: bool, bound: bool, r: Right)
    requires i < |w.values| && w.values[i].Some?
    ensures Unaccounted(Adopt(w, i, thread, cast, bound).0, r) == Unaccounted(w, r)
  {
    var v := w.values[i].value;
    var (left, pointer) := TakePointer(v, ComOutput);
    if !Foreign(v, thread) && pointer.Ok? {
      TakeMovesRight(v, ComOutput);
      SetValueBalance(w, i, Some(left.(apartment := None)), r);
      var taken := SetValue(w, i, Some(left.(apartment := None)));
      if pointer.value != 0 {
        if cast && bound {
          AddValueBalance(taken, Value(Object(pointer.value), NoProvenance, None, Some(thread), None), r);
        } else {
          FreeBalance(taken, Some(Right(pointer.value, ComRelease)), r);
        }
      }
    }
  }

  lemma AdoptTaskBalanced(w: World, i: nat, r: Right)
    requires i < |w.values| && w.values[i].Some?
    ensures Unaccounted(AdoptTask(w, i).0, r) == Unaccounted(w, r)
  {
    var (left, pointer) := TakePointer(w.values[i].value, CoTaskMemOutput);
    if pointer.Ok? {
      TakeMovesRight(w.values[i].value, CoTaskMemOutput);
      SetValueBalance(w, i, Some(left), r);
      var adopted := if pointer.value == 0 then NULL_VALUE else Value(RawPtr(pointer.value), Borrowed, Some(CoTaskMem(pointer.value)), None, None);
      AddValueBalance(SetValue(w, i, Some(left)), adopted, r);
    }
  }

  lemma TakeTextBalanced(w: World, i: nat, bstr: bool, r: Right)
    requires i < |w.values| && w.values[i].Some?
    ensures Unaccounted(TakeText(w, i, bstr).0, r) == Unaccounted(w, r)
  {
    var expected := if bstr then BstrOutput else CoTaskMemOutput;
    var (left, pointer) := TakePointer(w.values[i].value, expected);
    if pointer.Ok? {
      TakeMovesRight(w.values[i].value, expected);
      SetValueBalance(w, i, Some(left), r);
      if pointer.value != 0 { FreeBalance(SetValue(w, i, Some(left)), Some(Right(pointer.value, if bstr then StringFree else TaskFree)), r); }
    }
  }

  lemma TakeHandleBalanced(w: World, i: nat, r: Right)
    requires i < |w.values| && w.values[i].Some?
    ensures Unaccounted(TakeOwnedHandle(w, i).0, r) == Unaccounted(w, r)
  {
    var (left, pointer) := TakePointer(w.values[i].value, HandleOutput);
    if pointer.Ok? {
      TakeMovesRight(w.values[i].value, HandleOutput);
      SetValueBalance(w, i, Some(left), r);
      if pointer.value != 0 {
        var b: Block := pointer.value;
        CountAppend<Block>(w.handles, Some(b), r.block);
      }
    }
  }

  lemma HandleBalanced(w: World, h: nat, cleaned: bool, drop: bool, r: Right)
    requires h < |w.handles|
    ensures Unaccounted(Apply(w, if drop then DropHandle(h, cleaned) else ReleaseHandle(h, cleaned)).0, r) == Unaccounted(w, r)
  {
    CountUpdate<Block>(w.handles, h, None, r.block);
  }

  lemma ReleaseBalanced(w: World, i: nat, thread: ThreadId, cleaned: bool, r: Right)
    requires Sound(w) && i < |w.values| && w.values[i].Some?
    ensures Unaccounted(Apply(w, Release(i, thread, cleaned)).0, r) == Unaccounted(w, r)
  {
    var (left, freed, error) := ReleaseValue(w.values[i].value, thread, cleaned);
    ReleaseExact(w.values[i].value, thread, cleaned);
    SetValueBalance(w, i, Some(left), r);
    FreeBalance(SetValue(w, i, Some(left)), freed, r);
  }

  lemma DropBalanced(w: World, i: nat, thread: ThreadId, exited: bool, cleaned: bool, r: Right)
    requires Sound(w) && i < |w.values| && w.values[i].Some?
    ensures Unaccounted(Apply(w, Drop(i, thread, exited, cleaned)).0, r) == Unaccounted(w, r)
  {
    DropExact(w.values[i].value, thread, exited, cleaned);
    SetValueBalance(w, i, None, r);
    FreeBalance(SetValue(w, i, None), DropValue(w.values[i].value, thread, exited, cleaned).0, r);
  }

  /** An output is classified as what it is: its value has the right that was issued with it. */
  lemma ClassifiedAsIssued(kind: OutputKind, address: nat)
    ensures RightOf(OutputValue(kind, address)) == IssuedRight(kind, address)
  {
  }

  lemma IssueBalanced(w: World, issued: Option<Right>, v: Value, r: Right)
    requires RightOf(v) == issued
    ensures Unaccounted(AddValue(w.(issued := w.issued + RightSet(issued)), v), r) == Unaccounted(w, r)
  {
    AddValueBalance(w.(issued := w.issued + RightSet(issued)), v, r);
  }

  lemma StepBalanced(w: World, op: Op, r: Right)
    requires Sound(w) && Possible(w, op)
    ensures Unaccounted(Apply(w, op).0, r) == Unaccounted(w, r)
  {
    match op
    case Output(kind, address) =>
      ClassifiedAsIssued(kind, address);
      IssueBalanced(w, IssuedRight(kind, address), OutputValue(kind, address), r);
    case ObjectOutput(o, thread) =>
      IssueBalanced(w, Some(Right(o, ComRelease)), Value(Object(o), NoProvenance, None, Some(thread), Some(thread)), r);
    case AdoptCom(i, thread, cast, bound) => AdoptBalanced(w, i, thread, cast, bound, r);
    case AdoptCoTaskMem(i) => AdoptTaskBalanced(w, i, r);
    case TakeString(i, bstr) => TakeTextBalanced(w, i, bstr, r);
    case TakeHandle(i) => TakeHandleBalanced(w, i, r);
    case Release(i, thread, cleaned) => ReleaseBalanced(w, i, thread, cleaned, r);
    case Drop(i, thread, exited, cleaned) => DropBalanced(w, i, thread, exited, cleaned, r);
    case ReleaseHandle(h, cleaned) => HandleBalanced(w, h, cleaned, false, r);
    case DropHandle(h, cleaned) => HandleBalanced(w, h, cleaned, true, r);
  }

  lemma AddSound(w: World, v: Value)
    requires Sound(w) && OneRight(v)
    ensures Sound(AddValue(w, v))
  {
  }

  lemma SetSound(w: World, i: nat, v: Option<Value>)
    requires Sound(w) && i < |w.values| && (v.Some? ==> OneRight(v.value))
    ensures Sound(SetValue(w, i, v))
  {
  }

  lemma AdoptSound(w: World, i: nat, thread: ThreadId, cast: bool, bound: bool)
    requires Sound(w) && i < |w.values| && w.values[i].Some?
    ensures Sound(Adopt(w, i, thread, cast, bound).0)
  {
    var (left, pointer) := TakePointer(w.values[i].value, ComOutput);
    SetSound(w, i, Some(left.(apartment := None)));
    if pointer.Ok? && pointer.value != 0 {
      AddSound(SetValue(w, i, Some(left.(apartment := None))), Value(Object(pointer.value), NoProvenance, None, Some(thread), None));
    }
  }

  lemma AdoptTaskSound(w: World, i: nat)
    requires Sound(w) && i < |w.values| && w.values[i].Some?
    ensures Sound(AdoptTask(w, i).0)
  {
    var (left, pointer) := TakePointer(w.values[i].value, CoTaskMemOutput);
    SetSound(w, i, Some(left));
    AddSound(SetValue(w, i, Some(left)), NULL_VALUE);
    if pointer.Ok? && pointer.value != 0 {
      AddSound(SetValue(w, i, Some(left)), Value(RawPtr(pointer.value), Borrowed, Some(CoTaskMem(pointer.value)), None, None));
    }
  }

  lemma TakenSound(w: World, i: nat, expected: Provenance)
    requires Sound(w) && i < |w.values| && w.values[i].Some?
    ensures Sound(SetValue(w, i, Some(TakePointer(w.values[i].value, expected).0)))
  {
  }

  lemma StepSound(w: World, op: Op)
    requires Sound(w) && Possible(w, op)
    ensures Sound(Apply(w, op).0)
  {
    match op
    case Output(kind, address) => AddSound(w, OutputValue(kind, address));
    case ObjectOutput(o, thread) => AddSound(w, Value(Object(o), NoProvenance, None, Some(thread), Some(thread)));
    case AdoptCom(i, thread, cast, bound) => AdoptSound(w, i, thread, cast, bound);
    case AdoptCoTaskMem(i) => AdoptTaskSound(w, i);
    case TakeString(i, bstr) => TakenSound(w, i, if bstr then BstrOutput else CoTaskMemOutput);
    case TakeHandle(i) => TakenSound(w, i, HandleOutput);
    case Release(i, thread, cleaned) =>
      var released := ReleaseValue(w.values[i].value, thread, cleaned);
      SetSound(w, i, Some(released.0));
    case Drop(i, thread, exited, cleaned) => SetSound(w, i, None);
    case ReleaseHandle(_, _) =>
    case DropHandle(_, _) =>
  }

  function Run(w: World, ops: seq<Op>): (r: Option<World>)
    decreases |ops|
  {
    if ops == [] then Some(w)
    else if Possible(w, ops[0]) then Run(Apply(w, ops[0]).0, ops[1..])
    else None
  }

  lemma {:induction false} RunBalanced(w: World, ops: seq<Op>, r: Right)
    requires Sound(w) && Run(w, ops).Some?
    ensures Sound(Run(w, ops).value) && Unaccounted(Run(w, ops).value, r) == Unaccounted(w, r)
    decreases |ops|
  {
    if ops != [] {
      StepSound(w, ops[0]);
      StepBalanced(w, ops[0], r);
      RunBalanced(Apply(w, ops[0]).0, ops[1..], r);
    }
  }

  // ---- main results ----

  /**
   Over every sequence of outputs, takes, adoptions, releases and drops: each right the
   native side issued has been exercised by its own deallocator, leaked, or is held in one
   place; so nothing is freed more often than it was issued, nor by another deallocator.
   */
  lemma Linear(ops: seq<Op>, w: World, r: Right)
    requires Run(EMPTY_WORLD, ops) == Some(w)
    ensures w.issued[r] == w.freed[r] + w.leaked[r] + ValuesHolding(w.values, r) + HandlesHolding(w.handles, r)
    ensures w.freed[r] <= w.issued[r]
    ensures r !in w.issued ==> r !in w.freed
  {
    RunBalanced(EMPTY_WORLD, ops, r);
  }

  predicate IsOutput(w: World, i: nat, kind: OutputKind, address: nat) {
    i < |w.values| && w.values[i] == Some(OutputValue(kind, address))
  }

  /** Releasing or dropping an output, with working cleanup before exit, frees the right that was issued with it and nothing else. */
  lemma OutputFreedAsIssued(w: World, i: nat, kind: OutputKind, address: nat, thread: ThreadId)
    requires IsOutput(w, i, kind, address)
    ensures var (w', error) := Apply(w, Release(i, thread, true));
      error.None? && w'.values == w.values[i := Some(NULL_VALUE)] && w'.freed == w.freed + RightSet(IssuedRight(kind, address)) && w'.leaked == w.leaked
    ensures var w' := Apply(w, Drop(i, thread, false, true)).0;
      w'.values == w.values[i := None] && w'.freed == w.freed + RightSet(IssuedRight(kind, address)) && w'.leaked == w.leaked
  {
    var v := OutputValue(kind, address);
    ClassifiedAsIssued(kind, address);
    ReleaseExact(v, thread, true);
    DropExact(v, thread, false, true);
    assert w.leaked + multiset{} == w.leaked;
  }

  /** A non-null output can be adopted or taken as what it is, and as nothing else: every other operation refuses it unchanged. */
  lemma TakenByKind(w: World, i: nat, kind: OutputKind, address: nat, thread: ThreadId, cast: bool, bound: bool)
    requires IsOutput(w, i, kind, address) && address != 0
    ensures kind.ComKind? ==> (Apply(w, AdoptCom(i, thread, cast, bound)).1.None? <==> cast && bound)
    ensures !kind.ComKind? ==> Apply(w, AdoptCom(i, thread, cast, bound)) == (w, Some(WrongProvenance))
    ensures if kind.CoTaskMemKind? then Apply(w, AdoptCoTaskMem(i)).1.None? else Apply(w, AdoptCoTaskMem(i)) == (w, Some(WrongProvenance))
    ensures if kind.BstrKind? then Apply(w, TakeString(i, true)).1.None? else Apply(w, TakeString(i, true)) == (w, Some(WrongProvenance))
    ensures if kind.CoTaskMemKind? then Apply(w, TakeString(i, false)).1.None? else Apply(w, TakeString(i, false)) == (w, Some(WrongProvenance))
    ensures if kind.HandleKind? then Apply(w, TakeHandle(i)).1.None? else Apply(w, TakeHandle(i)) == (w, Some(WrongProvenance))
  {
  }

  /** Where the right goes when it is taken: into a managed object, an owner of the block, a handle, or it is exercised at once. */
  lemma TakenMovesIssued(w: World, i: nat, address: Block, thread: ThreadId)
    requires i < |w.values|
    ensures IsOutput(w, i, ComKind, address) ==>
      var w' := Apply(w, AdoptCom(i, thread, true, true)).0;
      w'.values == w.values[i := Some(NULL_VALUE)] + [Some(Value(Object(address), NoProvenance, None, Some(thread), None))] && w'.freed == w.freed
    ensures IsOutput(w, i, CoTaskMemKind, address) ==>
      var w' := Apply(w, AdoptCoTaskMem(i)).0;
      && w'.values == w.values[i := Some(NULL_VALUE)] + [Some(Value(RawPtr(address), Borrowed, Some(CoTaskMem(address)), None, None))]
      && w'.freed == w.freed
    ensures IsOutput(w, i, BstrKind, address) ==>
      var w' := Apply(w, TakeString(i, true)).0;
      w'.values == w.values[i := Some(NULL_VALUE)] && w'.freed == w.freed + multiset{Right(address, StringFree)}
    ensures IsOutput(w, i, CoTaskMemKind, address) ==>
      var w' := Apply(w, TakeString(i, false)).0;
      w'.values == w.values[i := Some(NULL_VALUE)] && w'.freed == w.freed + multiset{Right(address, TaskFree)}
    ensures IsOutput(w, i, HandleKind, address) ==>
      var w' := Apply(w, TakeHandle(i)).0;
      w'.values == w.values[i := Some(NULL_VALUE)] && w'.handles == w.handles + [Some(address)] && w'.freed == w.freed
  {
  }

  /** A drop on the owning apartment, before exit and with working cleanup, frees and leaks nothing. */
  predicate CleanOp(w: World, op: Op) {
    match op
    case Drop(i, thread, exited, cleaned) => i < |w.values| && w.values[i].Some? ==> !Foreign(w.values[i].value, thread) && !exited && cleaned
    case DropHandle(_, cleaned) => cleaned
    case _ => true
  }

  predicate CleanRun(w: World, ops: seq<Op>)
    decreases |ops|
  {
    ops != [] && Possible(w, ops[0]) ==> CleanOp(w, ops[0]) && CleanRun(Apply(w, ops[0]).0, ops[1..])
  }

  lemma {:induction false} CleanRunLeaksNothing(w: World, ops: seq<Op>)
    requires Sound(w) && CleanRun(w, ops) && Run(w, ops).Some?
    ensures Run(w, ops).value.leaked == w.leaked
    decreases |ops|
  {
    if ops != [] {
      var op := ops[0];
      StepSound(w, op);
      if op.Drop? { DropExact(w.values[op.v].value, op.thread, op.exited, op.cleaned); }
      assert w.leaked + multiset{} == w.leaked;
      CleanRunLeaksNothing(Apply(w, op).0, ops[1..]);
    }
  }

  predicate NothingHeld(w: World) {
    (forall i :: 0 <= i < |w.values| ==> HeldBy(w.values[i]).None?) && (forall h :: 0 <= h < |w.handles| ==> w.handles[h].None?)
  }

  /** After such a run, once no value or handle holds anything, every right was exercised exactly as often as issued. */
  lemma FreedExactlyOnce(ops: seq<Op>, w: World, r: Right)
    requires Run(EMPTY_WORLD, ops) == Some(w) && CleanRun(EMPTY_WORLD, ops) && NothingHeld(w)
    ensures w.freed[r] == w.issued[r]
  {
    Linear(ops, w, r);
    CleanRunLeaksNothing(EMPTY_WORLD, ops);
    NoValueHolds(w.values, r);
    CountPositive<Block>(w.handles, r.block);
  }

  lemma {:induction false} NoValueHolds(values: seq<Option<Value>>, r: Right)
    requires forall i :: 0 <= i < |values| ==> HeldBy(values[i]).None?
    ensures ValuesHolding(values, r) == 0
  {
    if values != [] { NoValueHolds(values[1..], r); }
  }

  /** A release that fails, off the apartment or because a handle cannot be closed, changes nothing: it can be retried. */
  lemma FailedReleaseChangesNothing(w: World, op: Op)
    requires Sound(w) && Possible(w, op) && (op.Release? || op.ReleaseHandle?) && Apply(w, op).1.Some?
    ensures Apply(w, op).0 == w
  {
    if op.Release? {
      ReleaseExact(w.values[op.v].value, op.thread, op.cleaned);
      assert w.freed + multiset{} == w.freed;
      assert w.values[op.v := w.values[op.v]] == w.values;
    }
  }

  /** An adopted CoTaskMem block, held as pointer and as owner, is freed once by release or drop, wherever it happens. */
  lemma AdoptedBlockFreedOnce(p: Block, thread: ThreadId, exited: bool, cleaned: bool)
    ensures var v := Value(RawPtr(p), Borrowed, Some(CoTaskMem(p)), None, None);
      && OneRight(v)
      && ReleaseValue(v, thread, cleaned) == (NULL_VALUE, Some(Right(p, TaskFree)), None)
      && DropValue(v, thread, exited, cleaned) == (Some(Right(p, TaskFree)), None)
      && DropValue(NULL_VALUE, thread, exited, cleaned) == (None, None)
  {
  }
}
