/** How the creation of a thread-safe function ends, told by what the run answered it. */
module TsfnCreation {
  import opened Wrappers
  import opened ManagedTsfn
  import opened TsfnInvariant
  import opened TsfnSteps
  import opened TsfnTheorems

  /** Nothing went wrong, the lifecycle was closed, a native call failed, or a weak function could not be unreferenced. */
  datatype Outcome = Fine | Closed | NativeFailed | UnrefFailed

  predicate CreatesAt(s: State, l: Label, h: HandleId) {
    l.Step? && l.a in s.acts && s.acts[l.a].Creating? && s.acts[l.a].h == h
  }

  function Observe(s: State, l: Label, h: HandleId, weak: bool, e: Outcome): Outcome {
    if !CreatesAt(s, l, h) then e
    else
      var at := s.acts[l.a].create;
      if at.CreateLock? && !s.open then Closed
      else if (at.CreateName? || at.CreateNative?) && !l.answer.Success? then NativeFailed
      else if at.CreateUnref? && weak && l.answer.Failed? then UnrefFailed
      else e
  }

  function Observed(s: State, labels: seq<Label>, h: HandleId, weak: bool, e: Outcome): Outcome
    decreases |labels|
  {
    if labels == [] || !Enabled(s, labels[0]) then e
    else Observed(Apply(s, labels[0]), labels[1..], h, weak, Observe(s, labels[0], h, weak, e))
  }

  /** What creation leaves behind. */
  predicate Leaves(x: Handle, e: Outcome) {
    match e
    case Fine => x.created && x.registeredOnce && !x.refused
    case Closed => x.refused && !x.created && !x.registeredOnce
    case NativeFailed => !x.refused && !x.created && !x.registeredOnce
    case UnrefFailed => !x.refused && x.created && !x.registeredOnce && x.aborts >= 1
  }

  predicate Underway(x: Handle, at: CreatePoint, e: Outcome) {
    && !x.refused
    && match at
       case CreateLock => e.Fine? && !x.created && !x.registeredOnce
       case CreateName => e.Fine? && !x.created && !x.registeredOnce
       case CreateNative => e.Fine? && !x.created && !x.registeredOnce
       case CreateUnref => e.Fine? && x.created && !x.registeredOnce
       case CreateRegister => e.Fine? && x.created && !x.registeredOnce
       case CreateSwap => e.UnrefFailed? && x.created && !x.registeredOnce
       case CreateAbort => e.UnrefFailed? && x.created && !x.registeredOnce
       case CreateUnlock => Leaves(x, e)
  }

  predicate BeingCreated(s: State, a: ActivationId, h: HandleId) {
    a in s.acts && s.acts[a].Creating? && s.acts[a].h == h
  }

  predicate Tells(s: State, a: ActivationId, h: HandleId, weak: bool, e: Outcome) {
    && h in s.handles && s.handles[h].creator == a
    && (BeingCreated(s, a, h) ==> s.acts[a].weak == weak && Underway(s.handles[h], s.acts[a].create, e))
    && (!BeingCreated(s, a, h) ==> Leaves(s.handles[h], e))
  }

  lemma CreateTells(s: State, a: ActivationId, at: CreatePoint, h: HandleId, weak: bool, answer: Answer, e: Outcome)
    requires Inv(s) && a in s.acts && s.acts[a] == Creating(at, h, weak) && GoodAnswer(s, s.acts[a], answer) && Tells(s, a, h, weak, e)
    ensures Tells(ExecuteCreate(s, a, at, h, weak, answer), a, h, weak, Observe(s, Step(a, answer), h, weak, e))
  {
    assert ActOk(s, a) && HandleOk(s, h);
  }

  /** What other activations leave alone. */
  predicate Spares(s: State, s': State, h: HandleId)
    requires h in s.handles
  {
    && h in s'.handles && s'.handles[h].creator == s.handles[h].creator && s'.handles[h].created == s.handles[h].created
    && s'.handles[h].registeredOnce == s.handles[h].registeredOnce && s'.handles[h].refused == s.handles[h].refused
    && s'.handles[h].aborts >= s.handles[h].aborts
  }

  lemma CallSpares(s: State, a: ActivationId, at: CallPoint, x: HandleId, p: PayloadId, answer: Answer, h: HandleId)
    requires x in s.handles && p in s.payloads && h in s.handles
    ensures Spares(s, ExecuteCall(s, a, at, x, p, answer), h)
  {
  }

  lemma DropSparesOthers(s: State, a: ActivationId, at: DropPoint, x: HandleId, h: HandleId)
    requires x in s.handles && h in s.handles && x != h
    ensures Spares(s, ExecuteDrop(s, a, at, x), h)
  {
  }

  lemma UnlistSparesOwn(s: State, a: ActivationId, at: DropPoint, h: HandleId)
    requires h in s.handles && (at.DropLock? || at.DropUnregister? || at.DropUnlock?)
    ensures Spares(s, ExecuteDrop(s, a, at, h), h)
  {
  }

  lemma SwapSparesOwn(s: State, a: ActivationId, h: HandleId)
    requires h in s.handles
    ensures Spares(s, ExecuteDrop(s, a, DropSwap, h), h)
  {
    var s', x := ExecuteDrop(s, a, DropSwap, h), s.handles[h];
    assert s'.handles[h] == if x.raw then x.(raw := false, swapper := Some(a)) else x.(taker := None);
  }

  lemma ReleaseSparesOwn(s: State, a: ActivationId, h: HandleId)
    requires h in s.handles
    ensures Spares(s, ExecuteDrop(s, a, DropRelease, h), h)
  {
    var s', x := ExecuteDrop(s, a, DropRelease, h), s.handles[h];
    assert s'.handles[h] == x.(releases := x.releases + 1, swapper := None, taker := None);
  }

  lemma DropSpares(s: State, a: ActivationId, at: DropPoint, x: HandleId, h: HandleId)
    requires x in s.handles && h in s.handles
    ensures Spares(s, ExecuteDrop(s, a, at, x), h)
  {
    if x != h { DropSparesOthers(s, a, at, x, h); }
    else if at.DropSwap? { SwapSparesOwn(s, a, h); }
    else if at.DropRelease? { ReleaseSparesOwn(s, a, h); }
    else { UnlistSparesOwn(s, a, at, h); }
  }

  lemma CreateSpares(s: State, a: ActivationId, at: CreatePoint, x: HandleId, weak: bool, answer: Answer, h: HandleId)
    requires x in s.handles && h in s.handles && x != h
    ensures Spares(s, ExecuteCreate(s, a, at, x, weak, answer), h)
  {
  }

  lemma CloseSpares(s: State, a: ActivationId, at: ClosePoint, list: set<HandleId>, answer: Answer, h: HandleId)
    requires (at.CloseSwap? || at.CloseAbort? ==> at.h in s.handles) && (at.CloseNext? && list != {} ==> answer.Pick?)
    requires h in s.handles
    ensures Spares(s, ExecuteClose(s, a, at, list, answer), h)
  {
  }

  lemma StepSpares(s: State, b: ActivationId, answer: Answer, h: HandleId)
    requires Ready(s, b) && GoodAnswer(s, s.acts[b], answer) && h in s.handles && !CreatesAt(s, Step(b, answer), h)
    ensures Spares(s, Execute(s, b, answer), h)
  {
    match s.acts[b]
    case Calling(at, x, p) => CallSpares(s, b, at, x, p, answer, h);
    case Dropping(at, x) => DropSpares(s, b, at, x, h);
    case Creating(at, x, weak) => CreateSpares(s, b, at, x, weak, answer, h);
    case Closing(at, list) => CloseSpares(s, b, at, list, answer, h);
  }

  lemma OtherTells(s: State, b: ActivationId, answer: Answer, a: ActivationId, h: HandleId, weak: bool, e: Outcome)
    requires Inv(s) && Ready(s, b) && GoodAnswer(s, s.acts[b], answer) && Tells(s, a, h, weak, e) && !CreatesAt(s, Step(b, answer), h)
    ensures Tells(Execute(s, b, answer), a, h, weak, e)
  {
    StepSpares(s, b, answer, h);
    StepContinues(s, b, answer);
  }

  lemma StartSpares(s: State, l: Label, h: HandleId)
    requires Enabled(s, l) && !l.Step? && h in s.handles
    ensures Spares(s, Apply(s, l), h)
  {
    match l
    case DropOwner(x, a) => assert Apply(s, l).handles.Keys == s.handles.Keys;
    case Finalize(x) => assert Apply(s, l).handles.Keys == s.handles.Keys;
    case _ =>
  }

  lemma StartTells(s: State, l: Label, a: ActivationId, h: HandleId, weak: bool, e: Outcome)
    requires Enabled(s, l) && !l.Step? && Tells(s, a, h, weak, e)
    ensures Tells(Apply(s, l), a, h, weak, e)
  {
    StartSpares(s, l, h);
    assert BeingCreated(Apply(s, l), a, h) <==> BeingCreated(s, a, h);
  }

  lemma LabelTells(s: State, l: Label, a: ActivationId, h: HandleId, weak: bool, e: Outcome)
    requires Inv(s) && Enabled(s, l) && Tells(s, a, h, weak, e)
    ensures Tells(Apply(s, l), a, h, weak, Observe(s, l, h, weak, e))
  {
    if CreatesAt(s, l, h) {
      assert ActOk(s, l.a);
      CreateTells(s, a, s.acts[a].create, h, weak, l.answer, e);
    } else if l.Step? {
      OtherTells(s, l.a, l.answer, a, h, weak, e);
    } else {
      StartTells(s, l, a, h, weak, e);
    }
  }

  lemma {:induction false} RunTells(s: State, labels: seq<Label>, a: ActivationId, h: HandleId, weak: bool, e: Outcome)
    requires Inv(s) && Run(s, labels).Some? && Tells(s, a, h, weak, e)
    ensures Tells(Run(s, labels).value, a, h, weak, Observed(s, labels, h, weak, e))
    decreases |labels|
  {
    if labels != [] {
      LabelPreserves(s, labels[0]);
      LabelTells(s, labels[0], a, h, weak, e);
      RunTells(Apply(s, labels[0]), labels[1..], a, h, weak, Observe(s, labels[0], h, weak, e));
    }
  }

  /**
   When the creating call has returned: a function that was refused or whose native creation
   failed does not exist, one that had to be weak and could not be unreferenced exists and
   was aborted unregistered, and in every other case the function exists and was registered.
   */
  lemma CreationFate(before: seq<Label>, s: State, l: Label, after: seq<Label>, s': State)
    requires Reaches(before, s) && l.Create? && Enabled(s, l) && Run(Apply(s, l), after) == Some(s') && !BeingCreated(s', l.a, l.h)
    ensures l.h in s'.handles && Leaves(s'.handles[l.h], Observed(Apply(s, l), after, l.h, l.weak, Fine))
    ensures var x := s'.handles[l.h]; (x.created && !x.registeredOnce ==> GivenUp(x) == 1 && x.releases == 0 && !x.raw)
  {
    var u := Apply(s, l);
    Reachable(before, s);
    LabelPreserves(s, l);
    RunTells(u, after, l.a, l.h, l.weak, Fine);
    RunPreserves(u, after);
    assert HandleOk(s', l.h);
  }
}
