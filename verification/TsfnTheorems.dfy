/** What the managed thread-safe functions guarantee in every run. */
module TsfnTheorems {
  import opened Wrappers
  import opened ManagedTsfn
  import opened TsfnInvariant
  import opened TsfnSteps

  // ---- the labels that start an activation or belong to the native side ----

  lemma PayloadsKept(s: State, s': State)
    requires PayloadsOk(s) && s'.payloads == s.payloads
    ensures PayloadsOk(s')
  {
    forall p | p in s'.payloads ensures PayloadOk(s', p) { assert PayloadOk(s, p); }
  }

  lemma CreatePreserves(s: State, l: Label)
    requires Inv(s) && Enabled(s, l) && l.Create?
    ensures Inv(Apply(s, l))
  {
    var s' := Apply(s, l);
    PayloadsKept(s, s');
    Assemble(s, s', l.a, {l.h});
  }

  // A change of one handle that no activation makes.
  lemma HandlePreserves(s: State, h: HandleId, x: Handle)
    requires Inv(s) && h in s.handles && HandleKept(s, SetHandle(s, h, x), -1, h) && HandleOk(SetHandle(s, h, x), h)
    ensures Inv(SetHandle(s, h, x))
  {
    PayloadsKept(s, SetHandle(s, h, x));
    Assemble(s, SetHandle(s, h, x), -1, {h});
  }

  lemma ClonePreserves(s: State, l: Label)
    requires Inv(s) && Enabled(s, l) && l.Clone?
    ensures Inv(Apply(s, l))
  {
    HoldersAt(s, l.h);
    HandlePreserves(s, l.h, Apply(s, l).handles[l.h]);
  }

  lemma CallPreserves(s: State, l: Label)
    requires Inv(s) && Enabled(s, l) && l.Call?
    ensures Inv(Apply(s, l))
  {
    var s' := Apply(s, l);
    HoldersAt(s, l.h);
    forall p | p in s'.payloads ensures PayloadOk(s', p) {
      if p in s.payloads { assert PayloadOk(s, p); }
    }
    Assemble(s, s', l.a, {});
  }

  lemma DropOnePreserves(s: State, l: Label)
    requires Inv(s) && Enabled(s, l) && l.DropOwner? && s.handles[l.h].owners > 1
    ensures Inv(Apply(s, l))
  {
    HoldersAt(s, l.h);
    HandlePreserves(s, l.h, Apply(s, l).handles[l.h]);
  }

  lemma DropLastPreserves(s: State, l: Label)
    requires Inv(s) && Enabled(s, l) && l.DropOwner? && s.handles[l.h].owners == 1
    ensures Inv(Apply(s, l))
  {
    HoldersAt(s, l.h);
    PayloadsKept(s, Apply(s, l));
    Assemble(s, Apply(s, l), l.a, {l.h});
  }

  lemma ClosePreserves(s: State, l: Label)
    requires Inv(s) && Enabled(s, l) && l.Close?
    ensures Inv(Apply(s, l))
  {
    var s' := Apply(s, l);
    PayloadsKept(s, s');
    Assemble(s, s', l.a, {});
  }

  lemma NativePreserves(s: State, l: Label)
    requires Inv(s) && Enabled(s, l) && (l.NativeCloses? || l.Finalize?)
    ensures Inv(Apply(s, l))
  {
    HoldersAt(s, l.h);
    HandlePreserves(s, l.h, Apply(s, l).handles[l.h]);
  }

  lemma DeliverPreserves(s: State, l: Label)
    requires Inv(s) && Enabled(s, l) && l.Deliver?
    ensures Inv(Apply(s, l))
  {
    var s' := Apply(s, l);
    forall p | p in s'.payloads ensures PayloadOk(s', p) { assert PayloadOk(s, p); }
    Assemble(s, s', -1, {});
  }

  lemma StepPreserves(s: State, a: ActivationId, answer: Answer)
    requires Inv(s) && Ready(s, a) && GoodAnswer(s, s.acts[a], answer)
    ensures Inv(Execute(s, a, answer))
  {
    match s.acts[a]
    case Calling(at, h, p) => CallStep(s, a, at, h, p, answer);
    case Dropping(at, h) => DropStep(s, a, at, h);
    case Creating(at, h, weak) => CreateStep(s, a, at, h, weak, answer);
    case Closing(at, list) => CloseStep(s, a, at, list, answer);
  }

  lemma LabelPreserves(s: State, l: Label)
    requires Inv(s) && Enabled(s, l)
    ensures Inv(Apply(s, l))
  {
    match l
    case Create(_, _, _, _) => CreatePreserves(s, l);
    case Clone(_) => ClonePreserves(s, l);
    case Call(_, _, _) => CallPreserves(s, l);
    case DropOwner(h, _) => if s.handles[h].owners > 1 { DropOnePreserves(s, l); } else { DropLastPreserves(s, l); }
    case Close(_) => ClosePreserves(s, l);
    case NativeCloses(_) => NativePreserves(s, l);
    case Deliver(_) => DeliverPreserves(s, l);
    case Finalize(_) => NativePreserves(s, l);
    case Step(a, answer) => StepPreserves(s, a, answer);
  }

  lemma {:induction false} RunPreserves(s: State, labels: seq<Label>)
    requires Inv(s) && Run(s, labels).Some?
    ensures Inv(Run(s, labels).value)
    decreases |labels|
  {
    if labels != [] {
      LabelPreserves(s, labels[0]);
      RunPreserves(Apply(s, labels[0]), labels[1..]);
    }
  }

  predicate Reaches(labels: seq<Label>, s: State) {
    Run(INITIAL, labels) == Some(s)
  }

  lemma Reachable(labels: seq<Label>, s: State)
    requires Reaches(labels, s)
    ensures Inv(s)
  {
    RunPreserves(INITIAL, labels);
  }

  // ---- no native call on a released handle ----

  /**
   Whoever is about to call a native function does so while the lifecycle is open, and
   before the function was released or aborted; so only a `closing` answer to another
   caller can have given it up already.
   */
  lemma NoCallAfterRelease(labels: seq<Label>, s: State, a: ActivationId)
    requires Reaches(labels, s) && a in s.acts && s.acts[a].Calling? && s.acts[a].call.CallNative?
    ensures s.acts[a].h in s.handles
    ensures var x := s.handles[s.acts[a].h];
      && s.open && s.writer.None? && x.owners > 0 && x.releases == 0 && x.aborts == 0
      && (GivenUp(x) > 0 ==> x.consumed == 1)
  {
    Reachable(labels, s);
    assert ActOk(s, a);
    HoldersAt(s, s.acts[a].h);
  }

  /** A function is released, aborted or consumed by a `closing` answer at most once in all. */
  lemma GivenUpAtMostOnce(labels: seq<Label>, s: State, h: HandleId)
    requires Reaches(labels, s) && h in s.handles
    ensures GivenUp(s.handles[h]) <= 1
    ensures s.handles[h].raw ==> s.handles[h].releases + s.handles[h].aborts == 0
    ensures s.handles[h].late ==> s.handles[h].consumed == 1 && s.handles[h].releases + s.handles[h].aborts == 0
  {
    Reachable(labels, s);
    assert HandleOk(s, h);
  }

  /** The activation that closed the lifecycle has returned. */
  predicate CloseDone(s: State) {
    s.drained && s.closer.Some? && (s.closer.value in s.acts ==> !s.acts[s.closer.value].Closing?)
  }

  /** After close, the list is empty and every function ever registered has been given up exactly once. */
  lemma ClosedExactlyOnce(labels: seq<Label>, s: State, h: HandleId)
    requires Reaches(labels, s) && CloseDone(s)
    ensures s.registered == {}
    ensures h in s.handles && s.handles[h].registeredOnce ==> GivenUp(s.handles[h]) == 1 && !s.handles[h].raw
  {
    Reachable(labels, s);
    if h in s.handles { HoldersAt(s, h); }
  }

  lemma DrainedStep(s: State, l: Label)
    requires Inv(s) && Enabled(s, l) && s.drained
    ensures Apply(s, l).drained
  {
  }

  /** And it stays empty in every continuation. */
  lemma {:induction false} ListStaysEmpty(s: State, more: seq<Label>)
    requires Inv(s) && s.drained && Run(s, more).Some?
    ensures Run(s, more).value.drained && Run(s, more).value.registered == {}
    decreases |more|
  {
    if more != [] {
      LabelPreserves(s, more[0]);
      DrainedStep(s, more[0]);
      ListStaysEmpty(Apply(s, more[0]), more[1..]);
    }
  }

  // ---- what is never forgotten ----

  /** Refusals, `closing` answers and late calls stay on record; who is answered `closing` has the pointer to clear. */
  predicate Remembers(s: State, s': State, h: HandleId)
    requires h in s.handles
  {
    && h in s'.handles
    && (s.handles[h].refused ==> s'.handles[h].refused)
    && s.handles[h].consumed <= s'.handles[h].consumed
    && (s.handles[h].late ==> s'.handles[h].late)
    && (s'.handles[h].consumed == s.handles[h].consumed || s'.handles[h].storer.Some?)
  }

  lemma CallRemembers(s: State, a: ActivationId, at: CallPoint, h: HandleId, p: PayloadId, answer: Answer, x: HandleId)
    requires h in s.handles && p in s.payloads && x in s.handles
    ensures Remembers(s, ExecuteCall(s, a, at, h, p, answer), x)
  {
  }

  lemma DropRemembers(s: State, a: ActivationId, at: DropPoint, h: HandleId, x: HandleId)
    requires h in s.handles && x in s.handles
    ensures Remembers(s, ExecuteDrop(s, a, at, h), x)
  {
  }

  lemma CreateRemembers(s: State, a: ActivationId, at: CreatePoint, h: HandleId, weak: bool, answer: Answer, x: HandleId)
    requires h in s.handles && x in s.handles
    ensures Remembers(s, ExecuteCreate(s, a, at, h, weak, answer), x)
  {
  }

  lemma CloseRemembers(s: State, a: ActivationId, at: ClosePoint, list: set<HandleId>, answer: Answer, x: HandleId)
    requires (at.CloseSwap? || at.CloseAbort? ==> at.h in s.handles) && (at.CloseNext? && list != {} ==> answer.Pick?)
    requires x in s.handles
    ensures Remembers(s, ExecuteClose(s, a, at, list, answer), x)
  {
  }

  /** A step goes on with the call it is in, if any, leaves other activations where they are and makes no handle. */
  predicate Continues(s: State, s': State, a: ActivationId)
    requires a in s.acts
  {
    && SameOthers(s.acts, s'.acts, a) && s'.handles.Keys == s.handles.Keys
    && (a in s'.acts && s'.acts[a].Calling? ==> s.acts[a].Calling? && s'.acts[a].h == s.acts[a].h && s'.acts[a].p == s.acts[a].p)
    && (a in s'.acts && s'.acts[a].Creating? ==> s.acts[a].Creating? && s'.acts[a].h == s.acts[a].h)
  }

  lemma CallContinues(s: State, a: ActivationId, at: CallPoint, h: HandleId, p: PayloadId, answer: Answer)
    requires a in s.acts && s.acts[a] == Calling(at, h, p) && h in s.handles && p in s.payloads
    ensures Continues(s, ExecuteCall(s, a, at, h, p, answer), a)
  {
  }

  lemma DropContinues(s: State, a: ActivationId, at: DropPoint, h: HandleId)
    requires a in s.acts && s.acts[a] == Dropping(at, h) && h in s.handles
    ensures Continues(s, ExecuteDrop(s, a, at, h), a)
  {
  }

  lemma CreateContinues(s: State, a: ActivationId, at: CreatePoint, h: HandleId, weak: bool, answer: Answer)
    requires a in s.acts && s.acts[a] == Creating(at, h, weak) && h in s.handles
    ensures Continues(s, ExecuteCreate(s, a, at, h, weak, answer), a)
  {
  }

  lemma CloseContinues(s: State, a: ActivationId, at: ClosePoint, list: set<HandleId>, answer: Answer)
    requires (at.CloseSwap? || at.CloseAbort? ==> at.h in s.handles) && (at.CloseNext? && list != {} ==> answer.Pick?)
    requires a in s.acts
    ensures Continues(s, ExecuteClose(s, a, at, list, answer), a)
  {
  }

  lemma StepContinues(s: State, a: ActivationId, answer: Answer)
    requires Ready(s, a) && GoodAnswer(s, s.acts[a], answer)
    ensures Continues(s, Execute(s, a, answer), a)
  {
    match s.acts[a]
    case Calling(at, h, p) => CallContinues(s, a, at, h, p, answer);
    case Dropping(at, h) => DropContinues(s, a, at, h);
    case Creating(at, h, weak) => CreateContinues(s, a, at, h, weak, answer);
    case Closing(at, list) => CloseContinues(s, a, at, list, answer);
  }

  lemma Remembering(s: State, l: Label, x: HandleId)
    requires Enabled(s, l) && x in s.handles
    ensures Remembers(s, Apply(s, l), x)
  {
    if l.Step? {
      match s.acts[l.a]
      case Calling(at, h, p) => CallRemembers(s, l.a, at, h, p, l.answer, x);
      case Dropping(at, h) => DropRemembers(s, l.a, at, h, x);
      case Creating(at, h, weak) => CreateRemembers(s, l.a, at, h, weak, l.answer, x);
      case Closing(at, list) => CloseRemembers(s, l.a, at, list, l.answer, x);
    }
  }

  // ---- payloads and finalizers ----

  /** A payload is dropped exactly once: by the caller that was refused, or by its delivery. */
  lemma PayloadDroppedOnce(labels: seq<Label>, s: State, p: PayloadId)
    requires Reaches(labels, s) && p in s.payloads
    ensures s.payloads[p].drops <= 1
    ensures s.payloads[p].drops == 1 <==> s.payloads[p].state.Gone?
  {
    Reachable(labels, s);
    assert PayloadOk(s, p);
  }

  /** Creation has not tested yet whether the lifecycle is open. */
  predicate NotEntered(s: State, h: HandleId)
    requires h in s.handles
  {
    s.handles[h].creator in s.acts && Enters(s.acts[s.handles[h].creator], h)
  }

  /**
   A given finalizer has run exactly once when its context was made and has since been
   finalized or dropped. It has not run exactly when creation has not made the context yet,
   was refused because the lifecycle was closing, or the context is still alive.
   */
  lemma FinalizerRunsOnce(labels: seq<Label>, s: State, h: HandleId)
    requires Reaches(labels, s) && h in s.handles
    ensures var x := s.handles[h];
      && x.finalizerRuns <= 1
      && (x.hasFinalizer ==> (x.finalizerRuns == 1 <==> x.contextMade && !x.contextAlive))
      && (x.hasFinalizer ==> (x.finalizerRuns == 0 <==> NotEntered(s, h) || x.refused || x.contextAlive))
      && (x.refused ==> !s.open && !x.contextMade && !x.created && !x.registeredOnce)
      && (x.finalized ==> x.contextMade && !x.contextAlive && GivenUp(x) == 1 && !x.raw)
      && (!x.contextAlive && x.created ==> x.finalized)
  {
    Reachable(labels, s);
    assert HandleOk(s, h);
    if NotEntered(s, h) { assert ActOk(s, s.handles[h].creator); }
  }

  /** A finalizer that was dropped uncalled by a refused creation never runs, in any continuation. */
  lemma {:induction false} RefusedNeverFinalizes(s: State, more: seq<Label>, h: HandleId)
    requires Inv(s) && h in s.handles && s.handles[h].refused && Run(s, more).Some?
    ensures var s' := Run(s, more).value;
            h in s'.handles && s'.handles[h].refused && !s'.handles[h].contextMade && s'.handles[h].finalizerRuns == 0
    decreases |more|
  {
    assert HandleOk(s, h);
    if more != [] {
      LabelPreserves(s, more[0]);
      Remembering(s, more[0], h);
      RefusedNeverFinalizes(Apply(s, more[0]), more[1..], h);
    }
  }
}
