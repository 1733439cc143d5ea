/** Closing the lifecycle ends: whoever closes it empties the list before returning. */
module TsfnClosing {
  import opened Wrappers
  import opened ManagedTsfn
  import opened TsfnInvariant
  import opened TsfnSteps
  import opened TsfnTheorems

  /** The call that closed the lifecycle is about to empty the list until it has. */
  predicate CloserBusy(s: State) {
    s.closer.Some? && !s.drained ==> s.closer.value in s.acts && s.acts[s.closer.value] == Closing(CloseDrain, {})
  }

  /** The step leaves the closer and its list alone. */
  predicate Unclosed(s: State, s': State) {
    s'.open == s.open && s'.closer == s.closer && s'.drained == s.drained
  }

  lemma CallUnclosed(s: State, a: ActivationId, at: CallPoint, h: HandleId, p: PayloadId, answer: Answer)
    requires h in s.handles && p in s.payloads
    ensures Unclosed(s, ExecuteCall(s, a, at, h, p, answer))
  {
  }

  lemma DropUnclosed(s: State, a: ActivationId, at: DropPoint, h: HandleId)
    requires h in s.handles
    ensures Unclosed(s, ExecuteDrop(s, a, at, h))
  {
  }

  lemma CreateUnclosed(s: State, a: ActivationId, at: CreatePoint, h: HandleId, weak: bool, answer: Answer)
    requires h in s.handles
    ensures Unclosed(s, ExecuteCreate(s, a, at, h, weak, answer))
  {
  }

  lemma CloseBusy(s: State, a: ActivationId, at: ClosePoint, list: set<HandleId>, answer: Answer)
    requires Inv(s) && CloserBusy(s) && Ready(s, a) && s.acts[a] == Closing(at, list) && GoodAnswer(s, s.acts[a], answer)
    ensures at.CloseSwap? || at.CloseAbort? ==> at.h in s.handles
    ensures CloserBusy(ExecuteClose(s, a, at, list, answer))
  {
    assert ActOk(s, a);
  }

  lemma StepBusy(s: State, a: ActivationId, answer: Answer)
    requires Inv(s) && CloserBusy(s) && Ready(s, a) && GoodAnswer(s, s.acts[a], answer)
    ensures CloserBusy(Execute(s, a, answer))
  {
    StepContinues(s, a, answer);
    match s.acts[a]
    case Calling(at, h, p) => CallUnclosed(s, a, at, h, p, answer);
    case Dropping(at, h) => DropUnclosed(s, a, at, h);
    case Creating(at, h, weak) => CreateUnclosed(s, a, at, h, weak, answer);
    case Closing(at, list) => CloseBusy(s, a, at, list, answer);
  }

  lemma {:induction false} RunBusy(s: State, labels: seq<Label>)
    requires Inv(s) && CloserBusy(s) && Run(s, labels).Some?
    ensures CloserBusy(Run(s, labels).value)
    decreases |labels|
  {
    if labels != [] {
      LabelPreserves(s, labels[0]);
      if labels[0].Step? { StepBusy(s, labels[0].a, labels[0].answer); }
      RunBusy(Apply(s, labels[0]), labels[1..]);
    }
  }

  /** A call of close has closed the lifecycle, or found it closed, once it got past its flag. */
  predicate Closes(s: State, a: ActivationId) {
    !s.open || (a in s.acts && s.acts[a].Closing? && (s.acts[a].close.CloseLock? || s.acts[a].close.CloseFlag?))
  }

  lemma CloseCloses(s: State, a: ActivationId, at: ClosePoint, list: set<HandleId>, answer: Answer)
    requires (at.CloseSwap? || at.CloseAbort? ==> at.h in s.handles) && (at.CloseNext? && list != {} ==> answer.Pick?)
    ensures !s.open ==> !ExecuteClose(s, a, at, list, answer).open
    ensures at.CloseLock? || at.CloseFlag? ==> Closes(ExecuteClose(s, a, at, list, answer), a)
  {
  }

  lemma StepCloses(s: State, b: ActivationId, answer: Answer, a: ActivationId)
    requires Ready(s, b) && GoodAnswer(s, s.acts[b], answer) && Closes(s, a)
    ensures Closes(Execute(s, b, answer), a)
  {
    StepContinues(s, b, answer);
    match s.acts[b]
    case Calling(at, h, p) => CallUnclosed(s, b, at, h, p, answer);
    case Dropping(at, h) => DropUnclosed(s, b, at, h);
    case Creating(at, h, weak) => CreateUnclosed(s, b, at, h, weak, answer);
    case Closing(at, list) => CloseCloses(s, b, at, list, answer);
  }

  lemma {:induction false} RunCloses(s: State, labels: seq<Label>, a: ActivationId)
    requires Closes(s, a) && Run(s, labels).Some?
    ensures Closes(Run(s, labels).value, a)
    decreases |labels|
  {
    if labels != [] {
      if labels[0].Step? { StepCloses(s, labels[0].a, labels[0].answer, a); }
      RunCloses(Apply(s, labels[0]), labels[1..], a);
    }
  }

  lemma {:induction false} CloseBegins(s: State, labels: seq<Label>, l: Label)
    requires l in labels && l.Close? && Run(s, labels).Some?
    ensures Closes(Run(s, labels).value, l.a)
    decreases |labels|
  {
    if l == labels[0] { RunCloses(Apply(s, l), labels[1..], l.a); } else { CloseBegins(Apply(s, labels[0]), labels[1..], l); }
  }

  /** Once close was called and no call of it is at work, the list is empty and every function ever registered was given up exactly once. */
  lemma CloseEnds(labels: seq<Label>, s: State, l: Label)
    requires Reaches(labels, s) && l in labels && l.Close? && forall a :: a in s.acts ==> !s.acts[a].Closing?
    ensures !s.open && s.registered == {}
    ensures forall h :: h in s.handles && s.handles[h].registeredOnce ==> GivenUp(s.handles[h]) == 1 && !s.handles[h].raw
  {
    CloseBegins(INITIAL, labels, l);
    Reachable(labels, s);
    RunBusy(INITIAL, labels);
    forall h | h in s.handles && s.handles[h].registeredOnce ensures GivenUp(s.handles[h]) == 1 && !s.handles[h].raw {
      ClosedExactlyOnce(labels, s, h);
    }
  }
}
