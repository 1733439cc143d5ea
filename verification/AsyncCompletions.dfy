/** From the call of `complete` to the settled deferred: where a stored completion comes from, and where it ends up. */
module AsyncCompletions {
  import opened Wrappers
  import opened AsyncDispatcher
  import opened AsyncPromise
  import opened AsyncInvariant
  import opened AsyncReachable
  import opened AsyncProgress
  import opened AsyncBookkeeping
  import opened AsyncTheorems
  import opened AsyncEffects
  import opened AsyncAbandon
  import opened AsyncOutcomes

  // ---- what is stored was offered ----

  /** Some `complete` call of `labels` offers `r` for `p`. */
  predicate Offered(labels: seq<Label>, p: PromiseId, r: Completion) {
    exists l :: l in labels && l.Complete? && l.p == p && l.r == r
  }

  predicate Sourced(s: State, labels: seq<Label>) {
    && (forall p {:trigger s.promises[p]} :: p in s.promises && s.promises[p].first.Some? ==> Offered(labels, p, s.promises[p].first.value))
    && (forall a {:trigger s.acts[a]} :: a in s.acts && s.acts[a].pc.Completing? ==> Offered(labels, s.acts[a].pc.p, s.acts[a].pc.r))
  }

  /** Only the write under the result lock stores, and it stores what its caller offered. */
  lemma StepFirst(s: State, a: ActivationId, answer: Answer, p: PromiseId)
    requires Ready(s, a) && GoodAnswer(s.acts[a], answer) && p in s.promises
    ensures var s' := Execute(s, a, answer);
      && p in s'.promises
      && (|| s'.promises[p].first == s.promises[p].first
          || (s.acts[a].pc.Completing? && s.acts[a].pc.p == p && s'.promises[p].first == Some(s.acts[a].pc.r)))
  {
    if p in Mentions(s.acts[a].pc) { StepChanges(s, a, answer); } else { StepAlike(s, a, answer, p); }
  }

  lemma StepSourced(s: State, a: ActivationId, answer: Answer, labels: seq<Label>)
    requires Ready(s, a) && GoodAnswer(s.acts[a], answer) && Sourced(s, labels)
    ensures Sourced(Execute(s, a, answer), labels)
  {
    var s' := Execute(s, a, answer);
    StepMoves(s, a, answer);
    StepTransits(s, a, answer);
    StepKeys(s, a, answer);
    forall p | p in s'.promises && s'.promises[p].first.Some? ensures Offered(labels, p, s'.promises[p].first.value) {
      StepFirst(s, a, answer, p);
    }
  }

  lemma StartSourced(s: State, l: Label, labels: seq<Label>)
    requires Enabled(s, l) && !l.Step? && Sourced(s, labels) && l in labels
    ensures Sourced(Apply(s, l), labels)
  {
    var s' := Apply(s, l);
    forall p | p in s'.promises && s'.promises[p].first.Some? ensures Offered(labels, p, s'.promises[p].first.value) {
      if p in s.promises { StartAlike(s, l, p); }
    }
    forall a | a in s'.acts && s'.acts[a].pc.Completing? ensures Offered(labels, s'.acts[a].pc.p, s'.acts[a].pc.r) {
      StartFrame(s, l);
    }
  }

  lemma {:induction false} RunSourced(s: State, labels: seq<Label>, all: seq<Label>)
    requires Sourced(s, all) && Run(s, labels).Some? && forall l :: l in labels ==> l in all
    ensures Sourced(Run(s, labels).value, all)
    decreases |labels|
  {
    if labels != [] {
      if labels[0].Step? { StepSourced(s, labels[0].a, labels[0].answer, all); } else { StartSourced(s, labels[0], all); }
      RunSourced(Apply(s, labels[0]), labels[1..], all);
    }
  }

  /** The completion stored for a promise is one that a `complete` call of the run offered for that promise. */
  lemma StoredWasOffered(labels: seq<Label>, s: State, p: PromiseId)
    requires Reaches(labels, s) && p in s.promises && s.promises[p].first.Some?
    ensures Offered(labels, p, s.promises[p].first.value)
  {
    RunSourced(INITIAL, labels, labels);
  }

  // ---- what is offered first is stored ----

  predicate CompletesFor(s: State, a: ActivationId, p: PromiseId) {
    a in s.acts && s.acts[a].pc.Completing? && s.acts[a].pc.p == p
  }

  /** A completion is stored, or `a` is about to store one. */
  predicate Storing(s: State, a: ActivationId, p: PromiseId) {
    NotAbandoned(s, p) && (s.promises[p].first.None? ==> CompletesFor(s, a, p))
  }

  lemma CompleteGoesOn(s: State, a: ActivationId, at: CompletePoint, p: PromiseId, r: Completion)
    requires OpenAt(s, a) && p in s.promises && (at.CompleteLock? ==> s.promises[p].result.None? && !s.promises[p].settled)
    ensures at.CompleteWrite? || CompletesFor(ExecuteComplete(s, a, at, p, r), a, p)
    ensures ExecuteComplete(s, a, at, p, r).promises[p].fate == s.promises[p].fate
  {
  }

  lemma StepStoring(s: State, b: ActivationId, answer: Answer, a: ActivationId, p: PromiseId)
    requires Inv(s) && !s.d.closing && Unabandoned(s, p) && Ready(s, b) && GoodAnswer(s.acts[b], answer)
    requires !Rebuffs(s, Step(b, answer), p) && Storing(s, a, p) && NotAbandoned(Execute(s, b, answer), p)
    ensures Storing(Execute(s, b, answer), a, p)
  {
    assert PromiseOk(s, p);
    StepFirst(s, b, answer, p);
    LabelAdvances(s, Step(b, answer), p);
    if s.promises[p].first.None? {
      if b != a {
        StepMoves(s, b, answer);
      } else {
        CompleteGoesOn(s, a, s.acts[a].pc.complete, p, s.acts[a].pc.r);
        StepChanges(s, a, answer);
      }
    }
  }

  lemma StepNotAbandoned(s: State, b: ActivationId, answer: Answer, p: PromiseId)
    requires Inv(s) && !s.d.closing && Unabandoned(s, p) && Ready(s, b) && GoodAnswer(s.acts[b], answer) && NotAbandoned(s, p)
    ensures NotAbandoned(Execute(s, b, answer), p)
  {
    assert PromiseOk(s, p);
    if s.acts[b].pc == Deciding(SettleSwap, p) { SwapWins(s, b, p); } else { StepFate(s, b, answer, p); }
  }

  lemma LabelStoring(s: State, l: Label, a: ActivationId, p: PromiseId)
    requires Inv(s) && !s.d.closing && Unabandoned(s, p) && Enabled(s, l) && !Rebuffs(s, l, p) && Storing(s, a, p)
    ensures Storing(Apply(s, l), a, p)
  {
    if l.Step? {
      StepNotAbandoned(s, l.a, l.answer, p);
      StepStoring(s, l.a, l.answer, a, p);
    } else {
      StartFrame(s, l);
      StartAlike(s, l, p);
    }
  }

  lemma {:induction false} RunStoring(s: State, labels: seq<Label>, a: ActivationId, p: PromiseId)
    requires Inv(s) && Unabandoned(s, p) && Storing(s, a, p) && Spared(s, labels, p) && Run(s, labels).Some?
    requires !Run(s, labels).value.d.closing
    ensures Storing(Run(s, labels).value, a, p)
    decreases |labels|
  {
    if labels != [] {
      if s.d.closing { RunKeepsClosing(s, labels); }
      LabelPreserves(s, labels[0]);
      LabelUnabandoned(s, labels[0], p);
      LabelStoring(s, labels[0], a, p);
      RunStoring(Apply(s, labels[0]), labels[1..], a, p);
    }
  }

  /** Once a `complete` call has returned in an open environment, its promise has a stored completion. */
  lemma {:induction false} CompletedIsStored(s: State, labels: seq<Label>, l: Label)
    requires l in labels && l.Complete? && Inv(s) && Unabandoned(s, l.p) && Spared(s, labels, l.p)
    requires Run(s, labels).Some? && !Run(s, labels).value.d.closing
    ensures Storing(Run(s, labels).value, l.a, l.p)
    decreases |labels|
  {
    var u := Apply(s, labels[0]);
    if u.d.closing { RunKeepsClosing(u, labels[1..]); }
    LabelPreserves(s, labels[0]);
    LabelUnabandoned(s, labels[0], l.p);
    if l == labels[0] {
      RunStoring(u, labels[1..], l.a, l.p);
    } else {
      CompletedIsStored(u, labels[1..], l);
    }
  }

  // ---- what is stored settles the deferred ----

  /** The callback scope of the settlement of `p` cannot be opened, or its deferred gets something else or nothing. */
  predicate Denies(s: State, l: Label, p: PromiseId) {
    && l.Step? && l.a in s.acts && !l.answer.Success?
    && s.acts[l.a].pc.Settling? && s.acts[l.a].pc.p == p
    && (s.acts[l.a].pc.settle.SettleTake? || s.acts[l.a].pc.settle.SettleDeferred?)
  }

  predicate Granted(s: State, labels: seq<Label>, p: PromiseId)
    decreases |labels|
  {
    labels != [] && Enabled(s, labels[0]) ==> !Denies(s, labels[0], p) && Granted(Apply(s, labels[0]), labels[1..], p)
  }

  predicate DefersTo(act: Activation, p: PromiseId) {
    act.pc.Settling? && act.pc.settle.SettleDeferred? && act.pc.p == p
  }

  predicate Kept(pr: Promise) {
    pr.missed == 0 && (pr.outcome.Some? ==> pr.outcome == pr.first)
  }

  /** The deferred was used with the stored completion or not at all, and is about to be used with nothing else. */
  predicate Faithful(s: State, p: PromiseId) {
    && (p in s.promises ==> Kept(s.promises[p]))
    && (forall a {:trigger s.acts[a]} ::
          a in s.acts && p in s.promises && DefersTo(s.acts[a], p) ==> s.promises[p].first == Some(s.acts[a].pc.settle.c))
  }

  predicate SameDeferred(s: State, s': State, p: PromiseId) {
    p in s.promises && p in s'.promises && s'.promises[p].missed == s.promises[p].missed && s'.promises[p].outcome == s.promises[p].outcome
  }

  lemma StepDeferred(s: State, a: ActivationId, answer: Answer, p: PromiseId)
    requires Ready(s, a) && GoodAnswer(s.acts[a], answer) && p in s.promises && !(s.acts[a].pc.Settling? && s.acts[a].pc.p == p)
    ensures SameDeferred(s, Execute(s, a, answer), p)
  {
    if p in Mentions(s.acts[a].pc) { StepChanges(s, a, answer); } else { StepAlike(s, a, answer, p); }
  }

  lemma TakeFaithful(s: State, a: ActivationId, p: PromiseId, answer: Answer)
    requires a in s.acts && p in s.promises && answer.Success? && Kept(s.promises[p])
    requires s.promises[p].first.Some? && s.promises[p].result == s.promises[p].first
    ensures var s' := ExecuteSettle(s, a, SettleTake, p, answer);
      && p in s'.promises && Kept(s'.promises[p]) && s'.promises[p].first == s.promises[p].first
      && a in s'.acts && (DefersTo(s'.acts[a], p) ==> s'.promises[p].first == Some(s'.acts[a].pc.settle.c))
  {
  }

  lemma DeferFaithful(s: State, a: ActivationId, c: Completion, p: PromiseId, answer: Answer)
    requires a in s.acts && p in s.promises && answer.Success? && Kept(s.promises[p]) && s.promises[p].first == Some(c)
    ensures var s' := ExecuteSettle(s, a, SettleDeferred(c), p, answer);
      && p in s'.promises && Kept(s'.promises[p])
      && a in s'.acts && !DefersTo(s'.acts[a], p)
  {
  }

  lemma DisposeFaithful(s: State, a: ActivationId, at: SettlePoint, p: PromiseId, answer: Answer)
    requires a in s.acts && p in s.promises && (at.SettleDestroy? || at.SettleDelete?) && Kept(s.promises[p])
    ensures var s' := ExecuteSettle(s, a, at, p, answer);
      && p in s'.promises && Kept(s'.promises[p])
      && a in s'.acts && !DefersTo(s'.acts[a], p)
  {
  }

  /** A granted settlement takes the stored completion to the deferred. */
  lemma SettleFaithful(s: State, a: ActivationId, answer: Answer, p: PromiseId)
    requires Inv(s) && Faithful(s, p) && Ready(s, a) && GoodAnswer(s.acts[a], answer) && !Denies(s, Step(a, answer), p)
    requires s.acts[a].pc.Settling? && s.acts[a].pc.p == p
    ensures var s' := Execute(s, a, answer);
      && p in s'.promises && Kept(s'.promises[p])
      && a in s'.acts && (DefersTo(s'.acts[a], p) ==> s'.promises[p].first == Some(s'.acts[a].pc.settle.c))
  {
    assert ActOk(s, a);
    match s.acts[a].pc.settle
    case SettleTake => TakeFaithful(s, a, p, answer);
    case SettleDeferred(c) => DeferFaithful(s, a, c, p, answer);
    case SettleDestroy => DisposeFaithful(s, a, s.acts[a].pc.settle, p, answer);
    case SettleDelete => DisposeFaithful(s, a, s.acts[a].pc.settle, p, answer);
  }

  lemma StepFaithful(s: State, b: ActivationId, answer: Answer, p: PromiseId)
    requires Inv(s) && Faithful(s, p) && p in s.promises && Ready(s, b) && GoodAnswer(s.acts[b], answer) && !Denies(s, Step(b, answer), p)
    ensures Faithful(Execute(s, b, answer), p)
  {
    var s' := Execute(s, b, answer);
    assert PromiseOk(s, p) && ActOk(s, b);
    StepMoves(s, b, answer);
    StepTransits(s, b, answer);
    LabelAdvances(s, Step(b, answer), p);
    if s.acts[b].pc.Settling? && s.acts[b].pc.p == p {
      SettleFaithful(s, b, answer, p);
    } else {
      StepDeferred(s, b, answer, p);
    }
    forall a | a in s'.acts && DefersTo(s'.acts[a], p) ensures s'.promises[p].first == Some(s'.acts[a].pc.settle.c) {
      if a != b { assert ActOk(s, a); }
    }
  }

  lemma LabelFaithful(s: State, l: Label, p: PromiseId)
    requires Inv(s) && Faithful(s, p) && Enabled(s, l) && !Denies(s, l, p)
    ensures Faithful(Apply(s, l), p)
  {
    var s' := Apply(s, l);
    if l.Step? {
      StepKeys(s, l.a, l.answer);
      if p in s.promises { StepFaithful(s, l.a, l.answer, p); }
    } else {
      StartFrame(s, l);
      if p in s.promises {
        StartAlike(s, l, p);
      } else {
        Unknown(s, l, p);
      }
    }
  }

  /** A promise that was not created yet is mentioned nowhere. */
  lemma Unknown(s: State, l: Label, p: PromiseId)
    requires Inv(s) && p !in s.promises && Enabled(s, l) && !l.Step?
    ensures Faithful(Apply(s, l), p)
  {
    var s' := Apply(s, l);
    StartFrame(s, l);
    forall a | a in s'.acts ensures !DefersTo(s'.acts[a], p) {
      if a in s.acts { assert ActOk(s, a); }
    }
  }

  lemma {:induction false} RunFaithful(s: State, labels: seq<Label>, p: PromiseId)
    requires Inv(s) && Faithful(s, p) && Granted(s, labels, p) && Run(s, labels).Some?
    ensures Faithful(Run(s, labels).value, p)
    decreases |labels|
  {
    if labels != [] {
      LabelPreserves(s, labels[0]);
      LabelFaithful(s, labels[0], p);
      RunFaithful(Apply(s, labels[0]), labels[1..], p);
    }
  }

  /**
   If every settlement call of the promise is granted, a settled promise nobody works on
   has used its deferred once, with the completion that was stored first.
   */
  lemma SettledWithStored(labels: seq<Label>, s: State, p: PromiseId)
    requires Reaches(labels, s) && Granted(INITIAL, labels, p) && p in s.promises && s.promises[p].fate.Settled? && Unattended(s, p)
    ensures s.promises[p].deferred == 1 && s.promises[p].first.Some? && s.promises[p].outcome == s.promises[p].first
  {
    InitialInv();
    RunFaithful(INITIAL, labels, p);
    SettledOnce(labels, s, p);
    Reachable(labels, s);
    assert PromiseOk(s, p);
  }

  // ---- from end to end ----

  /** No call is in progress and no callback is waiting in the thread-safe function or for a drain. */
  predicate Quiescent(s: State) {
    s.acts == map[] && s.tsfn == {} && (s.d.queue.Some? ==> s.d.queue.value.pending == {})
  }

  /**
   The protocol delivers. In an open environment where no completion was dropped by an
   unregister or lost to a failed call, and no call of the promise was refused: when
   everything has come to rest, a promise whose `complete` was called is settled, its
   deferred was used exactly once, and with a completion offered for it.
   */
  lemma EveryCompletionDelivered(labels: seq<Label>, s: State, l: Label)
    requires Reaches(labels, s) && l in labels && l.Complete? && !s.d.closing && Quiescent(s)
    requires BenignRun(INITIAL, labels) && Spared(INITIAL, labels, l.p) && Granted(INITIAL, labels, l.p)
    ensures l.p in s.promises && s.promises[l.p].fate.Settled? && Finished(s.promises[l.p]) && s.promises[l.p].deferred == 1
    ensures s.promises[l.p].outcome.Some? && Offered(labels, l.p, s.promises[l.p].outcome.value)
  {
    InitialInv();
    CompletedIsStored(INITIAL, labels, l);
    Reachable(labels, s);
    assert PromiseOk(s, l.p);
    if s.promises[l.p].fate.Open? { NoCompletionLost(labels, s, l.p); }
    SettledWithStored(labels, s, l.p);
    StoredWasOffered(labels, s, l.p);
  }
}
