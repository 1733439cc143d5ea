/** What comes of a promise once a callback or a drain on the JS thread has taken it up. */
module AsyncOutcomes {
  import opened Wrappers
  import opened AsyncDispatcher
  import opened AsyncPromise
  import opened AsyncInvariant
  import opened AsyncReachable
  import opened AsyncProgress
  import opened AsyncBookkeeping
  import opened AsyncTheorems
  import opened AsyncEffects
  import opened AsyncAbandon

  /** Between the start of a callback for `p` and the swap that decides its fate. */
  predicate OnTheWay(s: State, a: ActivationId, p: PromiseId) {
    a in s.acts && (s.acts[a].pc.Calling? || s.acts[a].pc.Deciding?) && s.acts[a].pc.p == p
  }

  /** Drained on the JS thread, and still in the list to be settled there. */
  predicate Claims(s: State, a: ActivationId, p: PromiseId) {
    && a in s.acts
    && (|| (s.acts[a].k.DrainLoop? && s.acts[a].k.direct && p in s.acts[a].k.list)
        || (s.acts[a].onJs && s.acts[a].pc.Drained? && p in s.acts[a].pc.list))
  }

  predicate NotAbandoned(s: State, p: PromiseId) {
    p in s.promises && !s.promises[p].fate.Abandoned?
  }

  /** While `p` is open the callback `a` is on its way, and nobody else decides. */
  predicate Called(s: State, a: ActivationId, p: PromiseId) {
    && NotAbandoned(s, p)
    && (s.promises[p].fate.Open? ==> OnTheWay(s, a, p))
    && (s.promises[p].fate.Settled? ==> s.promises[p].winner == a)
  }

  /** While `p` is open the drain `a` has it on its list or is on its way. */
  predicate Undertaken(s: State, a: ActivationId, p: PromiseId) {
    NotAbandoned(s, p) && (s.promises[p].fate.Open? ==> OnTheWay(s, a, p) || Claims(s, a, p))
  }

  predicate SameFate(s: State, s': State, p: PromiseId) {
    p in s.promises && p in s'.promises && s'.promises[p].fate == s.promises[p].fate && s'.promises[p].winner == s.promises[p].winner
  }

  predicate Swaps(pc: Pc, p: PromiseId) {
    pc == Deciding(SettleSwap, p) || pc == Abandoning(AbandonSwap, p)
  }

  /** Only the two swaps decide. */
  lemma StepFate(s: State, a: ActivationId, answer: Answer, p: PromiseId)
    requires Ready(s, a) && GoodAnswer(s.acts[a], answer) && p in s.promises && !Swaps(s.acts[a].pc, p)
    ensures SameFate(s, Execute(s, a, answer), p)
  {
    if p in Mentions(s.acts[a].pc) { StepChanges(s, a, answer); } else { StepAlike(s, a, answer, p); }
  }

  // ---- the activation that has taken it up ----

  /** The swap is won while the promise is open. */
  lemma SwapWins(s: State, a: ActivationId, p: PromiseId)
    requires a in s.acts && p in s.promises && !s.promises[p].fate.Abandoned? && (s.promises[p].settled <==> !s.promises[p].fate.Open?)
    ensures var s' := ExecuteDecide(s, a, SettleSwap, p);
            p in s'.promises && s'.promises[p].fate.Settled? && (s.promises[p].fate.Open? ==> s'.promises[p].winner == a)
  {
  }

  lemma CallbackGoesOn(s: State, a: ActivationId, at: CallbackPoint, p: PromiseId, answer: Answer)
    requires OpenAt(s, a) && (at.ScopeOpen? ==> answer.Success?)
    ensures OnTheWay(ExecuteCallback(s, a, at, p, answer), a, p)
  {
  }

  lemma DecideGoesOn(s: State, a: ActivationId, at: DecidePoint, p: PromiseId)
    requires OpenAt(s, a) && p in s.promises && !at.SettleSwap?
    ensures OnTheWay(ExecuteDecide(s, a, at, p), a, p)
  {
  }

  /** In an open environment the callback goes on, up to the swap. */
  lemma WayGoesOn(s: State, a: ActivationId, answer: Answer, p: PromiseId)
    requires OpenAt(s, a) && Ready(s, a) && GoodAnswer(s.acts[a], answer) && OnTheWay(s, a, p)
    requires !Rebuffs(s, Step(a, answer), p) && s.acts[a].pc != Deciding(SettleSwap, p)
    ensures OnTheWay(Execute(s, a, answer), a, p)
  {
    match s.acts[a].pc
    case Calling(at, q) => CallbackGoesOn(s, a, at, q, answer);
    case Deciding(at, q) => DecideGoesOn(s, a, at, q);
  }

  lemma NextClaims(s: State, a: ActivationId, answer: Answer, p: PromiseId)
    requires a in s.acts && s.acts[a].pc.NextItem? && GoodAnswer(s.acts[a], answer) && Claims(s, a, p)
    ensures OnTheWay(ExecuteNext(s, a, answer), a, p) || Claims(ExecuteNext(s, a, answer), a, p)
  {
  }

  /** In an open environment what was drained on the JS thread stays on the list until its turn. */
  lemma ClaimGoesOn(s: State, a: ActivationId, answer: Answer, p: PromiseId)
    requires OpenAt(s, a) && Ready(s, a) && GoodAnswer(s.acts[a], answer) && Claims(s, a, p) && ActOk(s, a)
    ensures OnTheWay(Execute(s, a, answer), a, p) || Claims(Execute(s, a, answer), a, p)
  {
    if s.acts[a].pc.NextItem? {
      NextClaims(s, a, answer, p);
    } else if !Promiseless(s.acts[a].pc) {
      PromiseSteady(s, a, answer);
    }
  }

  lemma OwnStep(s: State, a: ActivationId, answer: Answer, p: PromiseId)
    requires Inv(s) && !s.d.closing && Ready(s, a) && GoodAnswer(s.acts[a], answer) && !Rebuffs(s, Step(a, answer), p)
    requires Undertaken(s, a, p) && s.promises[p].fate.Open? && !Abandons(s.acts[a].pc, p)
    ensures Undertaken(Execute(s, a, answer), a, p)
    ensures OnTheWay(s, a, p) ==> Called(Execute(s, a, answer), a, p)
  {
    assert PromiseOk(s, p) && ActOk(s, a);
    if s.acts[a].pc == Deciding(SettleSwap, p) {
      SwapWins(s, a, p);
    } else {
      StepFate(s, a, answer, p);
      if OnTheWay(s, a, p) { WayGoesOn(s, a, answer, p); } else { ClaimGoesOn(s, a, answer, p); }
    }
  }

  /** While a callback is on its way no other activation of the JS thread takes a step. */
  lemma WayIsAlone(s: State, b: ActivationId, a: ActivationId, p: PromiseId)
    requires Inv(s) && Ready(s, b) && s.acts[b].onJs && b != a
    ensures !OnTheWay(s, a, p)
  {
    if a in s.acts { assert ActOk(s, a) && (s.acts[a].onJs ==> Parked(s.acts[a])); }
  }

  /** Another activation leaves it to `a`, or settles the promise itself. */
  lemma OthersStep(s: State, b: ActivationId, answer: Answer, a: ActivationId, p: PromiseId)
    requires Inv(s) && Ready(s, b) && GoodAnswer(s.acts[b], answer) && b != a && !Abandons(s.acts[b].pc, p)
    requires Undertaken(s, a, p) && s.promises[p].fate.Open?
    ensures Undertaken(Execute(s, b, answer), a, p)
    ensures Called(s, a, p) ==> Called(Execute(s, b, answer), a, p)
  {
    assert ActOk(s, b) && PromiseOk(s, p);
    if s.acts[b].pc != Deciding(SettleSwap, p) {
      StepMoves(s, b, answer);
      StepFate(s, b, answer, p);
    } else {
      WayIsAlone(s, b, a, p);
      SwapWins(s, b, p);
    }
  }

  lemma StepUndertaken(s: State, b: ActivationId, answer: Answer, a: ActivationId, p: PromiseId)
    requires Inv(s) && !s.d.closing && Unabandoned(s, p) && Ready(s, b) && GoodAnswer(s.acts[b], answer)
    requires !Rebuffs(s, Step(b, answer), p) && Undertaken(s, a, p)
    ensures Undertaken(Execute(s, b, answer), a, p)
    ensures Called(s, a, p) ==> Called(Execute(s, b, answer), a, p)
  {
    if !s.promises[p].fate.Open? {
      LabelAdvances(s, Step(b, answer), p);
    } else if b == a {
      OwnStep(s, a, answer, p);
    } else {
      OthersStep(s, b, answer, a, p);
    }
  }

  lemma LabelUndertaken(s: State, l: Label, a: ActivationId, p: PromiseId)
    requires Inv(s) && !s.d.closing && Unabandoned(s, p) && Enabled(s, l) && !Rebuffs(s, l, p) && Undertaken(s, a, p)
    ensures Undertaken(Apply(s, l), a, p)
    ensures Called(s, a, p) ==> Called(Apply(s, l), a, p)
  {
    if l.Step? {
      StepUndertaken(s, l.a, l.answer, a, p);
    } else {
      StartFrame(s, l);
      StartAlike(s, l, p);
    }
  }

  lemma LabelKeepsClosing(s: State, l: Label)
    requires Enabled(s, l) && s.d.closing
    ensures Apply(s, l).d.closing
  {
    if l.Step? { StepKeepsClosing(s, l.a, l.answer); } else { StartFrame(s, l); }
  }

  lemma {:induction false} RunKeepsClosing(s: State, labels: seq<Label>)
    requires s.d.closing && Run(s, labels).Some?
    ensures Run(s, labels).value.d.closing
    decreases |labels|
  {
    if labels != [] {
      LabelKeepsClosing(s, labels[0]);
      RunKeepsClosing(Apply(s, labels[0]), labels[1..]);
    }
  }

  lemma {:induction false} RunUndertaken(s: State, labels: seq<Label>, a: ActivationId, p: PromiseId)
    requires Inv(s) && Unabandoned(s, p) && Undertaken(s, a, p) && Spared(s, labels, p) && Run(s, labels).Some?
    requires !Run(s, labels).value.d.closing
    ensures Undertaken(Run(s, labels).value, a, p)
    ensures Called(s, a, p) ==> Called(Run(s, labels).value, a, p)
    decreases |labels|
  {
    if labels != [] {
      if s.d.closing { RunKeepsClosing(s, labels); }
      LabelPreserves(s, labels[0]);
      LabelUnabandoned(s, labels[0], p);
      LabelUndertaken(s, labels[0], a, p);
      RunUndertaken(Apply(s, labels[0]), labels[1..], a, p);
    }
  }

  // ---- what a caller sees ----

  lemma SparedPromise(labels: seq<Label>, s: State, p: PromiseId)
    requires Reaches(labels, s) && Spared(INITIAL, labels, p)
    ensures Inv(s) && Unabandoned(s, p)
  {
    InitialInv();
    RunUnabandoned(INITIAL, labels, p);
    Reachable(labels, s);
  }

  /**
   The callback of an open promise, from a DispatcherQueue or from the thread-safe
   function, has run to its return by the time the environment is still open, and none of
   the promise's calls was refused: it settled the promise, and it used the deferred, the
   async context and the resource reference once each.
   */
  lemma CallbackSettles(before: seq<Label>, s: State, l: Label, after: seq<Label>, t: State)
    requires Reaches(before, s) && (l.QueueCallback? || l.TsfnCallback?) && Enabled(s, l)
    requires Run(Apply(s, l), after) == Some(t) && !t.d.closing && l.a !in t.acts
    requires Spared(INITIAL, before, l.p) && Spared(Apply(s, l), after, l.p)
    ensures l.p in s.promises && l.p in t.promises && t.promises[l.p].fate.Settled?
    ensures s.promises[l.p].fate.Open? ==> t.promises[l.p].winner == l.a && Finished(t.promises[l.p])
  {
    var u := Apply(s, l);
    SparedPromise(before, s, l.p);
    if u.d.closing { RunKeepsClosing(u, after); }
    LabelPreserves(s, l);
    LabelUnabandoned(s, l, l.p);
    RunUndertaken(u, after, l.a, l.p);
    RunPreserves(u, after);
    assert PromiseOk(t, l.p);
    if !s.promises[l.p].fate.Open? { HistoryStays(u, after, l.p); }
  }

  /**
   A drain on the JS thread of an open environment settles every completion it took from
   the shadow map by the time it returns, or JavaScript that ran meanwhile has.
   */
  lemma DrainSettles(before: seq<Label>, s: State, a: ActivationId, answer: Answer, after: seq<Label>, t: State, p: PromiseId)
    requires Reaches(before, s) && Ready(s, a) && s.acts[a].pc.Draining? && s.acts[a].onJs && s.d.Shadows(p)
    requires Run(Execute(s, a, answer), after) == Some(t) && !t.d.closing && a !in t.acts
    requires Spared(INITIAL, before, p) && Spared(Execute(s, a, answer), after, p)
    ensures p in t.promises && t.promises[p].fate.Settled? && (Unattended(t, p) ==> Finished(t.promises[p]))
  {
    var l, u := Step(a, answer), Execute(s, a, answer);
    SparedPromise(before, s, p);
    assert ActOk(s, a);
    if u.d.closing { RunKeepsClosing(u, after); }
    LabelPreserves(s, l);
    LabelUnabandoned(s, l, p);
    RunUndertaken(u, after, a, p);
    RunPreserves(u, after);
    assert PromiseOk(t, p);
    var w := t.promises[p].winner;
    if w in t.acts { assert ActOk(t, w); }
  }
}
