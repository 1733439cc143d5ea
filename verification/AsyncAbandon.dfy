/**
 When a promise is abandoned: only once cleanup has begun, or after the queue callback could
 not open its handle scope, or after the thread-safe function answered that it is closing.
 */
module AsyncAbandon {
  import opened Wrappers
  import opened AsyncDispatcher
  import opened AsyncPromise
  import opened AsyncInvariant
  import opened AsyncReachable
  import opened AsyncProgress
  import opened AsyncBookkeeping
  import opened AsyncTheorems
  import opened AsyncEffects

  /** No handle scope for the callback of `p`, or `napi_closing` for its fallback. */
  predicate Rebuffs(s: State, l: Label, p: PromiseId) {
    && l.Step? && l.a in s.acts
    && (|| (s.acts[l.a].pc == Calling(ScopeOpen, p) && !l.answer.Success?)
        || (s.acts[l.a].pc == Falling(FallbackCall, p) && l.answer.Closing?))
  }

  /** No call made for `p` is answered that way. */
  predicate Spared(s: State, labels: seq<Label>, p: PromiseId)
    decreases |labels|
  {
    labels != [] && Enabled(s, labels[0]) ==> !Rebuffs(s, labels[0], p) && Spared(Apply(s, labels[0]), labels[1..], p)
  }

  predicate Abandons(pc: Pc, p: PromiseId) {
    pc.Abandoning? && pc.p == p
  }

  /** While the environment is open the promise is not abandoned, and nobody is about to. */
  predicate Unabandoned(s: State, p: PromiseId) {
    !s.d.closing ==>
      && (p in s.promises ==> !s.promises[p].fate.Abandoned?)
      && (forall a {:trigger s.acts[a]} :: a in s.acts ==> !Abandons(s.acts[a].pc, p))
  }

  /** The step does not abandon `p`, goes nowhere where it would, and does not begin cleanup. */
  predicate Forward(s: State, s': State, a: ActivationId, p: PromiseId) {
    && (a in s'.acts ==> !Abandons(s'.acts[a].pc, p) && !s'.acts[a].pc.Cleaning?)
    && (p in s'.promises && s'.promises[p].fate.Abandoned? ==> p in s.promises && s.promises[p].fate.Abandoned?)
  }

  predicate OpenAt(s: State, a: ActivationId) {
    a in s.acts && !s.d.closing && s.alive
  }

  lemma CompleteForward(s: State, a: ActivationId, at: CompletePoint, q: PromiseId, r: Completion, p: PromiseId)
    requires OpenAt(s, a) && q in s.promises
    ensures Forward(s, ExecuteComplete(s, a, at, q, r), a, p)
  {
  }

  lemma RouteForward(s: State, a: ActivationId, at: RoutePoint, q: PromiseId, answer: Answer, p: PromiseId)
    requires OpenAt(s, a)
    ensures Forward(s, ExecuteRoute(s, a, at, q, answer), a, p)
  {
  }

  lemma FallbackForward(s: State, a: ActivationId, at: FallbackPoint, q: PromiseId, answer: Answer, p: PromiseId)
    requires OpenAt(s, a) && q in s.promises && !(q == p && at.FallbackCall? && answer.Closing?)
    ensures Forward(s, ExecuteFallback(s, a, at, q, answer), a, p)
  {
  }

  lemma AbandonForward(s: State, a: ActivationId, at: AbandonPoint, q: PromiseId, p: PromiseId)
    requires OpenAt(s, a) && q in s.promises && q != p
    ensures Forward(s, ExecuteAbandon(s, a, at, q), a, p)
  {
  }

  lemma CallbackForward(s: State, a: ActivationId, at: CallbackPoint, q: PromiseId, answer: Answer, p: PromiseId)
    requires OpenAt(s, a) && !(q == p && at.ScopeOpen? && !answer.Success?)
    ensures Forward(s, ExecuteCallback(s, a, at, q, answer), a, p)
  {
  }

  lemma DecideForward(s: State, a: ActivationId, at: DecidePoint, q: PromiseId, p: PromiseId)
    requires OpenAt(s, a) && q in s.promises
    ensures Forward(s, ExecuteDecide(s, a, at, q), a, p)
  {
  }

  lemma SettleForward(s: State, a: ActivationId, at: SettlePoint, q: PromiseId, answer: Answer, p: PromiseId)
    requires OpenAt(s, a) && q in s.promises
    ensures Forward(s, ExecuteSettle(s, a, at, q, answer), a, p)
  {
  }

  lemma RegisterForward(s: State, a: ActivationId, at: RegisterPoint, q: PromiseId, answer: Answer, p: PromiseId)
    requires OpenAt(s, a) && q in s.promises
    ensures Forward(s, ExecuteRegister(s, a, at, q, answer), a, p)
  {
  }

  lemma PromiseForward(s: State, a: ActivationId, answer: Answer, p: PromiseId)
    requires Ready(s, a) && GoodAnswer(s.acts[a], answer) && !Promiseless(s.acts[a].pc) && OpenAt(s, a)
    requires !Rebuffs(s, Step(a, answer), p) && !Abandons(s.acts[a].pc, p)
    ensures Forward(s, Execute(s, a, answer), a, p)
  {
    match s.acts[a].pc
    case Completing(at, q, r) => CompleteForward(s, a, at, q, r, p);
    case Routing(at, q) => RouteForward(s, a, at, q, answer, p);
    case Falling(at, q) => FallbackForward(s, a, at, q, answer, p);
    case Abandoning(at, q) => AbandonForward(s, a, at, q, p);
    case Calling(at, q) => CallbackForward(s, a, at, q, answer, p);
    case Deciding(at, q) => DecideForward(s, a, at, q, p);
    case Settling(at, q) => SettleForward(s, a, at, q, answer, p);
    case Registering(at, q) => RegisterForward(s, a, at, q, answer, p);
    case Finishing(_) =>
  }

  /** Only cleanup runs the loops of cleanup. */
  predicate InCleanup(act: Activation) {
    act.pc.Cleaning? || act.k.CleanupPending? || act.k.CleanupRegistry?
  }

  lemma NextForward(s: State, a: ActivationId, answer: Answer, p: PromiseId)
    requires OpenAt(s, a) && s.acts[a].pc.NextItem? && GoodAnswer(s.acts[a], answer) && !InCleanup(s.acts[a])
    ensures Forward(s, ExecuteNext(s, a, answer), a, p)
  {
  }

  lemma LoopForward(s: State, a: ActivationId, answer: Answer, p: PromiseId)
    requires Ready(s, a) && GoodAnswer(s.acts[a], answer) && Promiseless(s.acts[a].pc) && OpenAt(s, a) && !InCleanup(s.acts[a])
    ensures Forward(s, Execute(s, a, answer), a, p)
  {
    if s.acts[a].pc.NextItem? { NextForward(s, a, answer, p); }
  }

  /** In an open environment cleanup is at work only where it is about to begin. */
  lemma CleanupCloses(s: State, a: ActivationId)
    requires Inv(s) && a in s.acts && !s.d.closing && InCleanup(s.acts[a])
    ensures s.acts[a].pc == Cleaning(CleanupSwap)
  {
    assert ActOk(s, a);
  }

  lemma StepForward(s: State, a: ActivationId, answer: Answer, p: PromiseId)
    requires Inv(s) && !s.d.closing && Ready(s, a) && GoodAnswer(s.acts[a], answer)
    requires !Rebuffs(s, Step(a, answer), p) && !Abandons(s.acts[a].pc, p)
    ensures Execute(s, a, answer).d.closing || Forward(s, Execute(s, a, answer), a, p)
  {
    if InCleanup(s.acts[a]) {
      CleanupCloses(s, a);
    } else if Promiseless(s.acts[a].pc) {
      LoopForward(s, a, answer, p);
    } else {
      PromiseForward(s, a, answer, p);
    }
  }

  lemma StepUnabandoned(s: State, a: ActivationId, answer: Answer, p: PromiseId)
    requires Inv(s) && Unabandoned(s, p) && Ready(s, a) && GoodAnswer(s.acts[a], answer) && !Rebuffs(s, Step(a, answer), p)
    ensures Unabandoned(Execute(s, a, answer), p)
  {
    StepKeepsClosing(s, a, answer);
    if !s.d.closing {
      StepForward(s, a, answer, p);
      StepMoves(s, a, answer);
    }
  }

  /** What can begin in an open environment abandons nothing. */
  lemma StartUnabandoned(s: State, l: Label, p: PromiseId)
    requires Inv(s) && Unabandoned(s, p) && Enabled(s, l) && !l.Step?
    ensures Unabandoned(Apply(s, l), p)
  {
    StartFrame(s, l);
    if p in s.promises { StartAlike(s, l, p); }
  }

  lemma LabelUnabandoned(s: State, l: Label, p: PromiseId)
    requires Inv(s) && Unabandoned(s, p) && Enabled(s, l) && !Rebuffs(s, l, p)
    ensures Unabandoned(Apply(s, l), p)
  {
    if l.Step? { StepUnabandoned(s, l.a, l.answer, p); } else { StartUnabandoned(s, l, p); }
  }

  lemma {:induction false} RunUnabandoned(s: State, labels: seq<Label>, p: PromiseId)
    requires Inv(s) && Unabandoned(s, p) && Spared(s, labels, p) && Run(s, labels).Some?
    ensures Unabandoned(Run(s, labels).value, p)
    decreases |labels|
  {
    if labels != [] {
      LabelPreserves(s, labels[0]);
      LabelUnabandoned(s, labels[0], p);
      RunUnabandoned(Apply(s, labels[0]), labels[1..], p);
    }
  }

  // ---- no environment closes by itself ----

  /** Cleanup has not begun. */
  predicate Cleanless(s: State) {
    !s.d.closing && forall a {:trigger s.acts[a]} :: a in s.acts ==> !s.acts[a].pc.Cleaning?
  }

  lemma StepCleanless(s: State, a: ActivationId, answer: Answer)
    requires Inv(s) && Cleanless(s) && Ready(s, a) && GoodAnswer(s.acts[a], answer)
    ensures Cleanless(Execute(s, a, answer))
  {
    if InCleanup(s.acts[a]) { CleanupCloses(s, a); }
    StepPhase(s, a, answer);
    StepMoves(s, a, answer);
    var q: PromiseId := if Promiseless(s.acts[a].pc) then 0 else s.acts[a].pc.p + 1;
    StepForward(s, a, answer, q);
  }

  lemma LabelCleanless(s: State, l: Label)
    requires Inv(s) && Cleanless(s) && Enabled(s, l) && !l.CleanupEnv?
    ensures Cleanless(Apply(s, l))
  {
    if l.Step? { StepCleanless(s, l.a, l.answer); } else { StartFrame(s, l); }
  }

  lemma {:induction false} RunCleanless(s: State, labels: seq<Label>)
    requires Inv(s) && Cleanless(s) && Run(s, labels).Some? && forall l :: l in labels ==> !l.CleanupEnv?
    ensures Cleanless(Run(s, labels).value)
    decreases |labels|
  {
    if labels != [] {
      LabelPreserves(s, labels[0]);
      LabelCleanless(s, labels[0]);
      RunCleanless(Apply(s, labels[0]), labels[1..]);
    }
  }

  /**
   A promise is abandoned only after cleanup began, or after one of its own calls was
   answered with a failed handle scope or with closing. So in an environment that is never
   cleaned up, with every such call answered, no promise is ever abandoned.
   */
  lemma AbandonedOnlyAfter(labels: seq<Label>, s: State, p: PromiseId)
    requires Reaches(labels, s) && p in s.promises && s.promises[p].fate.Abandoned?
    ensures s.d.closing || !Spared(INITIAL, labels, p)
    ensures (exists l :: l in labels && l.CleanupEnv?) || !Spared(INITIAL, labels, p)
  {
    InitialInv();
    if Spared(INITIAL, labels, p) {
      RunUnabandoned(INITIAL, labels, p);
      if forall l :: l in labels ==> !l.CleanupEnv? { RunCleanless(INITIAL, labels); }
    }
  }
}
