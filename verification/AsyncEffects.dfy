/** What a single label leaves alone: the other activations, the phase of the dispatcher, and the promises it does not work on. */
module AsyncEffects {
  import opened Wrappers
  import opened AsyncDispatcher
  import opened AsyncPromise
  import opened AsyncInvariant
  import opened AsyncProgress
  import opened AsyncBookkeeping
  import opened AsyncOrderly

  /** Cleanup neither begins nor ends. */
  predicate SamePhase(s: State, s': State) {
    s'.d.closing == s.d.closing && s'.alive == s.alive && s'.released == s.released && s'.cleaner == s.cleaner
  }

  /** Points that are reached from within their own function only. */
  predicate Transits(pc: Pc, pc': Pc) {
    && (pc'.Completing? ==> pc.Completing? && pc'.p == pc.p && pc'.r == pc.r)
    && (pc'.Registering? ==> pc.Registering? && pc'.p == pc.p)
    && (pc'.Settling? && pc'.settle.SettleDeferred? ==> pc == Settling(SettleTake, pc'.p))
  }

  /** The activation goes on, in the loop it was in. */
  predicate Steady(s: State, s': State, a: ActivationId)
    requires a in s.acts
  {
    SamePhase(s, s') && a in s'.acts && s'.acts[a].k == s.acts[a].k && s'.acts[a].onJs == s.acts[a].onJs
    && Transits(s.acts[a].pc, s'.acts[a].pc)
  }

  /** Of the promises, only `p` changes. */
  predicate Touches(s: State, s': State, p: PromiseId) {
    p in s.promises && p in s'.promises && s'.promises == s.promises[p := s'.promises[p]]
  }

  lemma CompleteSteady(s: State, a: ActivationId, at: CompletePoint, p: PromiseId, r: Completion)
    requires a in s.acts && s.acts[a].pc == Completing(at, p, r) && p in s.promises
    ensures var s' := ExecuteComplete(s, a, at, p, r); Steady(s, s', a) && Touches(s, s', p)
  {
  }

  lemma RouteSteady(s: State, a: ActivationId, at: RoutePoint, p: PromiseId, answer: Answer)
    requires a in s.acts && s.acts[a].pc == Routing(at, p)
    ensures Steady(s, ExecuteRoute(s, a, at, p, answer), a)
  {
  }

  lemma FallbackSteady(s: State, a: ActivationId, at: FallbackPoint, p: PromiseId, answer: Answer)
    requires a in s.acts && s.acts[a].pc == Falling(at, p) && p in s.promises
    ensures var s' := ExecuteFallback(s, a, at, p, answer); Steady(s, s', a) && Touches(s, s', p)
  {
  }

  lemma AbandonSteady(s: State, a: ActivationId, at: AbandonPoint, p: PromiseId)
    requires a in s.acts && s.acts[a].pc == Abandoning(at, p) && p in s.promises
    ensures var s' := ExecuteAbandon(s, a, at, p); Steady(s, s', a) && Touches(s, s', p)
  {
  }

  lemma CallbackSteady(s: State, a: ActivationId, at: CallbackPoint, p: PromiseId, answer: Answer)
    requires a in s.acts && s.acts[a].pc == Calling(at, p)
    ensures Steady(s, ExecuteCallback(s, a, at, p, answer), a)
  {
  }

  lemma DecideSteady(s: State, a: ActivationId, at: DecidePoint, p: PromiseId)
    requires a in s.acts && s.acts[a].pc == Deciding(at, p) && p in s.promises
    ensures var s' := ExecuteDecide(s, a, at, p); Steady(s, s', a) && Touches(s, s', p)
  {
  }

  lemma SettleSteady(s: State, a: ActivationId, at: SettlePoint, p: PromiseId, answer: Answer)
    requires a in s.acts && s.acts[a].pc == Settling(at, p) && p in s.promises
    ensures var s' := ExecuteSettle(s, a, at, p, answer); Steady(s, s', a) && Touches(s, s', p)
  {
  }

  lemma RegisterSteady(s: State, a: ActivationId, at: RegisterPoint, p: PromiseId, answer: Answer)
    requires a in s.acts && s.acts[a].pc == Registering(at, p) && p in s.promises
    ensures var s' := ExecuteRegister(s, a, at, p, answer); Steady(s, s', a) && Touches(s, s', p)
  {
  }

  lemma PromiseSteady(s: State, a: ActivationId, answer: Answer)
    requires Ready(s, a) && GoodAnswer(s.acts[a], answer) && !Promiseless(s.acts[a].pc)
    ensures Steady(s, Execute(s, a, answer), a)
  {
    match s.acts[a].pc
    case Completing(at, p, r) => CompleteSteady(s, a, at, p, r);
    case Routing(at, p) => RouteSteady(s, a, at, p, answer);
    case Falling(at, p) => FallbackSteady(s, a, at, p, answer);
    case Abandoning(at, p) => AbandonSteady(s, a, at, p);
    case Calling(at, p) => CallbackSteady(s, a, at, p, answer);
    case Deciding(at, p) => DecideSteady(s, a, at, p);
    case Settling(at, p) => SettleSteady(s, a, at, p, answer);
    case Registering(at, p) => RegisterSteady(s, a, at, p, answer);
    case Finishing(_) =>
  }

  lemma LoopPhase(s: State, a: ActivationId, answer: Answer)
    requires Ready(s, a) && GoodAnswer(s.acts[a], answer) && Promiseless(s.acts[a].pc) && !s.acts[a].pc.Cleaning?
    ensures SamePhase(s, Execute(s, a, answer))
  {
    if s.acts[a].pc.NextItem? { NextPlain(s, a, answer); }
  }

  /** Where the next item of a loop, or the end of the loop, leads. */
  predicate LoopTarget(pc: Pc) {
    pc.Calling? || pc.Falling? || pc.Abandoning? || pc.Cleaning? || pc.DroppingQueue?
  }

  lemma NextTransits(s: State, a: ActivationId, answer: Answer)
    requires a in s.acts && s.acts[a].pc.NextItem? && GoodAnswer(s.acts[a], answer)
    ensures a in ExecuteNext(s, a, answer).acts ==> LoopTarget(ExecuteNext(s, a, answer).acts[a].pc)
  {
  }

  lemma CleanupTransits(s: State, a: ActivationId, at: CleanupPoint)
    requires a in s.acts
    ensures a in ExecuteCleanup(s, a, at).acts && Promiseless(ExecuteCleanup(s, a, at).acts[a].pc)
  {
  }

  lemma LoopTransits(s: State, a: ActivationId, answer: Answer)
    requires Ready(s, a) && GoodAnswer(s.acts[a], answer) && Promiseless(s.acts[a].pc)
    ensures a in Execute(s, a, answer).acts ==> Transits(s.acts[a].pc, Execute(s, a, answer).acts[a].pc)
  {
    if s.acts[a].pc.NextItem? { NextTransits(s, a, answer); }
    else if s.acts[a].pc.Cleaning? { CleanupTransits(s, a, s.acts[a].pc.cleanup); }
  }

  lemma StepTransits(s: State, a: ActivationId, answer: Answer)
    requires Ready(s, a) && GoodAnswer(s.acts[a], answer)
    ensures a in Execute(s, a, answer).acts ==> Transits(s.acts[a].pc, Execute(s, a, answer).acts[a].pc)
  {
    if Promiseless(s.acts[a].pc) { LoopTransits(s, a, answer); } else { PromiseSteady(s, a, answer); }
  }

  lemma StepPhase(s: State, a: ActivationId, answer: Answer)
    requires Ready(s, a) && GoodAnswer(s.acts[a], answer) && !s.acts[a].pc.Cleaning?
    ensures SamePhase(s, Execute(s, a, answer))
  {
    if Promiseless(s.acts[a].pc) { LoopPhase(s, a, answer); } else { PromiseSteady(s, a, answer); }
  }

  lemma StepKeepsClosing(s: State, a: ActivationId, answer: Answer)
    requires Ready(s, a) && GoodAnswer(s.acts[a], answer)
    ensures s.d.closing ==> Execute(s, a, answer).d.closing
  {
    if !s.acts[a].pc.Cleaning? { StepPhase(s, a, answer); }
  }

  // ---- other activations ----

  /** No activation but `a` moved, started or ended. */
  predicate OnlyMoves(s: State, s': State, a: ActivationId) {
    && OthersStay(s, s', a)
    && forall b {:trigger b in s'.acts} :: b in s'.acts && b != a ==> b in s.acts
  }

  lemma StepMoves(s: State, a: ActivationId, answer: Answer)
    requires Ready(s, a) && GoodAnswer(s.acts[a], answer)
    ensures OnlyMoves(s, Execute(s, a, answer), a)
  {
    if !Promiseless(s.acts[a].pc) {
      PromiseCalm(s, a, answer);
    } else if !s.acts[a].pc.Installing? {
      LoopCalm(s, a, answer);
    }
  }

  // ---- other promises ----

  predicate Alike(pr: Promise, pr': Promise) {
    pr' == pr.(unshadowed := pr'.unshadowed)
  }

  /** The function may change the promise it works on. */
  predicate Changing(pc: Pc) {
    pc.Completing? || pc.Falling? || pc.Abandoning? || pc.Deciding? || pc.Settling? || pc.Registering?
  }

  lemma StepTouches(s: State, a: ActivationId, answer: Answer)
    requires Ready(s, a) && GoodAnswer(s.acts[a], answer) && Changing(s.acts[a].pc)
    ensures Touches(s, Execute(s, a, answer), s.acts[a].pc.p)
  {
    match s.acts[a].pc
    case Completing(at, p, r) => CompleteSteady(s, a, at, p, r);
    case Falling(at, p) => FallbackSteady(s, a, at, p, answer);
    case Abandoning(at, p) => AbandonSteady(s, a, at, p);
    case Deciding(at, p) => DecideSteady(s, a, at, p);
    case Settling(at, p) => SettleSteady(s, a, at, p, answer);
    case Registering(at, p) => RegisterSteady(s, a, at, p, answer);
  }

  /** Which history of its promise a step at `pc` may write: each part belongs to one function, and the fate to the two swaps. */
  predicate Writes(pc: Pc, pr: Promise, pr': Promise) {
    && pr'.first == (if pc.Completing? && pc.complete.CompleteWrite? then Some(pc.r) else pr.first)
    && ((pc.Abandoning? && pc.abandon.AbandonSwap?) || (pc.Deciding? && pc.decide.SettleSwap?)
        || (pr'.fate == pr.fate && pr'.winner == pr.winner))
    && (pc.Settling? || (pr'.deferred == pr.deferred && pr'.missed == pr.missed && pr'.outcome == pr.outcome))
    && (pc.Registering? || pr'.registration == pr.registration)
    && pr'.creator == pr.creator
  }

  lemma CompleteChanges(s: State, a: ActivationId, at: CompletePoint, p: PromiseId, r: Completion)
    requires a in s.acts && p in s.promises
    ensures var s' := ExecuteComplete(s, a, at, p, r);
            p in s'.promises && Writes(Completing(at, p, r), s.promises[p], s'.promises[p])
  {
  }

  lemma FallbackChanges(s: State, a: ActivationId, at: FallbackPoint, p: PromiseId, answer: Answer)
    requires a in s.acts && p in s.promises
    ensures var s' := ExecuteFallback(s, a, at, p, answer);
            p in s'.promises && Writes(Falling(at, p), s.promises[p], s'.promises[p])
  {
  }

  lemma AbandonChanges(s: State, a: ActivationId, at: AbandonPoint, p: PromiseId)
    requires a in s.acts && p in s.promises
    ensures var s' := ExecuteAbandon(s, a, at, p);
            p in s'.promises && Writes(Abandoning(at, p), s.promises[p], s'.promises[p])
  {
  }

  lemma DecideChanges(s: State, a: ActivationId, at: DecidePoint, p: PromiseId)
    requires a in s.acts && p in s.promises
    ensures var s' := ExecuteDecide(s, a, at, p);
            p in s'.promises && Writes(Deciding(at, p), s.promises[p], s'.promises[p])
  {
  }

  lemma SettleChanges(s: State, a: ActivationId, at: SettlePoint, p: PromiseId, answer: Answer)
    requires a in s.acts && p in s.promises
    ensures var s' := ExecuteSettle(s, a, at, p, answer);
            p in s'.promises && Writes(Settling(at, p), s.promises[p], s'.promises[p])
  {
  }

  lemma RegisterChanges(s: State, a: ActivationId, at: RegisterPoint, p: PromiseId, answer: Answer)
    requires a in s.acts && p in s.promises
    ensures var s' := ExecuteRegister(s, a, at, p, answer);
            p in s'.promises && Writes(Registering(at, p), s.promises[p], s'.promises[p])
  {
  }

  lemma StepChanges(s: State, a: ActivationId, answer: Answer)
    requires Ready(s, a) && GoodAnswer(s.acts[a], answer) && !Promiseless(s.acts[a].pc)
    ensures var p, s' := s.acts[a].pc.p, Execute(s, a, answer);
            p in s'.promises && Writes(s.acts[a].pc, s.promises[p], s'.promises[p])
  {
    match s.acts[a].pc
    case Completing(at, p, r) => CompleteChanges(s, a, at, p, r);
    case Falling(at, p) => FallbackChanges(s, a, at, p, answer);
    case Abandoning(at, p) => AbandonChanges(s, a, at, p);
    case Deciding(at, p) => DecideChanges(s, a, at, p);
    case Settling(at, p) => SettleChanges(s, a, at, p, answer);
    case Registering(at, p) => RegisterChanges(s, a, at, p, answer);
    case _ => PromisesUntouched(s, a, answer);
  }

  /** A step changes no promise but the one it works on. */
  lemma StepAlike(s: State, a: ActivationId, answer: Answer, p: PromiseId)
    requires Ready(s, a) && GoodAnswer(s.acts[a], answer) && p in s.promises && p !in Mentions(s.acts[a].pc)
    ensures p in Execute(s, a, answer).promises && Alike(s.promises[p], Execute(s, a, answer).promises[p])
  {
    var pc := s.acts[a].pc;
    if Untouching(pc) {
      PromisesUntouched(s, a, answer);
    } else if Changing(pc) {
      StepTouches(s, a, answer);
    }
  }

  /** A step creates no promise. */
  lemma StepKeys(s: State, a: ActivationId, answer: Answer)
    requires Ready(s, a) && GoodAnswer(s.acts[a], answer)
    ensures Execute(s, a, answer).promises.Keys == s.promises.Keys
  {
    var pc := s.acts[a].pc;
    if Untouching(pc) { PromisesUntouched(s, a, answer); } else if Changing(pc) { StepTouches(s, a, answer); }
  }

  // ---- labels that are no step ----

  /** A call begins, or the environment acts: no activation moves and no phase changes. */
  lemma StartFrame(s: State, l: Label)
    requires Enabled(s, l) && !l.Step?
    ensures var s' := Apply(s, l);
      && s'.d == s.d && s'.released == s.released && s'.cleaner == s.cleaner && s'.drained == s.drained
      && (forall b {:trigger s.acts[b]} :: b in s.acts ==> b in s'.acts && s'.acts[b] == s.acts[b])
      && (forall b {:trigger b in s'.acts} :: b in s'.acts ==> b in s.acts || (!l.TakeOperation? && !l.QueueDiscards? && !l.DropDispatcher? && b == l.a))
  {
  }

  lemma StartAlike(s: State, l: Label, p: PromiseId)
    requires Enabled(s, l) && !l.Step? && p in s.promises
    ensures var s' := Apply(s, l);
            p in s'.promises && (s'.promises[p] == s.promises[p] || s'.promises[p] == s.promises[p].(operation := false))
  {
  }
}
