/** What single steps do to the history of a promise, and which steps can lose a completion. */
module AsyncProgress {
  import opened Wrappers
  import opened AsyncDispatcher
  import opened AsyncPromise
  import opened AsyncInvariant
  import opened AsyncFrame
  import opened AsyncReachable

  /** A completion is stored and its promise is still open. */
  predicate Waiting(s: State, p: PromiseId) {
    p in s.promises && s.promises[p].result.Some? && !s.promises[p].settled
  }

  /** The one call that can put `p` into the thread-safe function fails with a status other than closing. */
  predicate FailsCall(s: State, l: Label, p: PromiseId) {
    l.Step? && l.a in s.acts && s.acts[l.a].pc == Falling(FallbackCall, p) && l.answer.Failed?
  }

  /** `unregister_queue` takes a queue whose shadow map holds `p`. */
  predicate DropsShadow(s: State, l: Label, p: PromiseId) {
    l.Step? && l.a in s.acts && s.acts[l.a].pc.DroppingQueue? && s.d.Shadows(p)
  }

  predicate Benign(s: State, l: Label) {
    && (l.Step? && l.a in s.acts && s.acts[l.a].pc.Falling? && s.acts[l.a].pc.fallback.FallbackCall? ==> !l.answer.Failed?)
    && (l.Step? && l.a in s.acts && s.acts[l.a].pc.DroppingQueue? ==> !s.d.Accepting())
  }

  /** No call into the thread-safe function fails, and no queue is dropped while it is accepting. */
  predicate BenignRun(s: State, labels: seq<Label>)
    decreases |labels|
  {
    labels != [] && Enabled(s, labels[0]) ==> Benign(s, labels[0]) && BenignRun(Apply(s, labels[0]), labels[1..])
  }

  predicate Flagged(pr: Promise) {
    pr.callFailed || pr.unshadowed
  }

  /** What one label does to the history of a promise. */
  predicate Advances(pr: Promise, pr': Promise, failed: bool, dropped: bool) {
    && (pr'.callFailed <==> pr.callFailed || failed)
    && (pr'.unshadowed <==> pr.unshadowed || dropped)
    && (pr.first.Some? ==> pr'.first == pr.first)
    && (!pr.fate.Open? ==> pr'.fate == pr.fate && pr'.winner == pr.winner)
    && (pr.outcome.Some? ==> pr'.outcome == pr.outcome)
  }

  /** A step of `a` that touches no promise but `p`, whose new value is `s'.promises[p]`. */
  predicate TouchesOnly(s: State, s': State, p: PromiseId) {
    p in s.promises && p in s'.promises && s'.promises == s.promises[p := s'.promises[p]] && (s.drained ==> s'.drained)
  }

  lemma CompleteAdvances(s: State, a: ActivationId, at: CompletePoint, p: PromiseId, r: Completion)
    requires a in s.acts && p in s.promises && (at.CompleteWrite? ==> s.promises[p].first.None?)
    ensures var s' := ExecuteComplete(s, a, at, p, r);
            TouchesOnly(s, s', p) && Advances(s.promises[p], s'.promises[p], false, false)
  {
  }

  lemma FallbackAdvances(s: State, a: ActivationId, at: FallbackPoint, p: PromiseId, answer: Answer)
    requires a in s.acts && p in s.promises && GoodAnswer(Activation(true, Falling(at, p), Return), answer)
    ensures var s' := ExecuteFallback(s, a, at, p, answer);
            TouchesOnly(s, s', p) && Advances(s.promises[p], s'.promises[p], at.FallbackCall? && answer.Failed?, false)
  {
  }

  lemma AbandonAdvances(s: State, a: ActivationId, at: AbandonPoint, p: PromiseId)
    requires a in s.acts && p in s.promises
    ensures var s' := ExecuteAbandon(s, a, at, p);
            TouchesOnly(s, s', p) && (ResultOk(s.promises[p]) ==> Advances(s.promises[p], s'.promises[p], false, false))
  {
  }

  lemma DecideAdvances(s: State, a: ActivationId, at: DecidePoint, p: PromiseId)
    requires a in s.acts && p in s.promises
    ensures var s' := ExecuteDecide(s, a, at, p);
            TouchesOnly(s, s', p) && (ResultOk(s.promises[p]) ==> Advances(s.promises[p], s'.promises[p], false, false))
  {
  }

  lemma SettleAdvances(s: State, a: ActivationId, at: SettlePoint, p: PromiseId, answer: Answer)
    requires a in s.acts && p in s.promises && (at.SettleDeferred? ==> s.promises[p].outcome.None?)
    ensures var s' := ExecuteSettle(s, a, at, p, answer);
            TouchesOnly(s, s', p) && Advances(s.promises[p], s'.promises[p], false, false)
  {
  }

  lemma RegisterAdvances(s: State, a: ActivationId, at: RegisterPoint, p: PromiseId, answer: Answer)
    requires a in s.acts && p in s.promises
    ensures var s' := ExecuteRegister(s, a, at, p, answer);
            TouchesOnly(s, s', p) && Advances(s.promises[p], s'.promises[p], false, false)
  {
  }

  /** Steps at these points leave every promise as it is. */
  predicate Untouching(pc: Pc) {
    pc.Routing? || pc.Calling? || pc.Finishing? || (Promiseless(pc) && !pc.DroppingQueue?)
  }

  predicate KeepsPromises(s: State, s': State) {
    s'.promises == s.promises && (s.drained ==> s'.drained)
  }

  lemma RouteUntouched(s: State, a: ActivationId, at: RoutePoint, p: PromiseId, answer: Answer)
    requires a in s.acts
    ensures KeepsPromises(s, ExecuteRoute(s, a, at, p, answer))
  {
  }

  lemma CallbackUntouched(s: State, a: ActivationId, at: CallbackPoint, p: PromiseId, answer: Answer)
    requires a in s.acts
    ensures KeepsPromises(s, ExecuteCallback(s, a, at, p, answer))
  {
  }

  lemma CleanupUntouched(s: State, a: ActivationId, at: CleanupPoint)
    requires a in s.acts
    ensures KeepsPromises(s, ExecuteCleanup(s, a, at))
  {
  }

  lemma NextUntouched(s: State, a: ActivationId, answer: Answer)
    requires a in s.acts && s.acts[a].pc.NextItem? && GoodAnswer(s.acts[a], answer)
    ensures KeepsPromises(s, ExecuteNext(s, a, answer))
  {
  }

  lemma PromisesUntouched(s: State, a: ActivationId, answer: Answer)
    requires Ready(s, a) && GoodAnswer(s.acts[a], answer) && Untouching(s.acts[a].pc)
    ensures KeepsPromises(s, Execute(s, a, answer))
  {
    match s.acts[a].pc
    case Routing(at, p) => RouteUntouched(s, a, at, p, answer);
    case Calling(at, p) => CallbackUntouched(s, a, at, p, answer);
    case Cleaning(at) => CleanupUntouched(s, a, at);
    case NextItem => NextUntouched(s, a, answer);
    case _ =>
  }

  predicate AdvancesBy(s: State, l: Label, s': State, p: PromiseId) {
    && (s.drained ==> s'.drained) && p in s.promises && p in s'.promises
    && (!l.Create? ==> s'.promises.Keys == s.promises.Keys)
    && Advances(s.promises[p], s'.promises[p], FailsCall(s, l, p), DropsShadow(s, l, p))
  }

  lemma DeliveryAdvances(s: State, a: ActivationId, answer: Answer, p: PromiseId)
    requires Ready(s, a) && GoodAnswer(s.acts[a], answer) && PcOk(s, a, s.acts[a].pc) && p in s.promises
    requires var pc := s.acts[a].pc; pc.Completing? || pc.Falling?
    ensures AdvancesBy(s, Step(a, answer), Execute(s, a, answer), p)
  {
    match s.acts[a].pc
    case Completing(at, q, r) => CompleteAdvances(s, a, at, q, r);
    case Falling(at, q) => FallbackAdvances(s, a, at, q, answer);
  }

  lemma OwnerAdvances(s: State, a: ActivationId, answer: Answer, p: PromiseId)
    requires Ready(s, a) && GoodAnswer(s.acts[a], answer) && PcOk(s, a, s.acts[a].pc) && p in s.promises
    requires var pc := s.acts[a].pc; (pc.Settling? || pc.Registering?) && ResultOk(s.promises[pc.p])
    ensures AdvancesBy(s, Step(a, answer), Execute(s, a, answer), p)
  {
    match s.acts[a].pc
    case Settling(at, q) => SettleAdvances(s, a, at, q, answer);
    case Registering(at, q) => RegisterAdvances(s, a, at, q, answer);
  }

  lemma RaceAdvances(s: State, a: ActivationId, answer: Answer, p: PromiseId)
    requires Ready(s, a) && GoodAnswer(s.acts[a], answer) && p in s.promises && ResultOk(s.promises[p])
    requires s.acts[a].pc.Abandoning? || s.acts[a].pc.Deciding?
    ensures AdvancesBy(s, Step(a, answer), Execute(s, a, answer), p)
  {
    match s.acts[a].pc
    case Abandoning(at, q) => AbandonAdvances(s, a, at, q);
    case Deciding(at, q) => DecideAdvances(s, a, at, q);
  }

  lemma OtherAdvances(s: State, a: ActivationId, answer: Answer, p: PromiseId)
    requires Ready(s, a) && GoodAnswer(s.acts[a], answer) && p in s.promises
    requires Untouching(s.acts[a].pc) || s.acts[a].pc.DroppingQueue?
    ensures AdvancesBy(s, Step(a, answer), Execute(s, a, answer), p)
  {
    if Untouching(s.acts[a].pc) { PromisesUntouched(s, a, answer); }
  }

  lemma StepAdvances(s: State, a: ActivationId, answer: Answer, p: PromiseId)
    requires Inv(s) && Ready(s, a) && GoodAnswer(s.acts[a], answer) && p in s.promises
    ensures AdvancesBy(s, Step(a, answer), Execute(s, a, answer), p)
  {
    assert PromiseOk(s, p) && ActOk(s, a);
    var pc := s.acts[a].pc;
    if pc.Completing? || pc.Falling? {
      DeliveryAdvances(s, a, answer, p);
    } else if pc.Settling? || pc.Registering? {
      assert PromiseOk(s, pc.p);
      OwnerAdvances(s, a, answer, p);
    } else if pc.Abandoning? || pc.Deciding? {
      RaceAdvances(s, a, answer, p);
    } else {
      OtherAdvances(s, a, answer, p);
    }
  }

  // A call that begins, and what the environment does, change no history.
  lemma StartAdvances(s: State, l: Label, p: PromiseId)
    requires Enabled(s, l) && !l.Step? && p in s.promises
    ensures AdvancesBy(s, l, Apply(s, l), p)
  {
  }

  /** The first stored completion and the fate of a promise never change, and the flags say which step was harmful. */
  lemma LabelAdvances(s: State, l: Label, p: PromiseId)
    requires Inv(s) && Enabled(s, l) && p in s.promises
    ensures AdvancesBy(s, l, Apply(s, l), p)
  {
    if l.Step? { StepAdvances(s, l.a, l.answer, p); } else { StartAdvances(s, l, p); }
  }
}
