/**
 Rely and guarantee: what one activation may do to a promise, and why the invariant of
 every other activation and of every other promise survives it.
 */
module AsyncFrame {
  import opened Wrappers
  import opened AsyncDispatcher
  import opened AsyncPromise
  import opened AsyncInvariant

  /** All that activation `a` may change in a promise. */
  predicate Guarantee(pr: Promise, pr': Promise, a: ActivationId) {
    && (pr.first.Some? ==> pr'.first == pr.first)
    && (!pr.fate.Open? ==> pr'.fate == pr.fate && pr'.winner == pr.winner)
    && (!pr.operation ==> !pr'.operation)
    && (pr.caller.Some? ==> pr'.caller == pr.caller)
    && (pr.caller.Some? && pr.caller != Some(a) ==> pr'.entries == pr.entries && pr'.callFailed == pr.callFailed)
    && pr'.creator == pr.creator
    && (pr.registration.Registered? ==> pr'.registration.Registered?)
    && (pr.creator != a ==> pr'.registration == pr.registration)
    && (pr.fate.Settled? && pr.winner != a ==>
          && pr'.result == pr.result && pr'.deferred == pr.deferred && pr'.missed == pr.missed
          && pr'.contexts == pr.contexts && pr'.references == pr.references)
    && (pr.resultLock.Some? && pr.resultLock != Some(a) ==> pr'.resultLock == pr.resultLock && pr'.first == pr.first)
  }

  ghost predicate Guarantees(s: State, s': State, a: ActivationId) {
    && s.promises.Keys <= s'.promises.Keys
    && forall q {:trigger Guarantee(s.promises[q], s'.promises[q], a)} ::
         q in s.promises ==> Guarantee(s.promises[q], s'.promises[q], a)
  }

  /** Everything but a JS step leaves these fields alone. */
  predicate Quiet(s: State, s': State) {
    && s'.d.closing == s.d.closing && s'.d.registry == s.d.registry && s'.d.tsfnReferenced == s.d.tsfnReferenced
    && s'.cleaner == s.cleaner && s'.drained == s.drained && s'.released == s.released
    && (s'.d.queue.None? <==> s.d.queue.None?)
    && (s'.d.Accepting() ==> s.d.Accepting())
  }

  /** Only activation `a` moved, started or ended. */
  predicate SameOthers(s: State, s': State, a: ActivationId) {
    s'.acts - {a} == s.acts - {a}
  }

  lemma OtherActivation(s: State, s': State, a: ActivationId, b: ActivationId)
    requires SameOthers(s, s', a) && b != a
    ensures b in s.acts <==> b in s'.acts
    ensures b in s.acts ==> s'.acts[b] == s.acts[b]
  {
    assert b in s.acts <==> b in s.acts - {a};
    assert b in s'.acts <==> b in s'.acts - {a};
    assert b in s.acts ==> (s.acts - {a})[b] == s.acts[b];
    assert b in s'.acts ==> (s'.acts - {a})[b] == s'.acts[b];
  }

  // ---- promises ----

  function HoldsAt(s: State, a: ActivationId): set<PromiseId> {
    if a in s.acts then Holds(s.acts[a]) else {}
  }

  function DeliversAt(s: State, a: ActivationId): set<PromiseId> {
    if a in s.acts then Delivers(s.acts[a].pc) else {}
  }

  lemma SplitHeld(s: State, a: ActivationId, p: PromiseId)
    ensures Held(s.acts, p) <==> p in HoldsAt(s, a) || HeldElse(s.acts, a, p)
    ensures Delivering(s.acts, p) <==> p in DeliversAt(s, a) || DeliveringElse(s.acts, a, p)
  {
  }

  lemma SameElse(s: State, s': State, a: ActivationId, p: PromiseId)
    requires SameOthers(s, s', a)
    ensures HeldElse(s.acts, a, p) <==> HeldElse(s'.acts, a, p)
    ensures DeliveringElse(s.acts, a, p) <==> DeliveringElse(s'.acts, a, p)
  {
    forall b | b != a ensures (b in s.acts <==> b in s'.acts) && (b in s.acts ==> s'.acts[b] == s.acts[b]) {
      OtherActivation(s, s', a, b);
    }
  }

  lemma Relocate(s: State, s': State, a: ActivationId, p: PromiseId)
    requires SameOthers(s, s', a)
    ensures Held(s.acts, p) <==> p in HoldsAt(s, a) || HeldElse(s.acts, a, p)
    ensures Delivering(s.acts, p) <==> p in DeliversAt(s, a) || DeliveringElse(s.acts, a, p)
    ensures Held(s'.acts, p) <==> p in HoldsAt(s', a) || HeldElse(s.acts, a, p)
    ensures Delivering(s'.acts, p) <==> p in DeliversAt(s', a) || DeliveringElse(s.acts, a, p)
  {
    SplitHeld(s, a, p);
    SplitHeld(s', a, p);
    SameElse(s, s', a, p);
  }

  /** Program counters that the invariant of a promise mentions by name. */
  predicate Pivotal(pc: Pc) {
    || (pc.Completing? && pc.complete.CompleteWrite?)
    || (pc.Abandoning? && !pc.abandon.AbandonSwap?)
    || pc.Settling?
    || (pc.Registering? && Critical(pc))
  }

  /** Promise `q` and what the invariant says of it by name do not change. */
  predicate Keeps(s: State, s': State, a: ActivationId, q: PromiseId)
    requires q in s.promises && q in s'.promises
  {
    && s'.promises[q] == s.promises[q].(unshadowed := s'.promises[q].unshadowed)
    && (a in s.acts && Pivotal(s.acts[a].pc) ==> s.acts[a].pc.p != q)
    && (q in s'.d.registry ==> q in s.d.registry)
    && (q in s.d.registry ==> q in s'.d.registry || Owes(s', q))
    && (Owes(s, q) ==> Owes(s', q) || s'.promises[q].settled)
  }

  /** The step of `a` leaves promise `q` alone, except that it may pick it up from a shadow map or the registry. */
  predicate Spares(s: State, s': State, a: ActivationId, q: PromiseId)
    requires q in s.promises && q in s'.promises
  {
    && Keeps(s, s', a, q)
    && (s.promises[q].unshadowed ==> s'.promises[q].unshadowed)
    && (s.d.Shadows(q) ==> s'.d.Shadows(q) || q in HoldsAt(s', a) || s'.promises[q].unshadowed)
    && (s'.d.Shadows(q) ==> s.d.Shadows(q))
    && (q in s'.queued ==> q in s.queued)
    && (q in s'.tsfn <==> q in s.tsfn)
    && (q in HoldsAt(s, a) ==> q in HoldsAt(s', a))
    && (q in DeliversAt(s, a) ==> q in DeliversAt(s', a))
  }

  lemma SparedLocation(s: State, s': State, a: ActivationId, q: PromiseId)
    requires q in s.promises && q in s'.promises
    requires LocationOk(s, q) && SameOthers(s, s', a) && Spares(s, s', a, q)
    ensures LocationOk(s', q)
  {
    SplitHeld(s, a, q);
    SplitHeld(s', a, q);
    SameElse(s, s', a, q);
  }

  lemma SparedWinner(s: State, s': State, a: ActivationId, q: PromiseId)
    requires q in s.promises && q in s'.promises
    requires WinnerOk(s, q) && LockOk(s, q) && SameOthers(s, s', a) && Keeps(s, s', a, q)
    ensures WinnerOk(s', q) && LockOk(s', q)
  {
    var pr := s.promises[q];
    if pr.winner != a { OtherActivation(s, s', a, pr.winner); }
    if pr.resultLock.Some? && pr.resultLock.value != a { OtherActivation(s, s', a, pr.resultLock.value); }
  }

  lemma SparedRegistry(s: State, s': State, a: ActivationId, q: PromiseId)
    requires q in s.promises && q in s'.promises
    requires RegistryOk(s, q) && SameOthers(s, s', a) && Keeps(s, s', a, q)
    ensures RegistryOk(s', q)
  {
    if s.promises[q].creator != a { OtherActivation(s, s', a, s.promises[q].creator); }
  }

  lemma SparedPromise(s: State, s': State, a: ActivationId, q: PromiseId)
    requires q in s.promises && q in s'.promises
    requires PromiseOk(s, q) && SameOthers(s, s', a) && Spares(s, s', a, q)
    ensures PromiseOk(s', q)
  {
    SparedWinner(s, s', a, q);
    SparedRegistry(s, s', a, q);
    SparedLocation(s, s', a, q);
  }

  ghost predicate SparesAllBut(s: State, s': State, a: ActivationId, touched: set<PromiseId>) {
    && s.promises.Keys <= s'.promises.Keys
    && s'.promises.Keys - s.promises.Keys <= touched
    && forall q {:trigger Spares(s, s', a, q)} :: q in s.promises && q !in touched ==> Spares(s, s', a, q)
  }

  lemma StablePromises(s: State, s': State, a: ActivationId, touched: set<PromiseId>)
    requires PromisesOk(s) && SameOthers(s, s', a) && SparesAllBut(s, s', a, touched)
    requires forall q {:trigger PromiseOk(s', q)} :: q in s'.promises && q in touched ==> PromiseOk(s', q)
    ensures PromisesOk(s')
  {
    forall q | q in s'.promises ensures PromiseOk(s', q) {
      if q !in touched {
        assert q in s.promises;
        assert PromiseOk(s, q) && Spares(s, s', a, q);
        SparedPromise(s, s', a, q);
      }
    }
  }

  // ---- activations ----

  lemma StableLists(s: State, s': State, a: ActivationId, list: set<PromiseId>)
    requires Guarantees(s, s', a)
    ensures AllStored(s, list) ==> AllStored(s', list)
    ensures AllRegistered(s, list) ==> AllRegistered(s', list)
  {
    forall p | p in list && Stored(s, p) ensures Stored(s', p) {
      assert Guarantee(s.promises[p], s'.promises[p], a);
    }
    forall p | p in list && IsRegistered(s, p) ensures IsRegistered(s', p) {
      assert Guarantee(s.promises[p], s'.promises[p], a);
    }
    if AllStored(s, list) { assert forall p | p in list :: Stored(s, p); }
    if AllRegistered(s, list) { assert forall p | p in list :: IsRegistered(s, p); }
  }

  lemma StablePc(s: State, s': State, a: ActivationId, b: ActivationId, pc: Pc)
    requires b != a && PcOk(s, b, pc)
    requires Guarantees(s, s', a)
    requires Quiet(s, s') || !JsOnly(pc) || (pc.Settling? && (pc.settle.SettleDeferred? || pc.settle.SettleDestroy?))
    ensures PcOk(s', b, pc)
  {
    if pc.Drained? {
      StableLists(s, s', a, pc.list);
    } else if Mentions(pc) != {} {
      assert pc.p in s.promises ==> Guarantee(s.promises[pc.p], s'.promises[pc.p], a);
    }
  }

  lemma StableContinuation(s: State, s': State, a: ActivationId, b: ActivationId, act: Activation)
    requires b != a && ContinuationOk(s, b, act)
    requires Guarantees(s, s', a)
    requires Quiet(s, s') || !act.onJs || Parked(act)
    ensures ContinuationOk(s', b, act)
  {
    if !act.k.Return? { StableLists(s, s', a, act.k.list); }
  }

  lemma StableActivations(s: State, s': State, a: ActivationId)
    requires ActsOk(s) && SameOthers(s, s', a) && Guarantees(s, s', a)
    requires a in s'.acts ==> ActOk(s', a)
    requires Quiet(s, s') || OthersParked(s, a)
    ensures ActsOk(s')
  {
    forall b | b in s'.acts ensures ActOk(s', b) {
      if b != a {
        OtherActivation(s, s', a, b);
        assert ActOk(s, b);
        assert Parked(s.acts[b]) || true;
        StablePc(s, s', a, b, s.acts[b].pc);
        StableContinuation(s, s', a, b, s.acts[b]);
      }
    }
  }

  lemma StableExclusive(s: State, s': State, a: ActivationId)
    requires Exclusive(s) && SameOthers(s, s', a)
    requires a in s'.acts && s'.acts[a].onJs && !Parked(s'.acts[a]) ==> OthersParked(s, a)
    ensures Exclusive(s')
  {
    forall b | b in s'.acts && b != a ensures b in s.acts && s.acts[b] == s'.acts[b] {
      OtherActivation(s, s', a, b);
    }
  }

  // ---- the reference to the thread-safe function ----

  lemma SameReferences(s: State, s': State, a: ActivationId)
    requires ReferenceOk(s) && SameOthers(s, s', a)
    requires s'.refs == s.refs && s'.d.tsfnReferenced == s.d.tsfnReferenced
    requires s'.d.registry == s.d.registry && s'.d.closing == s.d.closing
    requires a in s.acts ==> !Critical(s.acts[a].pc)
    requires a in s'.acts ==> !Critical(s'.acts[a].pc)
    ensures ReferenceOk(s')
  {
    forall b | b != a ensures (b in s.acts <==> b in s'.acts) && (b in s.acts ==> s'.acts[b] == s.acts[b]) {
      OtherActivation(s, s', a, b);
    }
    forall b | b in s'.acts && !s'.d.closing ensures CriticalOk(s', s'.acts[b].pc) {
      if b != a { assert CriticalOk(s, s.acts[b].pc); }
    }
  }

  /** Puts the invariant of the next state together from what the step did locally. */
  lemma Assemble(s: State, s': State, a: ActivationId, touched: set<PromiseId>)
    requires Inv(s) && SameOthers(s, s', a) && Guarantees(s, s', a) && SparesAllBut(s, s', a, touched)
    requires forall q {:trigger PromiseOk(s', q)} :: q in s'.promises && q in touched ==> PromiseOk(s', q)
    requires a in s'.acts ==> ActOk(s', a)
    requires Quiet(s, s') || OthersParked(s, a)
    requires a in s'.acts && s'.acts[a].onJs && !Parked(s'.acts[a]) ==> OthersParked(s, a)
    requires Known(s') && PhaseOk(s') && ReferenceOk(s')
    ensures Inv(s')
  {
    StablePromises(s, s', a, touched);
    StableActivations(s, s', a);
    StableExclusive(s, s', a);
  }

  /** Nothing is taken from the activation that it was to hand on. */
  predicate Retains(act: Activation, act': Activation) {
    Holds(act) <= Holds(act') && Delivers(act.pc) <= Delivers(act'.pc) && OwedBy(act) <= OwedBy(act')
  }

  lemma RetainSpares(s: State, s': State, a: ActivationId)
    requires a in s.acts && a in s'.acts && SameOthers(s, s', a) && !Pivotal(s.acts[a].pc)
    requires s'.promises == s.promises && s'.d == s.d && s'.queued == s.queued && s'.tsfn == s.tsfn && s'.cleaner == s.cleaner
    requires Retains(s.acts[a], s'.acts[a])
    ensures Guarantees(s, s', a) && SparesAllBut(s, s', a, {})
  {
    if s.cleaner.Some? && s.cleaner.value != a { OtherActivation(s, s', a, s.cleaner.value); }
  }

  /** A step that only moves the program counter or the loop of its activation. */
  lemma PureMove(s: State, a: ActivationId, act': Activation)
    requires Inv(s) && a in s.acts && act'.onJs == s.acts[a].onJs
    requires !Pivotal(s.acts[a].pc) && !Critical(s.acts[a].pc) && !Critical(act'.pc)
    requires Retains(s.acts[a], act')
    requires ActOk(Enter(s, a, act'), a)
    requires act'.onJs ==> OthersParked(s, a)
    ensures Inv(Enter(s, a, act'))
  {
    var s' := Enter(s, a, act');
    SameReferences(s, s', a);
    RetainSpares(s, s', a);
    Assemble(s, s', a, {});
  }

  /** Besides its own progress, the step of `a` concerns promise `p` only. */
  predicate OnlyPromise(s: State, s': State, a: ActivationId, p: PromiseId) {
    && a in s.acts && p in s.promises && p in s'.promises
    && s'.promises == s.promises[p := s'.promises[p]]
    && Mentions(s.acts[a].pc) <= {p}
    && HoldsAt(s, a) - {p} <= HoldsAt(s', a)
    && (s.acts[a].k.CleanupRegistry? ==> a in s'.acts && s'.acts[a].k == s.acts[a].k)
    && s'.tsfn - {p} == s.tsfn - {p}
    && s'.queued - multiset{p} <= s.queued
    && s'.d.registry - {p} == s.d.registry - {p}
    && (s'.d.queue.Some? <==> s.d.queue.Some?)
    && (s.d.queue.Some? ==> s'.d.queue.value.pending - {p} == s.d.queue.value.pending - {p})
    && s'.cleaner == s.cleaner
  }

  lemma OnlySpares(s: State, s': State, a: ActivationId, p: PromiseId, q: PromiseId)
    requires Inv(s) && OnlyPromise(s, s', a, p) && SameOthers(s, s', a) && q in s.promises && q != p
    ensures Spares(s, s', a, q)
  {
    assert q in s.tsfn <==> q in s.tsfn - {p};
    assert q in s'.tsfn <==> q in s'.tsfn - {p};
    assert q in s.d.registry <==> q in s.d.registry - {p};
    assert q in s'.d.registry <==> q in s'.d.registry - {p};
    assert s.d.queue.Some? ==> (q in s.d.queue.value.pending <==> q in s.d.queue.value.pending - {p});
    assert s.d.queue.Some? ==> (q in s'.d.queue.value.pending <==> q in s'.d.queue.value.pending - {p});
    assert q in s'.queued <==> q in s'.queued - multiset{p};
    assert q in HoldsAt(s, a) ==> q in HoldsAt(s, a) - {p};
    if s.cleaner.Some? && s.cleaner.value != a { OtherActivation(s, s', a, s.cleaner.value); }
    assert Delivers(s.acts[a].pc) <= Mentions(s.acts[a].pc);
  }

  lemma OnePromise(s: State, s': State, a: ActivationId, p: PromiseId)
    requires Inv(s) && OnlyPromise(s, s', a, p) && SameOthers(s, s', a)
    requires Guarantee(s.promises[p], s'.promises[p], a)
    requires PromiseOk(s', p)
    requires a in s'.acts ==> ActOk(s', a)
    requires Quiet(s, s') || OthersParked(s, a)
    requires a in s'.acts && s'.acts[a].onJs ==> OthersParked(s, a)
    requires Known(s') && PhaseOk(s') && ReferenceOk(s')
    ensures Inv(s')
  {
    forall q | q in s.promises && q != p ensures Spares(s, s', a, q) { OnlySpares(s, s', a, p, q); }
    assert SparesAllBut(s, s', a, {p});
    assert Guarantees(s, s', a) by {
      forall q | q in s.promises ensures Guarantee(s.promises[q], s'.promises[q], a) {}
    }
    Assemble(s, s', a, {p});
  }

  /** The state after an activation moved to `act'` and left promise `p` as `pr'`. */
  function Change(s: State, a: ActivationId, act': Activation, p: PromiseId, pr': Promise): State {
    s.(acts := s.acts[a := act'], promises := s.promises[p := pr'])
  }

  /** The control flow from `pc` to `pc'` stays inside the same loop and on the same kind of thread. */
  predicate Flows(pc: Pc, pc': Pc) {
    && !LoopPc(pc) && !LoopPc(pc')
    && (DrainPc(pc) ==> DrainPc(pc')) && (CleanupPc(pc) ==> CleanupPc(pc')) && (JsOnly(pc') ==> JsOnly(pc))
  }

  lemma FlowsOk(s: State, s': State, a: ActivationId, act: Activation, act': Activation)
    requires ContinuationOk(s, a, act) && act'.k == act.k && act'.onJs == act.onJs && Flows(act.pc, act'.pc)
    requires Guarantees(s, s', a) && (Quiet(s, s') || act.k.Return? || act.k.DrainLoop?)
    ensures ContinuationOk(s', a, act')
  {
    if !act.k.Return? { StableLists(s, s', a, act.k.list); }
  }

  /** What is local to a step that concerns one promise. */
  predicate LocalStep(s: State, a: ActivationId, act': Activation, p: PromiseId, pr': Promise) {
    && a in s.acts && p in s.promises && Mentions(s.acts[a].pc) == {p}
    && act'.onJs == s.acts[a].onJs && (act'.onJs ==> OthersParked(s, a))
    && act'.k == s.acts[a].k && Flows(s.acts[a].pc, act'.pc)
    && !Critical(s.acts[a].pc) && !Critical(act'.pc)
    && Guarantee(s.promises[p], pr', a)
  }

  /** A step that changes nothing but its activation and promise `p`. */
  predicate Changes(s: State, s': State, a: ActivationId, p: PromiseId) {
    && a in s'.acts && p in s'.promises
    && s' == Change(s, a, s'.acts[a], p, s'.promises[p])
    && LocalStep(s, a, s'.acts[a], p, s'.promises[p])
    && PcOk(s', a, s'.acts[a].pc)
  }

  lemma ChangePreserves(s: State, s': State, a: ActivationId, p: PromiseId)
    requires Inv(s) && Changes(s, s', a, p) && PromiseOk(s', p)
    ensures Inv(s')
  {
    assert HoldsPc(s.acts[a].pc) <= {p};
    assert ActOk(s, a);
    assert OnlyPromise(s, s', a, p);
    assert Guarantees(s, s', a);
    FlowsOk(s, s', a, s.acts[a], s'.acts[a]);
    SameReferences(s, s', a);
    OnePromise(s, s', a, p);
  }

  /** As Changes, but the step may also move `p` in or out of a shadow map, a DispatcherQueue or the thread-safe function. */
  predicate Transfers(s: State, s': State, a: ActivationId, p: PromiseId) {
    && a in s'.acts && p in s'.promises
    && s' == Change(s, a, s'.acts[a], p, s'.promises[p]).(d := s'.d, queued := s'.queued, tsfn := s'.tsfn)
    && LocalStep(s, a, s'.acts[a], p, s'.promises[p])
    && (s'.d == s.d || s'.d == InsertPending(s.d, p).0 || s'.d == RemovePending(s.d, p))
    && (s'.queued == s.queued || s'.queued == s.queued + multiset{p})
    && (s'.tsfn == s.tsfn || s'.tsfn == s.tsfn + {p})
    && PcOk(s', a, s'.acts[a].pc)
  }

  lemma TransferQuiet(s: State, s': State, a: ActivationId, p: PromiseId)
    requires Inv(s) && Transfers(s, s', a, p)
    ensures Known(s') && PhaseOk(s') && Quiet(s, s') && OnlyPromise(s, s', a, p)
  {
    assert HoldsPc(s.acts[a].pc) <= {p};
  }

  lemma TransferPreserves(s: State, s': State, a: ActivationId, p: PromiseId)
    requires Inv(s) && Transfers(s, s', a, p) && PromiseOk(s', p)
    ensures Inv(s')
  {
    TransferQuiet(s, s', a, p);
    assert ActOk(s, a);
    assert Guarantees(s, s', a);
    FlowsOk(s, s', a, s.acts[a], s'.acts[a]);
    SameReferences(s, s', a);
    OnePromise(s, s', a, p);
  }
}
