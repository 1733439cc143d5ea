/** What the registry and the shadow map hold, exactly: neither keeps an entry that is done with. */
module AsyncBookkeeping {
  import opened Wrappers
  import opened AsyncDispatcher
  import opened AsyncPromise
  import opened AsyncInvariant
  import opened AsyncReachable
  import opened AsyncTheorems

  // ---- the registry ----

  /** The winner of the settlement race has not taken the promise out of the registry yet. */
  predicate AtWork(s: State, a: ActivationId, p: PromiseId) {
    a in s.acts && (s.acts[a].pc.Settling? || s.acts[a].pc.Finishing?) && s.acts[a].pc.p == p
  }

  predicate EntryOk(s: State, p: PromiseId)
    requires p in s.promises
  {
    var pr := s.promises[p];
    && (p in s.d.registry && pr.fate.Settled? ==> AtWork(s, pr.winner, p))
    && (pr.registration.Registered? && !pr.fate.Settled? && !s.drained ==> p in s.d.registry)
  }

  predicate EntriesOk(s: State) {
    forall p {:trigger s.promises[p]} :: p in s.promises ==> EntryOk(s, p)
  }

  /** All activations but `a` are where they were. */
  predicate OthersStay(s: State, s': State, a: ActivationId) {
    forall b {:trigger s.acts[b]} :: b in s.acts && b != a ==> b in s'.acts && s'.acts[b] == s.acts[b]
  }

  /** The step neither starts nor ends a settlement, and registers a promise only together with its entry. */
  predicate Settleless(s: State, s': State, p: PromiseId)
    requires p in s'.promises
  {
    var pr' := s'.promises[p];
    && (pr'.fate.Settled? ==> p in s.promises && s.promises[p].fate.Settled? && s.promises[p].winner == pr'.winner)
    && (p in s'.d.registry && pr'.fate.Settled? ==> p in s.d.registry)
    && (pr'.registration.Registered? && !s'.drained && !pr'.fate.Settled? ==> p in s'.d.registry)
  }

  ghost predicate AllSettleless(s: State, s': State, a: ActivationId) {
    OthersStay(s, s', a) && forall p {:trigger s'.promises[p]} :: p in s'.promises ==> Settleless(s, s', p)
  }

  lemma SettlelessKeeps(s: State, s': State, a: ActivationId)
    requires EntriesOk(s) && AllSettleless(s, s', a)
    requires a in s.acts ==> !s.acts[a].pc.Settling? && !s.acts[a].pc.Finishing?
    ensures EntriesOk(s')
  {
    forall p | p in s'.promises ensures EntryOk(s', p) {
      assert Settleless(s, s', p);
      if p in s.promises { assert EntryOk(s, p); }
    }
  }

  /** Only one promise, and its entry, are concerned. */
  lemma OneSettleless(s: State, s': State, a: ActivationId, p: PromiseId)
    requires EntriesOk(s) && OthersStay(s, s', a) && p in s.promises && p in s'.promises && Settleless(s, s', p)
    requires forall q :: q in s'.promises && q != p ==> q in s.promises && s'.promises[q] == s.promises[q]
    requires forall q :: q != p ==> (q in s'.d.registry <==> q in s.d.registry)
    requires s'.drained == s.drained
    ensures AllSettleless(s, s', a)
  {
    forall q | q in s'.promises ensures Settleless(s, s', q) {
      if q != p { assert EntryOk(s, q); }
    }
  }

  lemma CompleteSettleless(s: State, a: ActivationId, at: CompletePoint, p: PromiseId, r: Completion)
    requires a in s.acts && p in s.promises && EntriesOk(s)
    ensures AllSettleless(s, ExecuteComplete(s, a, at, p, r), a)
  {
    assert EntryOk(s, p);
    OneSettleless(s, ExecuteComplete(s, a, at, p, r), a, p);
  }

  lemma FallbackSettleless(s: State, a: ActivationId, at: FallbackPoint, p: PromiseId, answer: Answer)
    requires a in s.acts && p in s.promises && EntriesOk(s)
    ensures AllSettleless(s, ExecuteFallback(s, a, at, p, answer), a)
  {
    assert EntryOk(s, p);
    OneSettleless(s, ExecuteFallback(s, a, at, p, answer), a, p);
  }

  lemma AbandonSettleless(s: State, a: ActivationId, at: AbandonPoint, p: PromiseId)
    requires a in s.acts && p in s.promises && EntriesOk(s) && (s.promises[p].fate.Settled? ==> s.promises[p].settled)
    ensures AllSettleless(s, ExecuteAbandon(s, a, at, p), a)
  {
    assert EntryOk(s, p);
    OneSettleless(s, ExecuteAbandon(s, a, at, p), a, p);
  }

  lemma RegisterEntry(s: State, a: ActivationId, at: RegisterPoint, p: PromiseId, answer: Answer)
    requires a in s.acts && p in s.promises && EntryOk(s, p) && s.promises[p].fate.Open?
    requires at.RegisterStore? ==> p in s.d.registry
    ensures p in ExecuteRegister(s, a, at, p, answer).promises && Settleless(s, ExecuteRegister(s, a, at, p, answer), p)
  {
  }

  lemma RegisterSettleless(s: State, a: ActivationId, at: RegisterPoint, p: PromiseId, answer: Answer)
    requires a in s.acts && p in s.promises && EntriesOk(s) && s.promises[p].fate.Open?
    requires at.RegisterStore? ==> p in s.d.registry
    ensures AllSettleless(s, ExecuteRegister(s, a, at, p, answer), a)
  {
    RegisterEntry(s, a, at, p, answer);
    OneSettleless(s, ExecuteRegister(s, a, at, p, answer), a, p);
  }

  /** The step changes no promise, and takes nothing out of the registry unless it empties it for good. */
  lemma PlainSettleless(s: State, s': State, a: ActivationId)
    requires EntriesOk(s) && OthersStay(s, s', a) && s'.promises == s.promises
    requires (s'.d.registry == s.d.registry && s'.drained == s.drained) || (s'.drained && s'.d.registry == {})
    ensures AllSettleless(s, s', a)
  {
    forall q | q in s'.promises ensures Settleless(s, s', q) { assert EntryOk(s, q); }
  }

  lemma RouteSettleless(s: State, a: ActivationId, at: RoutePoint, p: PromiseId, answer: Answer)
    requires a in s.acts && EntriesOk(s)
    ensures AllSettleless(s, ExecuteRoute(s, a, at, p, answer), a)
  {
    PlainSettleless(s, ExecuteRoute(s, a, at, p, answer), a);
  }

  lemma CallbackSettleless(s: State, a: ActivationId, at: CallbackPoint, p: PromiseId, answer: Answer)
    requires a in s.acts && EntriesOk(s)
    ensures AllSettleless(s, ExecuteCallback(s, a, at, p, answer), a)
  {
    PlainSettleless(s, ExecuteCallback(s, a, at, p, answer), a);
  }

  lemma CleanupSettleless(s: State, a: ActivationId, at: CleanupPoint)
    requires a in s.acts && EntriesOk(s)
    ensures AllSettleless(s, ExecuteCleanup(s, a, at), a)
  {
    PlainSettleless(s, ExecuteCleanup(s, a, at), a);
  }

  lemma NextPlain(s: State, a: ActivationId, answer: Answer)
    requires a in s.acts && s.acts[a].pc.NextItem? && GoodAnswer(s.acts[a], answer)
    ensures var s' := ExecuteNext(s, a, answer); OthersStay(s, s', a) && s' == s.(acts := s'.acts)
  {
  }

  lemma DropSettleless(s: State, a: ActivationId)
    requires a in s.acts && EntriesOk(s)
    ensures AllSettleless(s, ExecuteDrop(s, a), a)
  {
    var s' := ExecuteDrop(s, a);
    forall q | q in s'.promises ensures Settleless(s, s', q) { assert EntryOk(s, q); }
  }

  lemma LoopSettleless(s: State, a: ActivationId, answer: Answer)
    requires Ready(s, a) && GoodAnswer(s.acts[a], answer) && EntriesOk(s)
    requires var pc := s.acts[a].pc; pc.Unreferencing? || pc.Draining? || pc.Drained? || pc.NextItem? || pc.DroppingQueue? || pc.Installing?
    ensures AllSettleless(s, Execute(s, a, answer), a)
  {
    var s' := Execute(s, a, answer);
    if s.acts[a].pc.DroppingQueue? {
      DropSettleless(s, a);
    } else {
      if s.acts[a].pc.NextItem? { NextPlain(s, a, answer); }
      PlainSettleless(s, s', a);
    }
  }

  // The steps that do start and end settlements.
  lemma SettleOwnEntry(s: State, a: ActivationId, at: SettlePoint, p: PromiseId, answer: Answer)
    requires a in s.acts && p in s.promises && EntryOk(s, p) && s.acts[a].pc == Settling(at, p)
    requires s.promises[p].fate.Settled? && s.promises[p].winner == a
    ensures p in ExecuteSettle(s, a, at, p, answer).promises && EntryOk(ExecuteSettle(s, a, at, p, answer), p)
  {
  }

  lemma SettleOtherEntry(s: State, a: ActivationId, at: SettlePoint, p: PromiseId, answer: Answer, q: PromiseId)
    requires a in s.acts && p in s.promises && q in s.promises && q != p && EntryOk(s, q) && s.acts[a].pc == Settling(at, p)
    ensures q in ExecuteSettle(s, a, at, p, answer).promises && EntryOk(ExecuteSettle(s, a, at, p, answer), q)
  {
  }

  lemma SettleEntries(s: State, a: ActivationId, at: SettlePoint, p: PromiseId, answer: Answer)
    requires a in s.acts && p in s.promises && EntriesOk(s) && s.acts[a].pc == Settling(at, p)
    requires s.promises[p].fate.Settled? && s.promises[p].winner == a
    ensures EntriesOk(ExecuteSettle(s, a, at, p, answer))
  {
    var s' := ExecuteSettle(s, a, at, p, answer);
    SettleKeys(s, a, at, p, answer);
    forall q | q in s'.promises ensures EntryOk(s', q) {
      assert EntryOk(s, q);
      if q == p { SettleOwnEntry(s, a, at, p, answer); } else { SettleOtherEntry(s, a, at, p, answer, q); }
    }
  }

  lemma SettleKeys(s: State, a: ActivationId, at: SettlePoint, p: PromiseId, answer: Answer)
    requires a in s.acts && p in s.promises
    ensures ExecuteSettle(s, a, at, p, answer).promises.Keys == s.promises.Keys
  {
  }

  lemma DecideEntries(s: State, a: ActivationId, at: DecidePoint, p: PromiseId)
    requires a in s.acts && p in s.promises && EntriesOk(s) && s.acts[a].pc == Deciding(at, p)
    ensures EntriesOk(ExecuteDecide(s, a, at, p))
  {
    var s' := ExecuteDecide(s, a, at, p);
    forall q | q in s'.promises ensures EntryOk(s', q) { assert EntryOk(s, q); }
  }

  lemma FinishEntries(s: State, a: ActivationId, p: PromiseId)
    requires a in s.acts && p in s.promises && EntriesOk(s) && s.acts[a].pc == Finishing(p)
    requires s.promises[p].fate.Settled?
    ensures EntriesOk(ExecuteFinish(s, a, p))
  {
    var s' := ExecuteFinish(s, a, p);
    forall q | q in s'.promises ensures EntryOk(s', q) { assert EntryOk(s, q); }
  }

  lemma DeliveryEntries(s: State, a: ActivationId, answer: Answer)
    requires Inv(s) && EntriesOk(s) && Ready(s, a) && GoodAnswer(s.acts[a], answer)
    requires var pc := s.acts[a].pc; pc.Completing? || pc.Routing? || pc.Falling? || pc.Calling? || pc.Registering? || pc.Abandoning?
    ensures AllSettleless(s, Execute(s, a, answer), a)
  {
    assert ActOk(s, a) && PromiseOk(s, s.acts[a].pc.p);
    match s.acts[a].pc
    case Completing(at, p, r) => CompleteSettleless(s, a, at, p, r);
    case Routing(at, p) => RouteSettleless(s, a, at, p, answer);
    case Falling(at, p) => FallbackSettleless(s, a, at, p, answer);
    case Calling(at, p) => CallbackSettleless(s, a, at, p, answer);
    case Registering(at, p) => RegisterSettleless(s, a, at, p, answer);
    case Abandoning(at, p) => AbandonSettleless(s, a, at, p);
  }

  lemma SettlementEntries(s: State, a: ActivationId, answer: Answer)
    requires Inv(s) && EntriesOk(s) && Ready(s, a) && GoodAnswer(s.acts[a], answer)
    requires var pc := s.acts[a].pc; pc.Settling? || pc.Deciding? || pc.Finishing?
    ensures EntriesOk(Execute(s, a, answer))
  {
    assert ActOk(s, a);
    match s.acts[a].pc
    case Settling(at, p) => SettleEntries(s, a, at, p, answer);
    case Deciding(at, p) => DecideEntries(s, a, at, p);
    case Finishing(p) => FinishEntries(s, a, p);
  }

  lemma StepEntries(s: State, a: ActivationId, answer: Answer)
    requires Inv(s) && EntriesOk(s) && Ready(s, a) && GoodAnswer(s.acts[a], answer)
    ensures EntriesOk(Execute(s, a, answer))
  {
    var pc := s.acts[a].pc;
    if pc.Settling? || pc.Deciding? || pc.Finishing? {
      SettlementEntries(s, a, answer);
    } else {
      assert AllSettleless(s, Execute(s, a, answer), a) by {
        if pc.Cleaning? { CleanupSettleless(s, a, pc.cleanup); }
        else if Promiseless(pc) { LoopSettleless(s, a, answer); }
        else { DeliveryEntries(s, a, answer); }
      }
      SettlelessKeeps(s, Execute(s, a, answer), a);
    }
  }

  lemma LabelEntries(s: State, l: Label)
    requires Inv(s) && EntriesOk(s) && Enabled(s, l)
    ensures EntriesOk(Apply(s, l))
  {
    var s' := Apply(s, l);
    if l.Step? {
      StepEntries(s, l.a, l.answer);
    } else {
      forall q | q in s'.promises ensures EntryOk(s', q) {
        if q in s.promises { assert EntryOk(s, q); }
      }
    }
  }

  lemma {:induction false} RunEntries(s: State, labels: seq<Label>)
    requires Inv(s) && EntriesOk(s) && Run(s, labels).Some?
    ensures EntriesOk(Run(s, labels).value)
    decreases |labels|
  {
    if labels != [] {
      LabelPreserves(s, labels[0]);
      LabelEntries(s, labels[0]);
      RunEntries(Apply(s, labels[0]), labels[1..]);
    }
  }

  /**
   Until cleanup takes the registry, a registered promise nobody works on has an entry
   exactly when it is not settled. So a finished promise never keeps the event loop alive,
   and one that was abandoned before cleanup does.
   */
  lemma RegistryExact(labels: seq<Label>, s: State, p: PromiseId)
    requires Reaches(labels, s) && p in s.promises && s.promises[p].registration.Registered? && !s.drained && Unattended(s, p)
    ensures p in s.d.registry <==> !s.promises[p].fate.Settled?
  {
    InitialInv();
    RunEntries(INITIAL, labels);
    assert EntryOk(s, p);
  }

  // ---- the shadow map ----

  /** The activation is between shadowing the promise and the callback's removal of the shadow. */
  predicate BacksPc(pc: Pc, p: PromiseId) {
    pc == Routing(RouteEnqueue, p) || pc == Routing(RouteRemove, p) || pc == Calling(CallbackRemove, p)
  }

  ghost predicate Backed(s: State, p: PromiseId) {
    p in s.queued || exists a :: a in s.acts && BacksPc(s.acts[a].pc, p)
  }

  ghost predicate ShadowsBacked(s: State) {
    forall p :: s.d.Shadows(p) ==> Backed(s, p)
  }

  lemma StillBacked(s: State, s': State, a: ActivationId, p: PromiseId)
    requires Backed(s, p) && a in s.acts && !BacksPc(s.acts[a].pc, p)
    requires OthersStay(s, s', a)
    requires p in s.queued ==> p in s'.queued
    ensures Backed(s', p)
  {
    if p !in s'.queued {
      var b :| b in s.acts && BacksPc(s.acts[b].pc, p);
      assert b in s'.acts && BacksPc(s'.acts[b].pc, p);
    }
  }

  lemma RouteBacked(s: State, a: ActivationId, at: RoutePoint, p: PromiseId, answer: Answer)
    requires a in s.acts && s.acts[a].pc == Routing(at, p) && ShadowsBacked(s)
    ensures ShadowsBacked(ExecuteRoute(s, a, at, p, answer))
  {
    var s' := ExecuteRoute(s, a, at, p, answer);
    forall q | s'.d.Shadows(q) ensures Backed(s', q) {
      if q == p && (at.RouteEnqueue? || (at.RouteInsert? && s.d.Accepting())) {
        assert a in s'.acts;
        assert p in s'.queued || BacksPc(s'.acts[a].pc, p);
      } else {
        StillBacked(s, s', a, q);
      }
    }
  }

  lemma CallbackBacked(s: State, a: ActivationId, at: CallbackPoint, p: PromiseId, answer: Answer)
    requires a in s.acts && s.acts[a].pc == Calling(at, p) && ShadowsBacked(s)
    ensures ShadowsBacked(ExecuteCallback(s, a, at, p, answer))
  {
    var s' := ExecuteCallback(s, a, at, p, answer);
    forall q | s'.d.Shadows(q) ensures Backed(s', q) { StillBacked(s, s', a, q); }
  }

  /** The step shadows nothing and leaves the queue and all other activations alone. */
  ghost predicate Shadowless(s: State, s': State, a: ActivationId) {
    (forall q :: s'.d.Shadows(q) ==> s.d.Shadows(q)) && s'.queued == s.queued && OthersStay(s, s', a)
  }

  lemma CompleteShadowless(s: State, a: ActivationId, at: CompletePoint, p: PromiseId, r: Completion)
    requires a in s.acts && p in s.promises
    ensures Shadowless(s, ExecuteComplete(s, a, at, p, r), a)
  {
  }

  lemma FallbackShadowless(s: State, a: ActivationId, at: FallbackPoint, p: PromiseId, answer: Answer)
    requires a in s.acts && p in s.promises
    ensures Shadowless(s, ExecuteFallback(s, a, at, p, answer), a)
  {
  }

  lemma AbandonShadowless(s: State, a: ActivationId, at: AbandonPoint, p: PromiseId)
    requires a in s.acts && p in s.promises
    ensures Shadowless(s, ExecuteAbandon(s, a, at, p), a)
  {
  }

  lemma DecideShadowless(s: State, a: ActivationId, at: DecidePoint, p: PromiseId)
    requires a in s.acts && p in s.promises
    ensures Shadowless(s, ExecuteDecide(s, a, at, p), a)
  {
  }

  lemma SettleShadowless(s: State, a: ActivationId, at: SettlePoint, p: PromiseId, answer: Answer)
    requires a in s.acts && p in s.promises
    ensures Shadowless(s, ExecuteSettle(s, a, at, p, answer), a)
  {
  }

  lemma RegisterShadowless(s: State, a: ActivationId, at: RegisterPoint, p: PromiseId, answer: Answer)
    requires a in s.acts && p in s.promises
    ensures Shadowless(s, ExecuteRegister(s, a, at, p, answer), a)
  {
  }

  lemma CleanupShadowless(s: State, a: ActivationId, at: CleanupPoint)
    requires a in s.acts
    ensures Shadowless(s, ExecuteCleanup(s, a, at), a)
  {
  }

  lemma LoopShadowless(s: State, a: ActivationId, answer: Answer)
    requires Ready(s, a) && GoodAnswer(s.acts[a], answer) && Promiseless(s.acts[a].pc) && !s.acts[a].pc.Cleaning?
    ensures Shadowless(s, Execute(s, a, answer), a)
  {
    if s.acts[a].pc.NextItem? { NextPlain(s, a, answer); }
  }

  lemma PromiseShadowless(s: State, a: ActivationId, answer: Answer)
    requires Ready(s, a) && GoodAnswer(s.acts[a], answer)
    requires !Promiseless(s.acts[a].pc) && !s.acts[a].pc.Routing? && !s.acts[a].pc.Calling?
    ensures Shadowless(s, Execute(s, a, answer), a)
  {
    match s.acts[a].pc
    case Completing(at, p, r) => CompleteShadowless(s, a, at, p, r);
    case Falling(at, p) => FallbackShadowless(s, a, at, p, answer);
    case Abandoning(at, p) => AbandonShadowless(s, a, at, p);
    case Deciding(at, p) => DecideShadowless(s, a, at, p);
    case Settling(at, p) => SettleShadowless(s, a, at, p, answer);
    case Registering(at, p) => RegisterShadowless(s, a, at, p, answer);
    case Finishing(_) =>
  }

  lemma OtherBacked(s: State, a: ActivationId, answer: Answer)
    requires Ready(s, a) && GoodAnswer(s.acts[a], answer) && ShadowsBacked(s) && !s.acts[a].pc.Routing? && !s.acts[a].pc.Calling?
    ensures ShadowsBacked(Execute(s, a, answer))
  {
    var s', pc := Execute(s, a, answer), s.acts[a].pc;
    assert Shadowless(s, s', a) by {
      if pc.Cleaning? { CleanupShadowless(s, a, pc.cleanup); }
      else if Promiseless(pc) { LoopShadowless(s, a, answer); }
      else { PromiseShadowless(s, a, answer); }
    }
    ShadowlessBacked(s, s', a);
  }

  lemma ShadowlessBacked(s: State, s': State, a: ActivationId)
    requires a in s.acts && ShadowsBacked(s) && Shadowless(s, s', a) && !s.acts[a].pc.Routing? && !s.acts[a].pc.Calling?
    ensures ShadowsBacked(s')
  {
    forall q | s'.d.Shadows(q) ensures Backed(s', q) { StillBacked(s, s', a, q); }
  }

  lemma StepBacked(s: State, a: ActivationId, answer: Answer)
    requires Ready(s, a) && GoodAnswer(s.acts[a], answer) && ShadowsBacked(s)
    ensures ShadowsBacked(Execute(s, a, answer))
  {
    match s.acts[a].pc
    case Routing(at, p) => RouteBacked(s, a, at, p, answer);
    case Calling(at, p) => CallbackBacked(s, a, at, p, answer);
    case _ => OtherBacked(s, a, answer);
  }

  // An entering call leaves the dispatcher and all other calls as they were.
  lemma EnterBacked(s: State, a: ActivationId, act: Activation, p: PromiseId)
    requires a !in s.acts && Backed(s, p)
    ensures Backed(Enter(s, a, act), p)
  {
    if p !in s.queued {
      var b :| b in s.acts && BacksPc(s.acts[b].pc, p);
      assert b in Enter(s, a, act).acts && BacksPc(Enter(s, a, act).acts[b].pc, p);
    }
  }

  lemma QueueCallbackBacked(s: State, l: Label)
    requires Inv(s) && ShadowsBacked(s) && Enabled(s, l) && l.QueueCallback?
    ensures ShadowsBacked(Apply(s, l))
  {
    var s' := Apply(s, l);
    forall q | s'.d.Shadows(q) ensures Backed(s', q) {
      assert s.d.Shadows(q) && Backed(s, q);
      if q == l.p {
        assert l.a in s'.acts && BacksPc(s'.acts[l.a].pc, q);
      } else {
        EnterBacked(s, l.a, s'.acts[l.a], q);
        if q !in s'.queued { assert q !in s.queued; }
      }
    }
  }

  lemma LabelBacked(s: State, l: Label)
    requires Inv(s) && ShadowsBacked(s) && Enabled(s, l) && !l.QueueDiscards?
    ensures ShadowsBacked(Apply(s, l))
  {
    if l.Step? {
      StepBacked(s, l.a, l.answer);
    } else if l.QueueCallback? {
      QueueCallbackBacked(s, l);
    } else {
      var s' := Apply(s, l);
      forall q | s'.d.Shadows(q) ensures Backed(s', q) {
        assert s.d.Shadows(q) && Backed(s, q);
        if !l.TakeOperation? && !l.DropDispatcher? { EnterBacked(s, l.a, s'.acts[l.a], q); }
      }
    }
  }

  lemma {:induction false} RunBacked(s: State, labels: seq<Label>)
    requires Inv(s) && ShadowsBacked(s) && Run(s, labels).Some? && forall l :: l in labels ==> !l.QueueDiscards?
    ensures ShadowsBacked(Run(s, labels).value)
    decreases |labels|
  {
    if labels != [] {
      LabelPreserves(s, labels[0]);
      LabelBacked(s, labels[0]);
      RunBacked(Apply(s, labels[0]), labels[1..]);
    }
  }

  /**
   As long as no queue discards a callback, the shadow map keeps no stale entry: a shadowed
   promise has a callback waiting in a queue, one that is starting, or a router at work.
   */
  lemma NoStaleShadow(labels: seq<Label>, s: State, p: PromiseId)
    requires Reaches(labels, s) && (forall l :: l in labels ==> !l.QueueDiscards?) && s.d.Shadows(p)
    ensures p in s.queued || !Unattended(s, p)
  {
    InitialInv();
    RunBacked(INITIAL, labels);
    assert Backed(s, p);
  }
}
