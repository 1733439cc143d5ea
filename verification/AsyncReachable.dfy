/** The invariant in every reachable state, for every run of labels. */
module AsyncReachable {
  import opened Wrappers
  import opened AsyncDispatcher
  import opened AsyncPromise
  import opened AsyncInvariant
  import opened AsyncFrame
  import opened AsyncSteps
  import opened AsyncPreserves
  import opened AsyncRegistry

  lemma InitialInv()
    ensures Inv(INITIAL)
  {
  }

  lemma ExecutePreserves(s: State, a: ActivationId, answer: Answer)
    requires Inv(s) && Ready(s, a) && GoodAnswer(s.acts[a], answer)
    ensures Inv(Execute(s, a, answer))
  {
    match s.acts[a].pc
    case Completing(at, p, r) => CompletePreserves(s, a, at, p, r);
    case Routing(at, p) => RoutePreserves(s, a, at, p, answer);
    case Falling(at, p) => FallbackPreserves(s, a, at, p, answer);
    case Abandoning(at, p) => AbandonPreserves(s, a, at, p);
    case Calling(at, p) => CallbackPreserves(s, a, at, p, answer);
    case Deciding(at, p) => DecidePreserves(s, a, at, p);
    case Settling(at, p) => SettlePreserves(s, a, at, p, answer);
    case Registering(at, p) => RegisterPreserves(s, a, at, p, answer);
    case Finishing(p) => FinishPreserves(s, a, p);
    case Unreferencing => UnreferencePreserves(s, a, answer);
    case Draining => DrainPreserves(s, a);
    case Drained(list) => DrainedPreserves(s, a, list);
    case NextItem => NextPreserves(s, a, answer);
    case DroppingQueue => DropPreserves(s, a);
    case Cleaning(at) => CleanupPreserves(s, a, at);
    case Installing(checked) => InstallPreserves(s, a, checked);
  }

  // ---- labels that start an activation ----

  lemma EnterPreserves(s: State, a: ActivationId, act: Activation)
    requires Inv(s) && a !in s.acts && (act.onJs ==> OthersParked(s, a))
    requires !Critical(act.pc) && ActOk(Enter(s, a, act), a)
    ensures Inv(Enter(s, a, act))
  {
    var s' := Enter(s, a, act);
    SameReferences(s, s', a);
    assert Guarantees(s, s', a);
    assert SparesAllBut(s, s', a, {});
    Assemble(s, s', a, {});
  }

  lemma QueueCallbackPreserves(s: State, p: PromiseId, a: ActivationId)
    requires Inv(s) && Enabled(s, QueueCallback(p, a))
    ensures Inv(Apply(s, QueueCallback(p, a)))
  {
    var s' := Apply(s, QueueCallback(p, a));
    assert PromiseOk(s, p);
    SameReferences(s, s', a);
    assert Guarantees(s, s', a);
    assert SparesAllBut(s, s', a, {});
    Assemble(s, s', a, {});
  }

  lemma TsfnCallbackKeeps(s: State, p: PromiseId, a: ActivationId, envNull: bool)
    requires Inv(s) && Enabled(s, TsfnCallback(p, a, envNull))
    ensures p in s.promises && PromiseOk(Apply(s, TsfnCallback(p, a, envNull)), p)
  {
    var s' := Apply(s, TsfnCallback(p, a, envNull));
    assert PromiseOk(s, p);
    assert LocationOk(s', p) by { Relocate(s, s', a, p); }
    SparedWinner(s, s', a, p);
    SparedRegistry(s, s', a, p);
  }

  lemma TsfnCallbackPreserves(s: State, p: PromiseId, a: ActivationId, envNull: bool)
    requires Inv(s) && Enabled(s, TsfnCallback(p, a, envNull))
    ensures Inv(Apply(s, TsfnCallback(p, a, envNull)))
  {
    var s' := Apply(s, TsfnCallback(p, a, envNull));
    assert PromiseOk(s, p);
    TsfnCallbackKeeps(s, p, a, envNull);
    SameReferences(s, s', a);
    assert Guarantees(s, s', a);
    assert SparesAllBut(s, s', a, {p});
    Assemble(s, s', a, {p});
  }

  lemma CreateKeeps(s: State, p: PromiseId, a: ActivationId)
    requires Inv(s) && Enabled(s, Create(p, a))
    ensures PromiseOk(Apply(s, Create(p, a)), p)
  {
  }

  lemma CreatePreserves(s: State, p: PromiseId, a: ActivationId)
    requires Inv(s) && Enabled(s, Create(p, a))
    ensures Inv(Apply(s, Create(p, a)))
  {
    var s' := Apply(s, Create(p, a));
    CreateKeeps(s, p, a);
    SameReferences(s, s', a);
    assert Guarantees(s, s', a);
    assert SparesAllBut(s, s', a, {p});
    Assemble(s, s', a, {p});
  }

  // ---- labels that start nothing ----

  lemma SameActivations(s: State, s': State)
    requires ActsOk(s) && s'.acts == s.acts && Quiet(s, s')
    requires forall a :: Guarantees(s, s', a)
    ensures ActsOk(s')
  {
    forall b | b in s'.acts ensures ActOk(s', b) {
      assert ActOk(s, b);
      StablePc(s, s', b + 1, b, s.acts[b].pc);
      StableContinuation(s, s', b + 1, b, s.acts[b]);
    }
  }

  lemma SamePromises(s: State, s': State)
    requires PromisesOk(s) && s'.promises.Keys == s.promises.Keys
    requires s' == s.(promises := s'.promises, queued := s'.queued, alive := s'.alive) && s'.queued <= s.queued
    requires forall p {:trigger s'.promises[p]} :: p in s.promises ==>
      s'.promises[p] == s.promises[p] || s'.promises[p] == s.promises[p].(operation := false)
    ensures PromisesOk(s')
  {
    forall p | p in s'.promises ensures PromiseOk(s', p) {
      assert PromiseOk(s, p);
    }
  }

  lemma SameReference(s: State, s': State)
    requires ReferenceOk(s) && s'.acts == s.acts && s'.refs == s.refs && s'.d == s.d
    ensures ReferenceOk(s')
  {
    forall b | b in s'.acts && !s'.d.closing ensures CriticalOk(s', s'.acts[b].pc) {
      assert CriticalOk(s, s.acts[b].pc);
    }
  }

  lemma EnvironmentPreserves(s: State, l: Label)
    requires Inv(s) && Enabled(s, l) && (l.TakeOperation? || l.QueueDiscards? || l.DropDispatcher?)
    ensures Inv(Apply(s, l))
  {
    var s' := Apply(s, l);
    forall a ensures Guarantees(s, s', a) {}
    SameActivations(s, s');
    SamePromises(s, s');
    SameReference(s, s');
  }

  lemma CallCompletePreserves(s: State, l: Label)
    requires Inv(s) && Enabled(s, l) && l.Complete?
    ensures Inv(Apply(s, l))
  {
    assert PromiseOk(s, l.p);
    EnterPreserves(s, l.a, Apply(s, l).acts[l.a]);
  }

  lemma StartPreserves(s: State, l: Label)
    requires Inv(s) && Enabled(s, l)
    requires l.ShutdownStarting? || l.RegisterQueue? || l.UnregisterQueue? || l.CleanupEnv?
    ensures Inv(Apply(s, l))
  {
    EnterPreserves(s, l.a, Apply(s, l).acts[l.a]);
  }

  lemma LabelPreserves(s: State, l: Label)
    requires Inv(s) && Enabled(s, l)
    ensures Inv(Apply(s, l))
  {
    match l
    case Create(p, a) => CreatePreserves(s, p, a);
    case QueueCallback(p, a) => QueueCallbackPreserves(s, p, a);
    case TsfnCallback(p, a, envNull) => TsfnCallbackPreserves(s, p, a, envNull);
    case Step(a, answer) => ExecutePreserves(s, a, answer);
    case Complete(_, _, _, _) => CallCompletePreserves(s, l);
    case TakeOperation(_) => EnvironmentPreserves(s, l);
    case QueueDiscards(_) => EnvironmentPreserves(s, l);
    case DropDispatcher => EnvironmentPreserves(s, l);
    case _ => StartPreserves(s, l);
  }

  /** Every state of every run satisfies the invariant. */
  lemma {:induction false} RunPreserves(s: State, labels: seq<Label>)
    requires Inv(s) && Run(s, labels).Some?
    ensures Inv(Run(s, labels).value)
    decreases |labels|
  {
    if labels != [] {
      LabelPreserves(s, labels[0]);
      RunPreserves(Apply(s, labels[0]), labels[1..]);
    }
  }
}
