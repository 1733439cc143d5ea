/**
 When a caller can rule out the loss by `unregister_queue`: no queue is registered while an
 unregister is in progress. JavaScript that runs inside a settlement is the only place from
 which that can happen.
 */
module AsyncOrderly {
  import opened Wrappers
  import opened AsyncDispatcher
  import opened AsyncPromise
  import opened AsyncInvariant
  import opened AsyncReachable
  import opened AsyncProgress
  import opened AsyncTheorems
  import opened AsyncBookkeeping

  predicate InUnregister(act: Activation) {
    act.k.DrainLoop? && act.k.unregister
  }

  predicate Unregistering(s: State) {
    exists a :: a in s.acts && InUnregister(s.acts[a])
  }

  /** No `register_queue` begins while an `unregister_queue` is in progress. */
  predicate OrderlyRun(s: State, labels: seq<Label>)
    decreases |labels|
  {
    labels != [] && Enabled(s, labels[0]) ==>
      (labels[0].RegisterQueue? ==> !Unregistering(s)) && OrderlyRun(Apply(s, labels[0]), labels[1..])
  }

  predicate CallFails(s: State, l: Label) {
    l.Step? && l.a in s.acts && s.acts[l.a].pc.Falling? && s.acts[l.a].pc.fallback.FallbackCall? && l.answer.Failed?
  }

  /** Every call into the thread-safe function is answered ok or closing. */
  predicate CallsAnswered(s: State, labels: seq<Label>)
    decreases |labels|
  {
    labels != [] && Enabled(s, labels[0]) ==> !CallFails(s, labels[0]) && CallsAnswered(Apply(s, labels[0]), labels[1..])
  }

  /** An unregister that has drained its queue finds no other in its place. */
  predicate Orderly(s: State) {
    && (forall a {:trigger s.acts[a]} :: a in s.acts && InUnregister(s.acts[a]) && !s.acts[a].pc.Draining? ==> !s.d.Accepting())
    && (forall a {:trigger s.acts[a]} :: a in s.acts && s.acts[a].pc.Installing? ==> !Unregistering(s))
    && (forall a {:trigger s.acts[a]} :: a in s.acts && s.acts[a].pc.DroppingQueue? ==> InUnregister(s.acts[a]))
  }

  /** The step of `a` installs no queue, and goes on with an unregister only past its drain. */
  predicate Calm(s: State, s': State, a: ActivationId)
    requires a in s.acts
  {
    && OthersStay(s, s', a)
    && (forall b {:trigger b in s'.acts} :: b in s'.acts && b != a ==> b in s.acts)
    && (s'.d.Accepting() ==> s.d.Accepting())
    && (a in s'.acts ==>
          && (InUnregister(s'.acts[a]) ==> InUnregister(s.acts[a]))
          && (InUnregister(s'.acts[a]) && s.acts[a].pc.Draining? ==> !s'.d.Accepting())
          && (s'.acts[a].pc.DroppingQueue? ==> InUnregister(s'.acts[a]))
          && !s'.acts[a].pc.Installing?)
  }

  lemma CalmKeeps(s: State, s': State, a: ActivationId)
    requires Orderly(s) && a in s.acts && Calm(s, s', a)
    ensures Orderly(s')
  {
    if Unregistering(s') {
      var b :| b in s'.acts && InUnregister(s'.acts[b]);
      assert b in s.acts && InUnregister(s.acts[b]);
    }
  }

  lemma CompleteCalm(s: State, a: ActivationId, at: CompletePoint, p: PromiseId, r: Completion)
    requires a in s.acts && p in s.promises && !s.acts[a].pc.Draining?
    ensures Calm(s, ExecuteComplete(s, a, at, p, r), a)
  {
  }

  lemma RouteCalm(s: State, a: ActivationId, at: RoutePoint, p: PromiseId, answer: Answer)
    requires a in s.acts && !s.acts[a].pc.Draining?
    ensures Calm(s, ExecuteRoute(s, a, at, p, answer), a)
  {
  }

  lemma FallbackCalm(s: State, a: ActivationId, at: FallbackPoint, p: PromiseId, answer: Answer)
    requires a in s.acts && p in s.promises && !s.acts[a].pc.Draining?
    ensures Calm(s, ExecuteFallback(s, a, at, p, answer), a)
  {
  }

  lemma AbandonCalm(s: State, a: ActivationId, at: AbandonPoint, p: PromiseId)
    requires a in s.acts && p in s.promises && !s.acts[a].pc.Draining?
    ensures Calm(s, ExecuteAbandon(s, a, at, p), a)
  {
  }

  lemma CallbackCalm(s: State, a: ActivationId, at: CallbackPoint, p: PromiseId, answer: Answer)
    requires a in s.acts && !s.acts[a].pc.Draining?
    ensures Calm(s, ExecuteCallback(s, a, at, p, answer), a)
  {
  }

  lemma DecideCalm(s: State, a: ActivationId, at: DecidePoint, p: PromiseId)
    requires a in s.acts && p in s.promises && !s.acts[a].pc.Draining?
    ensures Calm(s, ExecuteDecide(s, a, at, p), a)
  {
  }

  lemma SettleCalm(s: State, a: ActivationId, at: SettlePoint, p: PromiseId, answer: Answer)
    requires a in s.acts && p in s.promises && !s.acts[a].pc.Draining?
    ensures Calm(s, ExecuteSettle(s, a, at, p, answer), a)
  {
  }

  lemma RegisterCalm(s: State, a: ActivationId, at: RegisterPoint, p: PromiseId, answer: Answer)
    requires a in s.acts && p in s.promises && !s.acts[a].pc.Draining?
    ensures Calm(s, ExecuteRegister(s, a, at, p, answer), a)
  {
  }

  lemma CleanupCalm(s: State, a: ActivationId, at: CleanupPoint)
    requires a in s.acts && !s.acts[a].pc.Draining?
    ensures Calm(s, ExecuteCleanup(s, a, at), a)
  {
  }

  lemma NextCalm(s: State, a: ActivationId, answer: Answer)
    requires a in s.acts && s.acts[a].pc.NextItem? && GoodAnswer(s.acts[a], answer)
    ensures Calm(s, ExecuteNext(s, a, answer), a)
  {
    NextPlain(s, a, answer);
  }

  lemma DeliveryCalm(s: State, a: ActivationId, answer: Answer)
    requires Ready(s, a) && GoodAnswer(s.acts[a], answer)
    requires var pc := s.acts[a].pc; pc.Completing? || pc.Routing? || pc.Falling? || pc.Abandoning?
    ensures Calm(s, Execute(s, a, answer), a)
  {
    match s.acts[a].pc
    case Completing(at, p, r) => CompleteCalm(s, a, at, p, r);
    case Routing(at, p) => RouteCalm(s, a, at, p, answer);
    case Falling(at, p) => FallbackCalm(s, a, at, p, answer);
    case Abandoning(at, p) => AbandonCalm(s, a, at, p);
  }

  lemma PromiseCalm(s: State, a: ActivationId, answer: Answer)
    requires Ready(s, a) && GoodAnswer(s.acts[a], answer) && !Promiseless(s.acts[a].pc)
    ensures Calm(s, Execute(s, a, answer), a)
  {
    match s.acts[a].pc
    case Calling(at, p) => CallbackCalm(s, a, at, p, answer);
    case Deciding(at, p) => DecideCalm(s, a, at, p);
    case Settling(at, p) => SettleCalm(s, a, at, p, answer);
    case Registering(at, p) => RegisterCalm(s, a, at, p, answer);
    case Finishing(_) =>
    case _ => DeliveryCalm(s, a, answer);
  }

  lemma DrainCalm(s: State, a: ActivationId)
    requires a in s.acts
    ensures Calm(s, ExecuteDrain(s, a), a)
  {
  }

  lemma DrainedCalm(s: State, a: ActivationId, list: set<PromiseId>)
    requires a in s.acts && s.acts[a].pc.Drained?
    ensures Calm(s, ExecuteDrained(s, a, list), a)
  {
  }

  lemma DropCalm(s: State, a: ActivationId)
    requires a in s.acts && s.acts[a].pc.DroppingQueue?
    ensures Calm(s, ExecuteDrop(s, a), a)
  {
  }

  lemma LoopCalm(s: State, a: ActivationId, answer: Answer)
    requires Ready(s, a) && GoodAnswer(s.acts[a], answer) && Promiseless(s.acts[a].pc) && !s.acts[a].pc.Installing?
    ensures Calm(s, Execute(s, a, answer), a)
  {
    match s.acts[a].pc
    case Cleaning(at) => CleanupCalm(s, a, at);
    case NextItem => NextCalm(s, a, answer);
    case Draining => DrainCalm(s, a);
    case Drained(list) => DrainedCalm(s, a, list);
    case DroppingQueue => DropCalm(s, a);
    case Unreferencing =>
  }

  lemma InstallOrderly(s: State, a: ActivationId, checked: bool)
    requires a in s.acts && s.acts[a].pc == Installing(checked) && s.acts[a].k.Return? && Orderly(s)
    ensures Orderly(ExecuteInstall(s, a, checked))
  {
    var s' := ExecuteInstall(s, a, checked);
    assert !Unregistering(s);
    StillNoUnregister(s, s', a, s'.acts[a]);
  }

  lemma StepOrderly(s: State, a: ActivationId, answer: Answer)
    requires Inv(s) && Orderly(s) && Ready(s, a) && GoodAnswer(s.acts[a], answer)
    ensures Orderly(Execute(s, a, answer))
  {
    if s.acts[a].pc.Installing? {
      assert ActOk(s, a);
      InstallOrderly(s, a, s.acts[a].pc.checked);
    } else {
      if Promiseless(s.acts[a].pc) { LoopCalm(s, a, answer); } else { PromiseCalm(s, a, answer); }
      CalmKeeps(s, Execute(s, a, answer), a);
    }
  }

  lemma StillNoUnregister(s: State, s': State, a: ActivationId, act: Activation)
    requires !Unregistering(s) && !InUnregister(act) && s'.acts == s.acts[a := act]
    ensures !Unregistering(s')
  {
    forall c | c in s'.acts ensures !InUnregister(s'.acts[c]) { assert c != a ==> c in s.acts; }
  }

  // A call that begins neither unregisters nor installs, or no other call does.
  lemma EnterOrderly(s: State, s': State, a: ActivationId, act: Activation)
    requires Inv(s) && Orderly(s) && a !in s.acts && s'.acts == s.acts[a := act] && s'.d == s.d
    requires InUnregister(act) ==> act.pc.Draining? && OthersParked(s, a)
    requires act.pc.Installing? ==> !InUnregister(act) && !Unregistering(s)
    requires !act.pc.DroppingQueue?
    ensures Orderly(s')
  {
    forall b | b in s'.acts && s'.acts[b].pc.Installing? ensures !Unregistering(s') {
      if b != a { assert ActOk(s, b) && !Parked(s.acts[b]); }
      assert !InUnregister(act) && !Unregistering(s);
      StillNoUnregister(s, s', a, act);
    }
  }

  lemma LabelOrderly(s: State, l: Label)
    requires Inv(s) && Orderly(s) && Enabled(s, l) && (l.RegisterQueue? ==> !Unregistering(s))
    ensures Orderly(Apply(s, l))
  {
    var s' := Apply(s, l);
    if l.Step? {
      StepOrderly(s, l.a, l.answer);
    } else if l.TakeOperation? || l.QueueDiscards? || l.DropDispatcher? {
      assert s'.acts == s.acts && s'.d == s.d;
      assert Unregistering(s') <==> Unregistering(s);
    } else {
      EnterOrderly(s, s', l.a, s'.acts[l.a]);
    }
  }

  lemma {:induction false} OrderlyIsBenign(s: State, labels: seq<Label>)
    requires Inv(s) && Orderly(s) && Run(s, labels).Some? && OrderlyRun(s, labels) && CallsAnswered(s, labels)
    ensures BenignRun(s, labels)
    decreases |labels|
  {
    if labels != [] {
      if labels[0].Step? { assert ActOk(s, labels[0].a); }
      LabelPreserves(s, labels[0]);
      LabelOrderly(s, labels[0]);
      OrderlyIsBenign(Apply(s, labels[0]), labels[1..]);
    }
  }

  /**
   What callers have to observe: if no queue is registered while an unregister is in
   progress and every call into the thread-safe function is answered ok or closing, no
   completion is ever lost.
   */
  lemma OrderlyRunsLoseNothing(labels: seq<Label>, s: State, p: PromiseId)
    requires Reaches(labels, s) && OrderlyRun(INITIAL, labels) && CallsAnswered(INITIAL, labels) && Waiting(s, p)
    ensures Located(s, p)
  {
    InitialInv();
    OrderlyIsBenign(INITIAL, labels);
    NoCompletionLost(labels, s, p);
  }
}
