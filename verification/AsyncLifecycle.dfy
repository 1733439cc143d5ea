/** How cleanup and the creation of a promise end. */
module AsyncLifecycle {
  import opened Wrappers
  import opened AsyncDispatcher
  import opened AsyncPromise
  import opened AsyncInvariant
  import opened AsyncReachable
  import opened AsyncProgress
  import opened AsyncBookkeeping
  import opened AsyncTheorems
  import opened AsyncEffects
  import opened AsyncAbandon
  import opened AsyncOutcomes

  // ---- cleanup ----

  /** The call of cleanup that won the swap is at work until it has released the thread-safe function. */
  predicate CleanerBusy(s: State) {
    s.cleaner.Some? && !s.released ==>
      s.cleaner.value in s.acts && (s.acts[s.cleaner.value].k.CleanupPending? || s.acts[s.cleaner.value].k.CleanupRegistry?)
  }

  lemma CleanupGoesOn(s: State, a: ActivationId, at: CleanupPoint)
    requires a in s.acts && (s.d.closing <==> s.cleaner.Some?) && CleanerBusy(s)
    requires at.CleanupSwap? || s.cleaner == Some(a)
    requires at.CleanupSwap? && s.cleaner == Some(a) ==> s.released
    ensures CleanerBusy(ExecuteCleanup(s, a, at))
  {
  }

  lemma NextGoesOn(s: State, a: ActivationId, answer: Answer)
    requires a in s.acts && s.acts[a].pc.NextItem? && GoodAnswer(s.acts[a], answer)
    requires s.acts[a].k.CleanupPending? || s.acts[a].k.CleanupRegistry?
    ensures var s' := ExecuteNext(s, a, answer);
            a in s'.acts && (s'.acts[a].k.CleanupPending? || s'.acts[a].k.CleanupRegistry?)
  {
  }

  lemma CleanerStep(s: State, a: ActivationId, answer: Answer)
    requires Inv(s) && CleanerBusy(s) && Ready(s, a) && GoodAnswer(s.acts[a], answer)
    requires s.cleaner == Some(a) && !s.released && !s.acts[a].pc.Cleaning?
    ensures CleanerBusy(Execute(s, a, answer))
  {
    assert ActOk(s, a);
    StepPhase(s, a, answer);
    if Promiseless(s.acts[a].pc) { NextGoesOn(s, a, answer); } else { PromiseSteady(s, a, answer); }
  }

  lemma StepBusy(s: State, a: ActivationId, answer: Answer)
    requires Inv(s) && CleanerBusy(s) && Ready(s, a) && GoodAnswer(s.acts[a], answer)
    ensures CleanerBusy(Execute(s, a, answer))
  {
    assert ActOk(s, a);
    if s.acts[a].pc.Cleaning? {
      CleanupGoesOn(s, a, s.acts[a].pc.cleanup);
    } else if s.cleaner == Some(a) && !s.released {
      CleanerStep(s, a, answer);
    } else {
      StepPhase(s, a, answer);
      StepMoves(s, a, answer);
    }
  }

  lemma {:induction false} RunBusy(s: State, labels: seq<Label>)
    requires Inv(s) && CleanerBusy(s) && Run(s, labels).Some?
    ensures CleanerBusy(Run(s, labels).value)
    decreases |labels|
  {
    if labels != [] {
      var l := labels[0];
      LabelPreserves(s, l);
      if l.Step? { StepBusy(s, l.a, l.answer); } else { StartFrame(s, l); }
      RunBusy(Apply(s, l), labels[1..]);
    }
  }

  /** A call of cleanup closes the dispatcher with its first step. */
  predicate Closes(s: State, a: ActivationId) {
    s.d.closing || At(s, a, Cleaning(CleanupSwap))
  }

  lemma LabelCloses(s: State, l: Label, a: ActivationId)
    requires Enabled(s, l) && Closes(s, a)
    ensures Closes(Apply(s, l), a)
  {
    if s.d.closing {
      LabelKeepsClosing(s, l);
    } else if l.Step? {
      StepMoves(s, l.a, l.answer);
    } else {
      StartFrame(s, l);
    }
  }

  lemma {:induction false} RunCloses(s: State, labels: seq<Label>, a: ActivationId)
    requires Closes(s, a) && Run(s, labels).Some?
    ensures Closes(Run(s, labels).value, a)
    decreases |labels|
  {
    if labels != [] {
      LabelCloses(s, labels[0], a);
      RunCloses(Apply(s, labels[0]), labels[1..], a);
    }
  }

  lemma {:induction false} CleanupBegins(s: State, labels: seq<Label>, l: Label)
    requires l in labels && l.CleanupEnv? && Run(s, labels).Some?
    ensures Closes(Run(s, labels).value, l.a)
    decreases |labels|
  {
    if l == labels[0] {
      RunCloses(Apply(s, l), labels[1..], l.a);
    } else {
      CleanupBegins(Apply(s, labels[0]), labels[1..], l);
    }
  }

  /**
   Cleanup ends: once it was called and no call of it is at work any more, the thread-safe
   function is released, the registry is empty, no queue is left and every registered
   promise is settled or abandoned.
   */
  lemma CleanupEnds(labels: seq<Label>, s: State, l: Label)
    requires Reaches(labels, s) && l in labels && l.CleanupEnv?
    requires forall a :: a in s.acts ==> !InCleanup(s.acts[a])
    ensures s.released && s.d.registry == {} && s.d.queue.None?
    ensures forall p :: p in s.promises && s.promises[p].registration.Registered? ==> s.promises[p].settled
  {
    InitialInv();
    CleanupBegins(INITIAL, labels, l);
    Reachable(labels, s);
    RunBusy(INITIAL, labels);
    forall p | p in s.promises && s.promises[p].registration.Registered? ensures s.promises[p].settled {
      AfterCleanup(labels, s, p);
    }
  }

  // ---- creation ----

  /** While its registration is undecided, the call that creates the promise is at work. */
  predicate BeingCreated(s: State, p: PromiseId) {
    p in s.promises && (s.promises[p].registration.Unregistered? || s.promises[p].registration.Inserted?) ==>
      s.promises[p].creator in s.acts && s.acts[s.promises[p].creator].pc.Registering? && s.acts[s.promises[p].creator].pc.p == p
  }

  /** The function cannot be referenced for `p`, the first promise of an idle dispatcher. */
  predicate RefFails(s: State, l: Label, p: PromiseId) {
    l.Step? && l.a in s.acts && s.acts[l.a].pc == Registering(RegisterRef, p) && !l.answer.Success?
  }

  predicate Referenced(s: State, labels: seq<Label>, p: PromiseId)
    decreases |labels|
  {
    labels != [] && Enabled(s, labels[0]) ==> !RefFails(s, labels[0], p) && Referenced(Apply(s, labels[0]), labels[1..], p)
  }

  predicate Undoes(act: Activation, p: PromiseId) {
    act.pc.Registering? && act.pc.register.RegisterUndo? && act.pc.p == p
  }

  /** While the environment is open the promise is not refused, and nobody is about to. */
  predicate Welcome(s: State, p: PromiseId) {
    !s.d.closing ==>
      && (p in s.promises ==> !s.promises[p].registration.Refused?)
      && (forall a {:trigger s.acts[a]} :: a in s.acts ==> !Undoes(s.acts[a], p))
  }

  lemma RegisterGoesOn(s: State, a: ActivationId, at: RegisterPoint, p: PromiseId, answer: Answer)
    requires a in s.acts && p in s.promises && !s.d.closing && !at.RegisterUndo? && (at.RegisterRef? ==> answer.Success?)
    requires at.RegisterCheck? || at.RegisterInsert? <==> s.promises[p].registration.Unregistered?
    requires !s.promises[p].registration.Refused?
    ensures var s' := ExecuteRegister(s, a, at, p, answer);
      && p in s'.promises && a in s'.acts && !s'.promises[p].registration.Refused? && !Undoes(s'.acts[a], p)
      && (s'.promises[p].registration.Registered? || (s'.acts[a].pc.Registering? && s'.acts[a].pc.p == p))
  {
  }

  lemma RegisterEnds(s: State, a: ActivationId, at: RegisterPoint, p: PromiseId, answer: Answer)
    requires a in s.acts && p in s.promises
    ensures var s' := ExecuteRegister(s, a, at, p, answer);
      && p in s'.promises && a in s'.acts
      && (s'.promises[p].registration.Unregistered? || s'.promises[p].registration.Inserted? ==>
            s'.acts[a].pc.Registering? && s'.acts[a].pc.p == p)
  {
  }

  predicate SameRegistration(s: State, s': State, p: PromiseId) {
    && p in s.promises && p in s'.promises
    && s'.promises[p].registration == s.promises[p].registration && s'.promises[p].creator == s.promises[p].creator
  }

  lemma StepRegistration(s: State, a: ActivationId, answer: Answer, p: PromiseId)
    requires Ready(s, a) && GoodAnswer(s.acts[a], answer) && p in s.promises && !(s.acts[a].pc.Registering? && s.acts[a].pc.p == p)
    ensures SameRegistration(s, Execute(s, a, answer), p)
  {
    if p in Mentions(s.acts[a].pc) { StepChanges(s, a, answer); } else { StepAlike(s, a, answer, p); }
  }

  lemma StepBeingCreated(s: State, a: ActivationId, answer: Answer, p: PromiseId)
    requires Inv(s) && BeingCreated(s, p) && p in s.promises && Ready(s, a) && GoodAnswer(s.acts[a], answer)
    ensures BeingCreated(Execute(s, a, answer), p)
  {
    assert ActOk(s, a);
    if s.acts[a].pc.Registering? && s.acts[a].pc.p == p {
      StepChanges(s, a, answer);
      RegisterEnds(s, a, s.acts[a].pc.register, p, answer);
    } else {
      StepRegistration(s, a, answer, p);
      StepMoves(s, a, answer);
    }
  }

  lemma StepWelcome(s: State, a: ActivationId, answer: Answer, p: PromiseId)
    requires Inv(s) && Welcome(s, p) && p in s.promises && Ready(s, a) && GoodAnswer(s.acts[a], answer) && !RefFails(s, Step(a, answer), p)
    ensures Welcome(Execute(s, a, answer), p)
  {
    assert ActOk(s, a);
    StepKeepsClosing(s, a, answer);
    if !s.d.closing {
      StepMoves(s, a, answer);
      StepTransits(s, a, answer);
      if s.acts[a].pc.Registering? && s.acts[a].pc.p == p {
        RegisterGoesOn(s, a, s.acts[a].pc.register, p, answer);
      } else {
        StepRegistration(s, a, answer, p);
      }
    }
  }

  // Before it is created no call mentions the promise.
  lemma StartCreation(s: State, l: Label, p: PromiseId)
    requires Inv(s) && BeingCreated(s, p) && Welcome(s, p) && Enabled(s, l) && !l.Step?
    ensures BeingCreated(Apply(s, l), p) && Welcome(Apply(s, l), p)
  {
    StartFrame(s, l);
    if p in s.promises { StartAlike(s, l, p); }
  }

  lemma LabelCreation(s: State, l: Label, p: PromiseId)
    requires Inv(s) && BeingCreated(s, p) && Welcome(s, p) && Enabled(s, l) && !RefFails(s, l, p)
    ensures BeingCreated(Apply(s, l), p) && Welcome(Apply(s, l), p)
  {
    if !l.Step? {
      StartCreation(s, l, p);
    } else if p in s.promises {
      StepBeingCreated(s, l.a, l.answer, p);
      StepWelcome(s, l.a, l.answer, p);
    } else {
      UncreatedStep(s, l.a, l.answer, p);
    }
  }

  lemma UncreatedStep(s: State, a: ActivationId, answer: Answer, p: PromiseId)
    requires Inv(s) && Welcome(s, p) && p !in s.promises && Ready(s, a) && GoodAnswer(s.acts[a], answer)
    ensures BeingCreated(Execute(s, a, answer), p) && Welcome(Execute(s, a, answer), p)
  {
    StepKeys(s, a, answer);
    StepKeepsClosing(s, a, answer);
    StepMoves(s, a, answer);
    StepTransits(s, a, answer);
  }

  lemma LabelBeingCreated(s: State, l: Label, p: PromiseId)
    requires Inv(s) && BeingCreated(s, p) && Enabled(s, l)
    ensures BeingCreated(Apply(s, l), p)
  {
    if !l.Step? {
      StartFrame(s, l);
      if p in s.promises { StartAlike(s, l, p); }
    } else if p in s.promises {
      StepBeingCreated(s, l.a, l.answer, p);
    } else {
      StepKeys(s, l.a, l.answer);
    }
  }

  lemma {:induction false} RunBeingCreated(s: State, labels: seq<Label>, p: PromiseId)
    requires Inv(s) && BeingCreated(s, p) && Run(s, labels).Some?
    ensures BeingCreated(Run(s, labels).value, p)
    decreases |labels|
  {
    if labels != [] {
      LabelPreserves(s, labels[0]);
      LabelBeingCreated(s, labels[0], p);
      RunBeingCreated(Apply(s, labels[0]), labels[1..], p);
    }
  }

  lemma {:induction false} RunWelcome(s: State, labels: seq<Label>, p: PromiseId)
    requires Inv(s) && BeingCreated(s, p) && Welcome(s, p) && Referenced(s, labels, p) && Run(s, labels).Some?
    ensures Welcome(Run(s, labels).value, p)
    decreases |labels|
  {
    if labels != [] {
      LabelPreserves(s, labels[0]);
      LabelCreation(s, labels[0], p);
      RunWelcome(Apply(s, labels[0]), labels[1..], p);
    }
  }

  /**
   When the call that creates a promise has returned, the promise is registered or refused.
   It is refused only while the environment is closing or because the function could not be
   referenced, and then its context and reference were given back and its deferred was not used.
   */
  lemma CreationEnds(labels: seq<Label>, s: State, p: PromiseId)
    requires Reaches(labels, s) && p in s.promises && s.promises[p].creator !in s.acts
    ensures s.promises[p].registration.Registered? || s.promises[p].registration.Refused?
    ensures s.promises[p].registration.Refused? ==> s.d.closing || !Referenced(INITIAL, labels, p)
    ensures var pr := s.promises[p]; pr.registration.Refused? ==>
      pr.contexts == 1 && pr.references == 1 && pr.deferred == 0 && pr.missed == 0 && !pr.settled
  {
    InitialInv();
    RunBeingCreated(INITIAL, labels, p);
    if Referenced(INITIAL, labels, p) { RunWelcome(INITIAL, labels, p); }
    Reachable(labels, s);
    assert PromiseOk(s, p);
  }
}
