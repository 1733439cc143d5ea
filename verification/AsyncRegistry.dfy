/** Registration, finishing and environment cleanup keep the invariant: the steps only the JS thread takes. */
module AsyncRegistry {
  import opened Wrappers
  import opened AsyncDispatcher
  import opened AsyncPromise
  import opened AsyncInvariant
  import opened AsyncFrame
  import opened AsyncSteps
  import opened AsyncPreserves

  // ---- ref and unref calls alternate ----

  lemma AppendReference(refs: seq<RefEvent>, e: RefEvent)
    requires Alternates(refs) && (EndsWithRef(refs) <==> e.Unref?)
    ensures Alternates(refs + [e]) && (EndsWithRef(refs + [e]) <==> e.Ref?)
  {
  }

  /** While a JS activation runs, no other activation is between a registry change and its ref or unref. */
  lemma OnlyCritical(s: State, a: ActivationId)
    requires ActsOk(s) && a in s.acts && s.acts[a].onJs && OthersParked(s, a)
    ensures forall b :: b in s.acts && b != a ==> !Critical(s.acts[b].pc)
    ensures MidReference(s) <==> Critical(s.acts[a].pc)
  {
    forall b | b in s.acts && b != a ensures !Critical(s.acts[b].pc) {
      assert ActOk(s, b);
      assert s.acts[b].onJs ==> Parked(s.acts[b]);
    }
  }

  /** What a JS step leaves behind for the reference, if it says it of its own activation. */
  predicate ReferenceHere(s: State, critical: bool) {
    && Alternates(s.refs)
    && (!s.d.closing ==>
          && (s.d.registry == {} ==> !s.d.tsfnReferenced)
          && (!critical ==>
                (s.d.tsfnReferenced <==> s.d.registry != {}) && EndsWithRef(s.refs) == s.d.tsfnReferenced))
  }

  lemma ReferenceFromHere(s: State, s': State, a: ActivationId)
    requires ActsOk(s) && a in s.acts && s.acts[a].onJs && OthersParked(s, a) && SameOthers(s, s', a)
    requires a in s'.acts && ReferenceHere(s', Critical(s'.acts[a].pc))
    requires !s'.d.closing ==> CriticalOk(s', s'.acts[a].pc)
    ensures ReferenceOk(s')
  {
    OnlyCritical(s, a);
    forall b | b in s'.acts && b != a ensures !Critical(s'.acts[b].pc) {
      OtherActivation(s, s', a, b);
    }
    assert Critical(s'.acts[a].pc) ==> MidReference(s');
  }

  // ---- finish_promise ----

  lemma FinishKeeps(s: State, a: ActivationId, p: PromiseId)
    requires Starts(s, a, Finishing(p), p)
    ensures PromiseOk(ExecuteFinish(s, a, p), p)
  {
    Relocate(s, ExecuteFinish(s, a, p), a, p);
    assert PromiseOk(s, p);
  }

  lemma FinishReferences(s: State, a: ActivationId, p: PromiseId)
    requires Inv(s) && Ready(s, a) && s.acts[a].pc == Finishing(p)
    ensures ReferenceOk(ExecuteFinish(s, a, p))
  {
    assert ActOk(s, a);
    OnlyCritical(s, a);
    ReferenceFromHere(s, ExecuteFinish(s, a, p), a);
  }

  lemma FinishPreserves(s: State, a: ActivationId, p: PromiseId)
    requires Inv(s) && Ready(s, a) && s.acts[a].pc == Finishing(p)
    ensures Inv(ExecuteFinish(s, a, p))
  {
    Begin(s, a, p);
    var s' := ExecuteFinish(s, a, p);
    FinishReferences(s, a, p);
    FinishKeeps(s, a, p);
    assert OnlyPromise(s, s', a, p);
    assert Guarantees(s, s', a);
    FlowsOk(s, s', a, s.acts[a], s'.acts[a]);
    OnePromise(s, s', a, p);
  }

  lemma UnreferenceReferences(s: State, a: ActivationId, answer: Answer)
    requires Inv(s) && Ready(s, a) && s.acts[a].pc.Unreferencing? && GoodAnswer(s.acts[a], answer)
    ensures ReferenceOk(Execute(s, a, answer))
  {
    var s' := Execute(s, a, answer);
    assert ActOk(s, a);
    if !s.d.closing {
      assert CriticalOk(s, s.acts[a].pc);
      AppendReference(s.refs, Unref(answer.Success?));
    }
    ReferenceFromHere(s, s', a);
  }

  lemma UnreferencePreserves(s: State, a: ActivationId, answer: Answer)
    requires Inv(s) && Ready(s, a) && s.acts[a].pc.Unreferencing? && GoodAnswer(s.acts[a], answer)
    ensures Inv(Execute(s, a, answer))
  {
    var s' := Execute(s, a, answer);
    assert ActOk(s, a);
    UnreferenceReferences(s, a, answer);
    RetainSpares(s, s', a);
    FlowsOk(s, s', a, s.acts[a], s'.acts[a]);
    Assemble(s, s', a, {});
  }

  // ---- register_promise ----

  lemma RegisterReferences(s: State, a: ActivationId, at: RegisterPoint, p: PromiseId, answer: Answer)
    requires Inv(s) && Ready(s, a) && s.acts[a].pc == Registering(at, p) && p in s.promises
    ensures ReferenceOk(ExecuteRegister(s, a, at, p, answer))
  {
    var s' := ExecuteRegister(s, a, at, p, answer);
    assert ActOk(s, a);
    OnlyCritical(s, a);
    if !s.d.closing {
      assert CriticalOk(s, s.acts[a].pc);
      if at.RegisterRef? { AppendReference(s.refs, Ref); }
    }
    ReferenceFromHere(s, s', a);
  }

  lemma RegisterKeepsPromise(s: State, a: ActivationId, at: RegisterPoint, p: PromiseId, answer: Answer)
    requires Starts(s, a, Registering(at, p), p)
    ensures p in ExecuteRegister(s, a, at, p, answer).promises
    ensures var s' := ExecuteRegister(s, a, at, p, answer);
            ResultOk(s'.promises[p]) && FallbackOk(s'.promises[p]) && WinnerOk(s', p) && LockOk(s', p)
  {
  }

  lemma RegisterKeepsRegistry(s: State, a: ActivationId, at: RegisterPoint, p: PromiseId, answer: Answer)
    requires Starts(s, a, Registering(at, p), p)
    ensures p in ExecuteRegister(s, a, at, p, answer).promises
    ensures RegistryOk(ExecuteRegister(s, a, at, p, answer), p)
  {
  }

  lemma RegisterKeepsLocation(s: State, a: ActivationId, at: RegisterPoint, p: PromiseId, answer: Answer)
    requires Starts(s, a, Registering(at, p), p)
    ensures p in ExecuteRegister(s, a, at, p, answer).promises
    ensures LocationOk(ExecuteRegister(s, a, at, p, answer), p)
  {
    Relocate(s, ExecuteRegister(s, a, at, p, answer), a, p);
  }

  lemma RegisterOnly(s: State, a: ActivationId, at: RegisterPoint, p: PromiseId, answer: Answer)
    requires Inv(s) && Ready(s, a) && s.acts[a].pc == Registering(at, p) && p in s.promises
    ensures var s' := ExecuteRegister(s, a, at, p, answer); OnlyPromise(s, s', a, p) && Known(s') && PhaseOk(s')
  {
    assert ActOk(s, a);
  }

  lemma RegisterActivation(s: State, a: ActivationId, at: RegisterPoint, p: PromiseId, answer: Answer)
    requires Starts(s, a, Registering(at, p), p) && (!s.d.closing && s.d.registry == {} ==> !s.d.tsfnReferenced)
    ensures var s' := ExecuteRegister(s, a, at, p, answer); Guarantees(s, s', a) && PcOk(s', a, s'.acts[a].pc)
  {
  }

  lemma RegisterKeeps(s: State, a: ActivationId, at: RegisterPoint, p: PromiseId, answer: Answer)
    requires Starts(s, a, Registering(at, p), p)
    ensures var s' := ExecuteRegister(s, a, at, p, answer); p in s'.promises && PromiseOk(s', p)
  {
    RegisterKeepsPromise(s, a, at, p, answer);
    RegisterKeepsRegistry(s, a, at, p, answer);
    RegisterKeepsLocation(s, a, at, p, answer);
  }

  lemma RegisterActs(s: State, a: ActivationId, at: RegisterPoint, p: PromiseId, answer: Answer)
    requires Inv(s) && Ready(s, a) && s.acts[a].pc == Registering(at, p) && Starts(s, a, Registering(at, p), p)
    ensures var s' := ExecuteRegister(s, a, at, p, answer);
      && Guarantees(s, s', a) && SameOthers(s, s', a)
      && a in s'.acts && s'.acts[a].onJs == s.acts[a].onJs && ActOk(s', a)
  {
    var s' := ExecuteRegister(s, a, at, p, answer);
    assert ActOk(s, a);
    RegisterActivation(s, a, at, p, answer);
    FlowsOk(s, s', a, s.acts[a], s'.acts[a]);
  }

  lemma RegisterPreserves(s: State, a: ActivationId, at: RegisterPoint, p: PromiseId, answer: Answer)
    requires Inv(s) && Ready(s, a) && s.acts[a].pc == Registering(at, p)
    ensures p in s.promises && Inv(ExecuteRegister(s, a, at, p, answer))
  {
    Begin(s, a, p);
    RegisterReferences(s, a, at, p, answer);
    RegisterKeeps(s, a, at, p, answer);
    RegisterOnly(s, a, at, p, answer);
    RegisterActs(s, a, at, p, answer);
    RegisterAssembled(s, ExecuteRegister(s, a, at, p, answer), a, p);
  }

  // From the parts, without looking at the step again.
  lemma RegisterAssembled(s: State, s': State, a: ActivationId, p: PromiseId)
    requires Inv(s) && Ready(s, a) && s.acts[a].pc.Registering? && OnlyPromise(s, s', a, p) && SameOthers(s, s', a)
    requires Guarantees(s, s', a) && PromiseOk(s', p)
    requires a in s'.acts && s'.acts[a].onJs == s.acts[a].onJs && ActOk(s', a)
    requires Known(s') && PhaseOk(s') && ReferenceOk(s')
    ensures Inv(s')
  {
    assert ActOk(s, a) && Guarantee(s.promises[p], s'.promises[p], a);
    OnePromise(s, s', a, p);
  }

  // ---- cleanup_env ----

  lemma CleanupSpares(s: State, a: ActivationId, at: CleanupPoint)
    requires Inv(s) && Ready(s, a) && s.acts[a].pc == Cleaning(at)
    ensures SparesAllBut(s, ExecuteCleanup(s, a, at), a, {})
  {
    assert ActOk(s, a);
  }

  lemma RegistryRegistered(s: State, a: ActivationId)
    requires Inv(s) && Ready(s, a) && s.acts[a].onJs && !Critical(s.acts[a].pc)
    ensures AllRegistered(s, s.d.registry)
  {
    OnlyCritical(s, a);
    forall p | p in s.d.registry ensures IsRegistered(s, p) {
      assert PromiseOk(s, p);
    }
  }

  lemma CleanupActivation(s: State, a: ActivationId, at: CleanupPoint)
    requires Inv(s) && Ready(s, a) && s.acts[a].pc == Cleaning(at)
    ensures ActOk(ExecuteCleanup(s, a, at), a) && Guarantees(s, ExecuteCleanup(s, a, at), a)
  {
    var s' := ExecuteCleanup(s, a, at);
    assert ActOk(s, a);
    ShadowedStored(s);
    RegistryRegistered(s, a);
    assert Guarantees(s, s', a);
    StableLists(s, s', a, DrainPending(s.d).1);
    StableLists(s, s', a, s.d.registry);
    if !s.acts[a].k.Return? { StableLists(s, s', a, s.acts[a].k.list); }
  }

  lemma CleanupPreserves(s: State, a: ActivationId, at: CleanupPoint)
    requires Inv(s) && Ready(s, a) && s.acts[a].pc == Cleaning(at)
    ensures Inv(ExecuteCleanup(s, a, at))
  {
    var s' := ExecuteCleanup(s, a, at);
    assert ActOk(s, a);
    CleanupSpares(s, a, at);
    CleanupActivation(s, a, at);
    OnlyCritical(s, a);
    ReferenceFromHere(s, s', a);
    Assemble(s, s', a, {});
  }
}
