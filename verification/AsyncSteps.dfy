/** Every step of the settlement protocol keeps the invariant. */
module AsyncSteps {
  import opened Wrappers
  import opened AsyncDispatcher
  import opened AsyncPromise
  import opened AsyncInvariant
  import opened AsyncFrame

  // What a step that concerns promise `p` starts from.
  ghost predicate Starts(s: State, a: ActivationId, pc: Pc, p: PromiseId) {
    Ready(s, a) && s.acts[a].pc == pc && Mentions(pc) == {p} && PcOk(s, a, pc) && p in s.promises && PromiseOk(s, p)
  }

  // ---- steps that change the promise, the shadow map or the thread-safe function's queue ----

  lemma CompleteLockMoves(s: State, a: ActivationId, p: PromiseId, r: Completion)
    requires Starts(s, a, Completing(CompleteLock, p, r), p) && s.promises[p].result.None? && !s.promises[p].settled
    ensures Changes(s, ExecuteComplete(s, a, CompleteLock, p, r), a, p)
  {
  }

  lemma CompleteLockKeeps(s: State, a: ActivationId, p: PromiseId, r: Completion)
    requires Starts(s, a, Completing(CompleteLock, p, r), p) && s.promises[p].result.None? && !s.promises[p].settled
    ensures p in ExecuteComplete(s, a, CompleteLock, p, r).promises && PromiseOk(ExecuteComplete(s, a, CompleteLock, p, r), p)
  {
    Relocate(s, ExecuteComplete(s, a, CompleteLock, p, r), a, p);
  }

  lemma CompleteWriteMoves(s: State, a: ActivationId, p: PromiseId, r: Completion)
    requires Starts(s, a, Completing(CompleteWrite, p, r), p)
    ensures Changes(s, ExecuteComplete(s, a, CompleteWrite, p, r), a, p)
  {
  }

  lemma CompleteWriteKeeps(s: State, a: ActivationId, p: PromiseId, r: Completion)
    requires Starts(s, a, Completing(CompleteWrite, p, r), p)
    ensures p in ExecuteComplete(s, a, CompleteWrite, p, r).promises && PromiseOk(ExecuteComplete(s, a, CompleteWrite, p, r), p)
  {
    Relocate(s, ExecuteComplete(s, a, CompleteWrite, p, r), a, p);
  }

  lemma RouteInsertMoves(s: State, a: ActivationId, p: PromiseId, answer: Answer)
    requires Starts(s, a, Routing(RouteInsert, p), p)
    ensures Transfers(s, ExecuteRoute(s, a, RouteInsert, p, answer), a, p)
  {
  }

  lemma RouteInsertKeeps(s: State, a: ActivationId, p: PromiseId, answer: Answer)
    requires Starts(s, a, Routing(RouteInsert, p), p)
    ensures p in ExecuteRoute(s, a, RouteInsert, p, answer).promises && PromiseOk(ExecuteRoute(s, a, RouteInsert, p, answer), p)
  {
    Relocate(s, ExecuteRoute(s, a, RouteInsert, p, answer), a, p);
  }

  lemma RouteEnqueueMoves(s: State, a: ActivationId, p: PromiseId, answer: Answer)
    requires Starts(s, a, Routing(RouteEnqueue, p), p) && answer.Success?
    ensures Transfers(s, ExecuteRoute(s, a, RouteEnqueue, p, answer), a, p)
  {
  }

  lemma RouteEnqueueKeeps(s: State, a: ActivationId, p: PromiseId, answer: Answer)
    requires Starts(s, a, Routing(RouteEnqueue, p), p) && answer.Success?
    ensures p in ExecuteRoute(s, a, RouteEnqueue, p, answer).promises && PromiseOk(ExecuteRoute(s, a, RouteEnqueue, p, answer), p)
  {
    Relocate(s, ExecuteRoute(s, a, RouteEnqueue, p, answer), a, p);
  }

  lemma RouteRemoveMoves(s: State, a: ActivationId, p: PromiseId, answer: Answer)
    requires Starts(s, a, Routing(RouteRemove, p), p)
    ensures Transfers(s, ExecuteRoute(s, a, RouteRemove, p, answer), a, p)
  {
  }

  lemma RouteRemoveKeeps(s: State, a: ActivationId, p: PromiseId, answer: Answer)
    requires Starts(s, a, Routing(RouteRemove, p), p)
    ensures p in ExecuteRoute(s, a, RouteRemove, p, answer).promises && PromiseOk(ExecuteRoute(s, a, RouteRemove, p, answer), p)
  {
    Relocate(s, ExecuteRoute(s, a, RouteRemove, p, answer), a, p);
  }

  lemma FallbackSwapMoves(s: State, a: ActivationId, p: PromiseId, answer: Answer)
    requires Starts(s, a, Falling(FallbackSwap, p), p) && !s.promises[p].fallbackQueued
    ensures Changes(s, ExecuteFallback(s, a, FallbackSwap, p, answer), a, p)
  {
  }

  lemma FallbackSwapKeeps(s: State, a: ActivationId, p: PromiseId, answer: Answer)
    requires Starts(s, a, Falling(FallbackSwap, p), p) && !s.promises[p].fallbackQueued
    ensures p in ExecuteFallback(s, a, FallbackSwap, p, answer).promises && PromiseOk(ExecuteFallback(s, a, FallbackSwap, p, answer), p)
  {
    Relocate(s, ExecuteFallback(s, a, FallbackSwap, p, answer), a, p);
  }

  lemma FallbackEnterMoves(s: State, a: ActivationId, p: PromiseId)
    requires Starts(s, a, Falling(FallbackCall, p), p)
    ensures Transfers(s, ExecuteFallback(s, a, FallbackCall, p, Success), a, p)
  {
  }

  lemma FallbackEnterKeeps(s: State, a: ActivationId, p: PromiseId)
    requires Starts(s, a, Falling(FallbackCall, p), p)
    ensures p in ExecuteFallback(s, a, FallbackCall, p, Success).promises && PromiseOk(ExecuteFallback(s, a, FallbackCall, p, Success), p)
  {
    Relocate(s, ExecuteFallback(s, a, FallbackCall, p, Success), a, p);
  }

  lemma FallbackFailMoves(s: State, a: ActivationId, p: PromiseId)
    requires Starts(s, a, Falling(FallbackCall, p), p)
    ensures Changes(s, ExecuteFallback(s, a, FallbackCall, p, Failed), a, p)
  {
  }

  lemma FallbackFailKeeps(s: State, a: ActivationId, p: PromiseId)
    requires Starts(s, a, Falling(FallbackCall, p), p)
    ensures p in ExecuteFallback(s, a, FallbackCall, p, Failed).promises && PromiseOk(ExecuteFallback(s, a, FallbackCall, p, Failed), p)
  {
    Relocate(s, ExecuteFallback(s, a, FallbackCall, p, Failed), a, p);
  }

  lemma AbandonSwapMoves(s: State, a: ActivationId, p: PromiseId)
    requires Starts(s, a, Abandoning(AbandonSwap, p), p) && !s.promises[p].settled
    ensures Changes(s, ExecuteAbandon(s, a, AbandonSwap, p), a, p)
  {
  }

  lemma AbandonSwapKeeps(s: State, a: ActivationId, p: PromiseId)
    requires Starts(s, a, Abandoning(AbandonSwap, p), p) && !s.promises[p].settled
    ensures p in ExecuteAbandon(s, a, AbandonSwap, p).promises && PromiseOk(ExecuteAbandon(s, a, AbandonSwap, p), p)
  {
    Relocate(s, ExecuteAbandon(s, a, AbandonSwap, p), a, p);
  }

  lemma AbandonOperationMoves(s: State, a: ActivationId, p: PromiseId)
    requires Starts(s, a, Abandoning(AbandonOperation, p), p)
    ensures Changes(s, ExecuteAbandon(s, a, AbandonOperation, p), a, p)
  {
  }

  lemma AbandonOperationKeeps(s: State, a: ActivationId, p: PromiseId)
    requires Starts(s, a, Abandoning(AbandonOperation, p), p)
    ensures p in ExecuteAbandon(s, a, AbandonOperation, p).promises && PromiseOk(ExecuteAbandon(s, a, AbandonOperation, p), p)
  {
    Relocate(s, ExecuteAbandon(s, a, AbandonOperation, p), a, p);
  }

  lemma AbandonResultMoves(s: State, a: ActivationId, p: PromiseId)
    requires Starts(s, a, Abandoning(AbandonResult, p), p)
    ensures Changes(s, ExecuteAbandon(s, a, AbandonResult, p), a, p)
  {
  }

  lemma AbandonResultKeeps(s: State, a: ActivationId, p: PromiseId)
    requires Starts(s, a, Abandoning(AbandonResult, p), p)
    ensures p in ExecuteAbandon(s, a, AbandonResult, p).promises && PromiseOk(ExecuteAbandon(s, a, AbandonResult, p), p)
  {
    Relocate(s, ExecuteAbandon(s, a, AbandonResult, p), a, p);
  }

  lemma CallbackRemoveMoves(s: State, a: ActivationId, p: PromiseId, answer: Answer)
    requires Starts(s, a, Calling(CallbackRemove, p), p)
    ensures Transfers(s, ExecuteCallback(s, a, CallbackRemove, p, answer), a, p)
  {
  }

  lemma CallbackRemoveKeeps(s: State, a: ActivationId, p: PromiseId, answer: Answer)
    requires Starts(s, a, Calling(CallbackRemove, p), p)
    ensures p in ExecuteCallback(s, a, CallbackRemove, p, answer).promises && PromiseOk(ExecuteCallback(s, a, CallbackRemove, p, answer), p)
  {
    Relocate(s, ExecuteCallback(s, a, CallbackRemove, p, answer), a, p);
  }

  lemma SettleSwapMoves(s: State, a: ActivationId, p: PromiseId)
    requires Starts(s, a, Deciding(SettleSwap, p), p) && !s.promises[p].settled
    ensures Changes(s, ExecuteDecide(s, a, SettleSwap, p), a, p)
  {
  }

  lemma SettleSwapKeeps(s: State, a: ActivationId, p: PromiseId)
    requires Starts(s, a, Deciding(SettleSwap, p), p) && !s.promises[p].settled
    ensures p in ExecuteDecide(s, a, SettleSwap, p).promises && PromiseOk(ExecuteDecide(s, a, SettleSwap, p), p)
  {
    Relocate(s, ExecuteDecide(s, a, SettleSwap, p), a, p);
  }

  lemma SettleTakeMoves(s: State, a: ActivationId, p: PromiseId, answer: Answer)
    requires Starts(s, a, Settling(SettleTake, p), p)
    ensures Changes(s, ExecuteSettle(s, a, SettleTake, p, answer), a, p)
  {
  }

  lemma SettleTakeKeeps(s: State, a: ActivationId, p: PromiseId, answer: Answer)
    requires Starts(s, a, Settling(SettleTake, p), p)
    ensures p in ExecuteSettle(s, a, SettleTake, p, answer).promises && PromiseOk(ExecuteSettle(s, a, SettleTake, p, answer), p)
  {
    Relocate(s, ExecuteSettle(s, a, SettleTake, p, answer), a, p);
  }

  lemma SettleDestroyMoves(s: State, a: ActivationId, p: PromiseId, answer: Answer)
    requires Starts(s, a, Settling(SettleDestroy, p), p)
    ensures Changes(s, ExecuteSettle(s, a, SettleDestroy, p, answer), a, p)
  {
  }

  lemma SettleDestroyKeeps(s: State, a: ActivationId, p: PromiseId, answer: Answer)
    requires Starts(s, a, Settling(SettleDestroy, p), p)
    ensures p in ExecuteSettle(s, a, SettleDestroy, p, answer).promises && PromiseOk(ExecuteSettle(s, a, SettleDestroy, p, answer), p)
  {
    Relocate(s, ExecuteSettle(s, a, SettleDestroy, p, answer), a, p);
  }

  lemma SettleDeleteMoves(s: State, a: ActivationId, p: PromiseId, answer: Answer)
    requires Starts(s, a, Settling(SettleDelete, p), p)
    ensures Changes(s, ExecuteSettle(s, a, SettleDelete, p, answer), a, p)
  {
  }

  lemma SettleDeleteKeeps(s: State, a: ActivationId, p: PromiseId, answer: Answer)
    requires Starts(s, a, Settling(SettleDelete, p), p)
    ensures p in ExecuteSettle(s, a, SettleDelete, p, answer).promises && PromiseOk(ExecuteSettle(s, a, SettleDelete, p, answer), p)
  {
    Relocate(s, ExecuteSettle(s, a, SettleDelete, p, answer), a, p);
  }

  lemma SettleDeferredMoves(s: State, a: ActivationId, p: PromiseId, c: Completion, answer: Answer)
    requires Starts(s, a, Settling(SettlePoint.SettleDeferred(c), p), p)
    ensures Changes(s, ExecuteSettle(s, a, SettlePoint.SettleDeferred(c), p, answer), a, p)
  {
  }

  lemma SettleDeferredKeeps(s: State, a: ActivationId, p: PromiseId, c: Completion, answer: Answer)
    requires Starts(s, a, Settling(SettlePoint.SettleDeferred(c), p), p)
    ensures p in ExecuteSettle(s, a, SettlePoint.SettleDeferred(c), p, answer).promises && PromiseOk(ExecuteSettle(s, a, SettlePoint.SettleDeferred(c), p, answer), p)
  {
    Relocate(s, ExecuteSettle(s, a, SettlePoint.SettleDeferred(c), p, answer), a, p);
  }

  // ---- losing a race: another activation already settled or queued the promise ----

  predicate LosesRace(s: State, pc: Pc, p: PromiseId)
    requires p in s.promises
  {
    || (pc == Falling(FallbackSwap, p) && s.promises[p].fallbackQueued)
    || ((pc == Abandoning(AbandonSwap, p) || pc == Deciding(SettleSwap, p)) && s.promises[p].settled)
  }

  lemma RaceLost(s: State, a: ActivationId, p: PromiseId)
    requires a in s.acts && Starts(s, a, s.acts[a].pc, p) && LosesRace(s, s.acts[a].pc, p)
    ensures Changes(s, Goto(s, a, NextItem), a, p)
  {
  }

  lemma RaceLostKeeps(s: State, a: ActivationId, p: PromiseId)
    requires a in s.acts && Starts(s, a, s.acts[a].pc, p) && LosesRace(s, s.acts[a].pc, p)
    ensures PromiseOk(Goto(s, a, NextItem), p)
  {
    var s' := Goto(s, a, NextItem);
    assert LocationOk(s', p) by { Relocate(s, s', a, p); }
    SparedWinner(s, s', a, p);
    SparedRegistry(s, s', a, p);
  }

  // ---- steps that only move the program counter ----

  lemma MovePreserves(s: State, a: ActivationId, pc': Pc)
    requires Inv(s) && Ready(s, a) && Flows(s.acts[a].pc, pc')
    requires !Pivotal(s.acts[a].pc) && !Critical(s.acts[a].pc) && !Critical(pc')
    requires HoldsPc(s.acts[a].pc) <= HoldsPc(pc') && Delivers(s.acts[a].pc) <= Delivers(pc')
    requires s.acts[a].k.CleanupRegistry? ==> pc' == s.acts[a].pc
    requires PcOk(Goto(s, a, pc'), a, pc')
    ensures Inv(Goto(s, a, pc'))
  {
    assert ActOk(s, a);
    FlowsOk(s, Goto(s, a, pc'), a, s.acts[a], s.acts[a].(pc := pc'));
    PureMove(s, a, s.acts[a].(pc := pc'));
  }
}
