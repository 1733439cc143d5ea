/** The invariant holds initially and every label keeps it. */
module AsyncPreserves {
  import opened Wrappers
  import opened AsyncDispatcher
  import opened AsyncPromise
  import opened AsyncInvariant
  import opened AsyncFrame
  import opened AsyncSteps

  lemma Begin(s: State, a: ActivationId, p: PromiseId)
    requires Inv(s) && Ready(s, a) && Mentions(s.acts[a].pc) == {p}
    ensures Starts(s, a, s.acts[a].pc, p) && ActOk(s, a)
  {
    assert ActOk(s, a) && p in s.promises && PromiseOk(s, p);
  }

  lemma CompleteLockPreserves(s: State, a: ActivationId, p: PromiseId, r: Completion)
    requires Inv(s) && Ready(s, a) && s.acts[a].pc == Completing(CompleteLock, p, r)
    requires p in s.promises && s.promises[p].result.None? && !s.promises[p].settled
    ensures Inv(ExecuteComplete(s, a, CompleteLock, p, r))
  {
    Begin(s, a, p);
    CompleteLockMoves(s, a, p, r);
    CompleteLockKeeps(s, a, p, r);
    ChangePreserves(s, ExecuteComplete(s, a, CompleteLock, p, r), a, p);
  }

  lemma CompleteWritePreserves(s: State, a: ActivationId, p: PromiseId, r: Completion)
    requires Inv(s) && Ready(s, a) && s.acts[a].pc == Completing(CompleteWrite, p, r)
    ensures p in s.promises && Inv(ExecuteComplete(s, a, CompleteWrite, p, r))
  {
    Begin(s, a, p);
    CompleteWriteMoves(s, a, p, r);
    CompleteWriteKeeps(s, a, p, r);
    ChangePreserves(s, ExecuteComplete(s, a, CompleteWrite, p, r), a, p);
  }

  lemma CompletePreserves(s: State, a: ActivationId, at: CompletePoint, p: PromiseId, r: Completion)
    requires Inv(s) && Ready(s, a) && s.acts[a].pc == Completing(at, p, r)
    ensures p in s.promises && Inv(ExecuteComplete(s, a, at, p, r))
  {
    Begin(s, a, p);
    if at.CompleteWrite? {
      CompleteWritePreserves(s, a, p, r);
    } else if at.CompleteLock? && s.promises[p].result.None? && !s.promises[p].settled {
      CompleteLockPreserves(s, a, p, r);
    } else {
      MovePreserves(s, a, ExecuteComplete(s, a, at, p, r).acts[a].pc);
    }
  }

  lemma RoutePreserves(s: State, a: ActivationId, at: RoutePoint, p: PromiseId, answer: Answer)
    requires Inv(s) && Ready(s, a) && s.acts[a].pc == Routing(at, p)
    ensures Inv(ExecuteRoute(s, a, at, p, answer))
  {
    Begin(s, a, p);
    var s' := ExecuteRoute(s, a, at, p, answer);
    if at.RouteInsert? {
      RouteInsertMoves(s, a, p, answer);
      RouteInsertKeeps(s, a, p, answer);
      TransferPreserves(s, s', a, p);
    } else if at.RouteRemove? {
      RouteRemoveMoves(s, a, p, answer);
      RouteRemoveKeeps(s, a, p, answer);
      TransferPreserves(s, s', a, p);
    } else if at.RouteEnqueue? && answer.Success? {
      RouteEnqueueMoves(s, a, p, answer);
      RouteEnqueueKeeps(s, a, p, answer);
      TransferPreserves(s, s', a, p);
    } else {
      MovePreserves(s, a, s'.acts[a].pc);
    }
  }

  lemma FallbackPreserves(s: State, a: ActivationId, at: FallbackPoint, p: PromiseId, answer: Answer)
    requires Inv(s) && Ready(s, a) && s.acts[a].pc == Falling(at, p) && GoodAnswer(s.acts[a], answer)
    ensures p in s.promises && Inv(ExecuteFallback(s, a, at, p, answer))
  {
    Begin(s, a, p);
    var s' := ExecuteFallback(s, a, at, p, answer);
    if at.FallbackSwap? && s.promises[p].fallbackQueued {
      RaceLost(s, a, p);
      RaceLostKeeps(s, a, p);
      ChangePreserves(s, s', a, p);
    } else if at.FallbackSwap? {
      FallbackSwapMoves(s, a, p, answer);
      FallbackSwapKeeps(s, a, p, answer);
      ChangePreserves(s, s', a, p);
    } else if at.FallbackCall? && answer.Success? {
      FallbackEnterMoves(s, a, p);
      FallbackEnterKeeps(s, a, p);
      TransferPreserves(s, s', a, p);
    } else if at.FallbackCall? && answer.Failed? {
      FallbackFailMoves(s, a, p);
      FallbackFailKeeps(s, a, p);
      ChangePreserves(s, s', a, p);
    } else {
      MovePreserves(s, a, s'.acts[a].pc);
    }
  }

  lemma AbandonPreserves(s: State, a: ActivationId, at: AbandonPoint, p: PromiseId)
    requires Inv(s) && Ready(s, a) && s.acts[a].pc == Abandoning(at, p)
    ensures p in s.promises && Inv(ExecuteAbandon(s, a, at, p))
  {
    Begin(s, a, p);
    match at {
    case AbandonSwap =>
      if s.promises[p].settled {
        RaceLost(s, a, p);
        RaceLostKeeps(s, a, p);
      } else {
        AbandonSwapMoves(s, a, p);
        AbandonSwapKeeps(s, a, p);
      }
    case AbandonOperation =>
      AbandonOperationMoves(s, a, p);
      AbandonOperationKeeps(s, a, p);
    case AbandonResult =>
      AbandonResultMoves(s, a, p);
      AbandonResultKeeps(s, a, p);
    }
    ChangePreserves(s, ExecuteAbandon(s, a, at, p), a, p);
  }

  lemma CallbackPreserves(s: State, a: ActivationId, at: CallbackPoint, p: PromiseId, answer: Answer)
    requires Inv(s) && Ready(s, a) && s.acts[a].pc == Calling(at, p)
    ensures Inv(ExecuteCallback(s, a, at, p, answer))
  {
    Begin(s, a, p);
    var s' := ExecuteCallback(s, a, at, p, answer);
    if at.CallbackRemove? {
      CallbackRemoveMoves(s, a, p, answer);
      CallbackRemoveKeeps(s, a, p, answer);
      TransferPreserves(s, s', a, p);
    } else {
      MovePreserves(s, a, s'.acts[a].pc);
    }
  }

  lemma DecidePreserves(s: State, a: ActivationId, at: DecidePoint, p: PromiseId)
    requires Inv(s) && Ready(s, a) && s.acts[a].pc == Deciding(at, p)
    ensures p in s.promises && Inv(ExecuteDecide(s, a, at, p))
  {
    Begin(s, a, p);
    var s' := ExecuteDecide(s, a, at, p);
    if at.SettleSwap? {
      if s.promises[p].settled {
        RaceLost(s, a, p);
        RaceLostKeeps(s, a, p);
      } else {
        SettleSwapMoves(s, a, p);
        SettleSwapKeeps(s, a, p);
      }
      ChangePreserves(s, s', a, p);
    } else {
      MovePreserves(s, a, s'.acts[a].pc);
    }
  }

  lemma SettlePreserves(s: State, a: ActivationId, at: SettlePoint, p: PromiseId, answer: Answer)
    requires Inv(s) && Ready(s, a) && s.acts[a].pc == Settling(at, p)
    ensures p in s.promises && Inv(ExecuteSettle(s, a, at, p, answer))
  {
    Begin(s, a, p);
    match at {
    case SettleTake =>
      SettleTakeMoves(s, a, p, answer);
      SettleTakeKeeps(s, a, p, answer);
    case SettleDeferred(c) =>
      SettleDeferredMoves(s, a, p, c, answer);
      SettleDeferredKeeps(s, a, p, c, answer);
    case SettleDestroy =>
      SettleDestroyMoves(s, a, p, answer);
      SettleDestroyKeeps(s, a, p, answer);
    case SettleDelete =>
      SettleDeleteMoves(s, a, p, answer);
      SettleDeleteKeeps(s, a, p, answer);
    }
    ChangePreserves(s, ExecuteSettle(s, a, at, p, answer), a, p);
  }

  // ---- loops ----

  lemma DrainedPreserves(s: State, a: ActivationId, list: set<PromiseId>)
    requires Inv(s) && Ready(s, a) && s.acts[a].pc == Drained(list)
    ensures Inv(ExecuteDrained(s, a, list))
  {
    assert ActOk(s, a);
    StableLists(s, ExecuteDrained(s, a, list), a, list);
    PureMove(s, a, ExecuteDrained(s, a, list).acts[a]);
  }

  lemma LoopItemOk(s: State, a: ActivationId, answer: Answer)
    requires Inv(s) && Ready(s, a) && s.acts[a].pc.NextItem? && GoodAnswer(s.acts[a], answer)
    requires !s.acts[a].k.Return? && s.acts[a].k.list != {}
    ensures ActOk(ExecuteNext(s, a, answer), a)
  {
    var s' := ExecuteNext(s, a, answer);
    assert ActOk(s, a);
    assert s.acts[a].k.CleanupRegistry? ==> IsRegistered(s, answer.p);
    assert !s.acts[a].k.CleanupRegistry? ==> Stored(s, answer.p);
    assert PromiseOk(s, answer.p);
    assert Guarantees(s, s', a);
    StableLists(s, s', a, s.acts[a].k.list);
    assert AllStored(s', s.acts[a].k.list) ==> AllStored(s', s.acts[a].k.list - {answer.p}) by {
      assert forall q :: q in s.acts[a].k.list - {answer.p} ==> q in s.acts[a].k.list;
    }
  }

  lemma LoopRetains(s: State, a: ActivationId, answer: Answer)
    requires s.acts.Keys >= {a} && s.acts[a].pc.NextItem? && GoodAnswer(s.acts[a], answer)
    requires !s.acts[a].k.Return? && s.acts[a].k.list != {}
    ensures var act' := ExecuteNext(s, a, answer).acts[a];
      && ExecuteNext(s, a, answer) == Enter(s, a, act') && act'.onJs == s.acts[a].onJs
      && Retains(s.acts[a], act') && !Critical(act'.pc)
  {
    var list := s.acts[a].k.list;
    assert list <= {answer.p} + (list - {answer.p});
    match s.acts[a].k
    case DrainLoop(_, _, _) =>
    case CleanupPending(_) =>
    case CleanupRegistry(_) =>
  }

  lemma LoopPreserves(s: State, a: ActivationId, answer: Answer)
    requires Inv(s) && Ready(s, a) && s.acts[a].pc.NextItem? && GoodAnswer(s.acts[a], answer)
    requires !s.acts[a].k.Return? && s.acts[a].k.list != {}
    ensures Inv(ExecuteNext(s, a, answer))
  {
    LoopItemOk(s, a, answer);
    LoopRetains(s, a, answer);
    PureMove(s, a, ExecuteNext(s, a, answer).acts[a]);
  }

  lemma LoopEnds(s: State, a: ActivationId, answer: Answer)
    requires Inv(s) && Ready(s, a) && s.acts[a].pc.NextItem?
    requires !s.acts[a].k.Return? && s.acts[a].k.list == {}
    requires s.acts[a].k.DrainLoop? ==> s.acts[a].k.unregister
    ensures Inv(ExecuteNext(s, a, answer))
  {
    assert ActOk(s, a);
    PureMove(s, a, ExecuteNext(s, a, answer).acts[a]);
  }

  lemma Returns(s: State, a: ActivationId)
    requires Inv(s) && Ready(s, a) && s.acts[a].pc.NextItem?
    requires s.acts[a].k.Return? || (s.acts[a].k.DrainLoop? && s.acts[a].k.list == {})
    ensures Inv(s.(acts := s.acts - {a}))
  {
    var s' := s.(acts := s.acts - {a});
    assert ActOk(s, a);
    SameReferences(s, s', a);
    assert Guarantees(s, s', a);
    assert SparesAllBut(s, s', a, {});
    Assemble(s, s', a, {});
  }

  lemma NextPreserves(s: State, a: ActivationId, answer: Answer)
    requires Inv(s) && Ready(s, a) && s.acts[a].pc.NextItem? && GoodAnswer(s.acts[a], answer)
    ensures Inv(ExecuteNext(s, a, answer))
  {
    var k := s.acts[a].k;
    if k.Return? || (k.DrainLoop? && k.list == {} && !k.unregister) {
      Returns(s, a);
    } else if k.list == {} {
      LoopEnds(s, a, answer);
    } else {
      LoopPreserves(s, a, answer);
    }
  }

  // ---- the queue ----

  lemma ShadowedStored(s: State)
    requires Inv(s)
    ensures s.d.queue.Some? ==> AllStored(s, s.d.queue.value.pending)
  {
    if s.d.queue.Some? {
      forall p | p in s.d.queue.value.pending ensures Stored(s, p) {
        assert PromiseOk(s, p);
      }
    }
  }

  lemma DrainSpares(s: State, a: ActivationId)
    requires Inv(s) && Ready(s, a) && s.acts[a].pc.Draining?
    ensures SparesAllBut(s, ExecuteDrain(s, a), a, {})
  {
    assert ActOk(s, a);
  }

  lemma DrainPreserves(s: State, a: ActivationId)
    requires Inv(s) && Ready(s, a) && s.acts[a].pc.Draining?
    ensures Inv(ExecuteDrain(s, a))
  {
    var s' := ExecuteDrain(s, a);
    assert ActOk(s, a);
    ShadowedStored(s);
    SameReferences(s, s', a);
    DrainSpares(s, a);
    assert Guarantees(s, s', a);
    StableLists(s, s', a, DrainPending(s.d).1);
    Assemble(s, s', a, {});
  }

  lemma DropSpares(s: State, a: ActivationId)
    requires Inv(s) && Ready(s, a) && s.acts[a].pc.DroppingQueue?
    ensures SparesAllBut(s, ExecuteDrop(s, a), a, {}) && Guarantees(s, ExecuteDrop(s, a), a)
  {
    assert ActOk(s, a);
  }

  lemma DropPreserves(s: State, a: ActivationId)
    requires Inv(s) && Ready(s, a) && s.acts[a].pc.DroppingQueue?
    ensures Inv(ExecuteDrop(s, a))
  {
    var s' := ExecuteDrop(s, a);
    assert ActOk(s, a);
    SameReferences(s, s', a);
    DropSpares(s, a);
    Assemble(s, s', a, {});
  }

  lemma InstallPreserves(s: State, a: ActivationId, checked: bool)
    requires Inv(s) && Ready(s, a) && s.acts[a].pc == Installing(checked)
    ensures Inv(ExecuteInstall(s, a, checked))
  {
    var s' := ExecuteInstall(s, a, checked);
    assert ActOk(s, a);
    if checked {
      SameReferences(s, s', a);
      assert Guarantees(s, s', a);
      assert SparesAllBut(s, s', a, {});
      Assemble(s, s', a, {});
    } else {
      PureMove(s, a, s'.acts[a]);
    }
  }
}
