/** Building runs of the settlement protocol step by step. */
module AsyncRuns {
  import opened Wrappers
  import opened AsyncDispatcher
  import opened AsyncPromise
  import opened AsyncTheorems

  ghost predicate Arrives(s: State) {
    exists labels :: Reaches(labels, s)
  }

  lemma {:induction false} RunAppend(s: State, first: seq<Label>, rest: seq<Label>)
    requires Run(s, first).Some?
    ensures Run(s, first + rest) == Run(Run(s, first).value, rest)
    decreases |first|
  {
    if first == [] {
      assert first + rest == rest;
    } else {
      assert (first + rest)[1..] == first[1..] + rest;
      RunAppend(Apply(s, first[0]), first[1..], rest);
    }
  }

  lemma Arrive(s: State, l: Label)
    requires Arrives(s) && Enabled(s, l)
    ensures Arrives(Apply(s, l))
  {
    var labels :| Reaches(labels, s);
    RunAppend(INITIAL, labels, [l]);
    assert Run(Apply(s, l), []) == Some(Apply(s, l));
    assert Reaches(labels + [l], Apply(s, l));
  }

  lemma Overwrites<V(!new)>(m: map<nat, V>, k: nat)
    ensures forall x, y {:trigger m[k := x][k := y]} :: m[k := x][k := y] == m[k := y]
  {
  }

  /** One step of `a`, from `s` with `a` at `act` to `s'` with `a` at `act'`. */
  lemma Moves(s: State, a: ActivationId, act: Activation, answer: Answer, s': State, act': Activation)
    requires Arrives(Enter(s, a, act)) && Ready(Enter(s, a, act), a) && GoodAnswer(act, answer)
    requires Execute(Enter(s, a, act), a, answer) == Enter(s'.(acts := Enter(s, a, act).acts), a, act') && s'.acts == s.acts
    ensures Arrives(Enter(s', a, act'))
  {
    Overwrites(s.acts, a);
    assert Enabled(Enter(s, a, act), Step(a, answer));
    Arrive(Enter(s, a, act), Step(a, answer));
  }

  /** The function `a` was in returns to nobody. */
  lemma Leaves(s: State, a: ActivationId, onJs: bool)
    requires a !in s.acts && (onJs ==> OthersParked(s, a))
    requires Arrives(Enter(s, a, Activation(onJs, NextItem, Return)))
    ensures Arrives(s)
  {
    var t := Enter(s, a, Activation(onJs, NextItem, Return));
    assert Enabled(t, Step(a, Success));
    Arrive(t, Step(a, Success));
    assert t.acts - {a} == s.acts;
    assert Apply(t, Step(a, Success)) == ExecuteNext(t, a, Success);
  }

  function Worker(pc: Pc): Activation {
    Activation(false, pc, Return)
  }

  // ---- the steps of a settlement ----

  lemma Decides(s: State, p: PromiseId, a: ActivationId, k: Continuation)
    requires Arrives(Enter(s, a, Activation(true, Deciding(SettleUpgrade, p), k))) && OthersParked(s, a) && a !in s.acts
    requires s.alive && !s.d.closing && p in s.promises
    ensures Arrives(Enter(s, a, Activation(true, Deciding(SettleSwap, p), k)))
  {
    Moves(s, a, Activation(true, Deciding(SettleUpgrade, p), k), Success, s, Activation(true, Deciding(SettleCheck, p), k));
    Moves(s, a, Activation(true, Deciding(SettleCheck, p), k), Success, s, Activation(true, Deciding(SettleSwap, p), k));
  }

  lemma Wins(s: State, p: PromiseId, a: ActivationId, k: Continuation)
    requires Arrives(Enter(s, a, Activation(true, Deciding(SettleSwap, p), k))) && OthersParked(s, a) && a !in s.acts
    requires p in s.promises && !s.promises[p].settled
    ensures var pr := s.promises[p].(settled := true, fate := Settled, winner := a);
            Arrives(Enter(SetPromise(s, p, pr), a, Activation(true, Settling(SettleTake, p), k)))
  {
    var t := SetPromise(s, p, s.promises[p].(settled := true, fate := Settled, winner := a));
    Moves(s, a, Activation(true, Deciding(SettleSwap, p), k), Success, t, Activation(true, Settling(SettleTake, p), k));
  }

  lemma TakesResult(s: State, p: PromiseId, a: ActivationId, k: Continuation)
    requires Arrives(Enter(s, a, Activation(true, Settling(SettleTake, p), k))) && OthersParked(s, a) && a !in s.acts
    requires p in s.promises && s.promises[p].result.Some? && s.promises[p].resultLock.None?
    ensures Arrives(Enter(SetPromise(s, p, s.promises[p].(result := None)), a,
                          Activation(true, Settling(SettleDeferred(s.promises[p].result.value), p), k)))
  {
    var t := SetPromise(s, p, s.promises[p].(result := None));
    var c := s.promises[p].result.value;
    Moves(s, a, Activation(true, Settling(SettleTake, p), k), Success, t, Activation(true, Settling(SettleDeferred(c), p), k));
  }

  lemma Resolves(s: State, p: PromiseId, a: ActivationId, c: Completion, k: Continuation)
    requires Arrives(Enter(s, a, Activation(true, Settling(SettleDeferred(c), p), k))) && OthersParked(s, a) && a !in s.acts && p in s.promises
    ensures Arrives(Enter(SetPromise(s, p, s.promises[p].(deferred := s.promises[p].deferred + 1, outcome := Some(c))), a,
                          Activation(true, Settling(SettleDestroy, p), k)))
  {
    var t := SetPromise(s, p, s.promises[p].(deferred := s.promises[p].deferred + 1, outcome := Some(c)));
    Moves(s, a, Activation(true, Settling(SettleDeferred(c), p), k), Success, t, Activation(true, Settling(SettleDestroy, p), k));
  }

  lemma Destroys(s: State, p: PromiseId, a: ActivationId, k: Continuation)
    requires Arrives(Enter(s, a, Activation(true, Settling(SettleDestroy, p), k))) && OthersParked(s, a) && a !in s.acts && p in s.promises
    ensures Arrives(Enter(SetPromise(s, p, s.promises[p].(contexts := s.promises[p].contexts + 1)), a,
                          Activation(true, Settling(SettleDelete, p), k)))
  {
    var t := SetPromise(s, p, s.promises[p].(contexts := s.promises[p].contexts + 1));
    Moves(s, a, Activation(true, Settling(SettleDestroy, p), k), Success, t, Activation(true, Settling(SettleDelete, p), k));
  }

  lemma Deletes(s: State, p: PromiseId, a: ActivationId, k: Continuation)
    requires Arrives(Enter(s, a, Activation(true, Settling(SettleDelete, p), k))) && OthersParked(s, a) && a !in s.acts && p in s.promises
    ensures Arrives(Enter(SetPromise(s, p, s.promises[p].(references := s.promises[p].references + 1)), a,
                          Activation(true, Finishing(p), k)))
  {
    var t := SetPromise(s, p, s.promises[p].(references := s.promises[p].references + 1));
    Moves(s, a, Activation(true, Settling(SettleDelete, p), k), Success, t, Activation(true, Finishing(p), k));
  }

  lemma Closes(s: State, p: PromiseId, a: ActivationId, c: Completion, k: Continuation)
    requires Arrives(Enter(s, a, Activation(true, Settling(SettleDeferred(c), p), k))) && OthersParked(s, a) && a !in s.acts && p in s.promises
    ensures var pr := s.promises[p];
            Arrives(Enter(SetPromise(s, p, pr.(deferred := pr.deferred + 1, outcome := Some(c), contexts := pr.contexts + 1)),
                          a, Activation(true, Settling(SettleDelete, p), k)))
  {
    Overwrites(s.promises, p);
    Resolves(s, p, a, c, k);
    Destroys(SetPromise(s, p, s.promises[p].(deferred := s.promises[p].deferred + 1, outcome := Some(c))), p, a, k);
  }
}
