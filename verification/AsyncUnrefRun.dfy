/**
 A run in which the unref after the last promise fails natively: nothing is registered and
 the dispatcher counts as unreferenced, but the native function keeps the event loop alive.
 */
module AsyncUnrefRun {
  import opened Wrappers
  import opened AsyncDispatcher
  import opened AsyncPromise
  import opened AsyncInvariant
  import opened AsyncTheorems
  import opened AsyncRuns
  import opened AsyncLosses

  const DELIVERED := SWAPPED.(entries := 1)
  const WON := DELIVERED.(settled := true, fate := Settled, winner := 0, result := None)
  const CLOSED := WON.(deferred := 1, outcome := Some(Value(7)), contexts := 1)
  const DONE := CLOSED.(references := 1)

  function Quiescent(registry: set<PromiseId>, pr: Promise, tsfn: set<PromiseId>, refs: seq<RefEvent>): State {
    State(Dispatcher(false, registry, registry != {}, None), map[0 := pr], multiset{}, tsfn, map[], false, true, None, false, refs)
  }

  function Js(pc: Pc): Activation {
    Activation(true, pc, Return)
  }

  lemma Delivers()
    ensures Arrives(Quiescent({0}, DELIVERED, {0}, [Ref]))
  {
    RunSwaps();
    var s, t := Quiescent({0}, SWAPPED, {}, [Ref]), Quiescent({0}, DELIVERED, {0}, [Ref]);
    assert Enter(s, 0, Worker(Falling(FallbackCall, 0))).acts == After(SWAPPED, Falling(FallbackCall, 0)).acts;
    assert s.promises[0 := DELIVERED] == t.promises && {} + {0} == {0};
    Moves(s, 0, Worker(Falling(FallbackCall, 0)), Success, t, Worker(NextItem));
    Leaves(t, 0, false);
  }

  lemma Decided()
    ensures Arrives(Enter(Quiescent({0}, DELIVERED, {}, [Ref]), 0, Js(Deciding(SettleSwap, 0))))
  {
    Delivers();
    Arrive(Quiescent({0}, DELIVERED, {0}, [Ref]), TsfnCallback(0, 0, false));
    var s := Quiescent({0}, DELIVERED, {}, [Ref]);
    assert {0} - {0} == {};
    Moves(s, 0, Js(Calling(TsfnCheck, 0)), Success, s, Js(Deciding(SettleUpgrade, 0)));
    Decides(s, 0, 0, Return);
  }

  lemma Settles()
    ensures Arrives(Enter(Quiescent({0}, WON, {}, [Ref]), 0, Js(Settling(SettleDeferred(Value(7)), 0))))
  {
    Decided();
    var s := Quiescent({0}, DELIVERED, {}, [Ref]);
    Overwrites(s.promises, 0);
    Wins(s, 0, 0, Return);
    var t := SetPromise(s, 0, DELIVERED.(settled := true, fate := Settled, winner := 0));
    TakesResult(t, 0, 0, Return);
    assert SetPromise(s, 0, WON).promises == Quiescent({0}, WON, {}, [Ref]).promises;
  }

  lemma Finishes()
    ensures Arrives(Enter(Quiescent({0}, DONE, {}, [Ref]), 0, Js(Finishing(0))))
  {
    Settles();
    var s := Quiescent({0}, WON, {}, [Ref]);
    Closes(s, 0, 0, Value(7), Return);
    var t := Quiescent({0}, CLOSED, {}, [Ref]);
    assert SetPromise(s, 0, CLOSED).promises == t.promises;
    Deletes(t, 0, 0, Return);
    assert SetPromise(t, 0, DONE).promises == Quiescent({0}, DONE, {}, [Ref]).promises;
  }

  lemma Unrefs()
    ensures Arrives(Quiescent({}, DONE, {}, [Ref, Unref(false)]))
  {
    Finishes();
    var s, t := Quiescent({0}, DONE, {}, [Ref]), Quiescent({}, DONE, {}, [Ref]);
    assert {0} - {0} == {};
    Moves(s, 0, Js(Finishing(0)), Success, t, Js(Unreferencing));
    var u := Quiescent({}, DONE, {}, [Ref, Unref(false)]);
    assert [Ref] + [Unref(false)] == [Ref, Unref(false)];
    Moves(t, 0, Js(Unreferencing), Failed, u, Js(NextItem));
    Leaves(u, 0, true);
  }

  /** The environment is open, no call is in progress and nothing is registered; still the native function is referenced. */
  lemma SomeUnrefFails()
    ensures exists labels, s :: Reaches(labels, s) && s.acts == map[] && !s.d.closing && s.d.registry == {}
                                && !s.d.tsfnReferenced && NativelyReferenced(s.refs)
  {
    Unrefs();
    var s := Quiescent({}, DONE, {}, [Ref, Unref(false)]);
    assert s.refs[..1] == [Ref];
    var labels :| Reaches(labels, s);
  }
}
