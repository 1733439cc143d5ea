/** What the settlement protocol guarantees in every run. */
module AsyncTheorems {
  import opened Wrappers
  import opened AsyncDispatcher
  import opened AsyncPromise
  import opened AsyncInvariant
  import opened AsyncReachable
  import opened AsyncProgress

  predicate Reaches(labels: seq<Label>, s: State) {
    Run(INITIAL, labels) == Some(s)
  }

  lemma Reachable(labels: seq<Label>, s: State)
    requires Reaches(labels, s)
    ensures Inv(s)
  {
    InitialInv();
    RunPreserves(INITIAL, labels);
  }

  // ---- no completion is lost ----

  predicate NoneFlagged(s: State) {
    forall p :: p in s.promises ==> !Flagged(s.promises[p])
  }

  lemma BenignKeeps(s: State, l: Label, p: PromiseId)
    requires Inv(s) && Enabled(s, l) && Benign(s, l) && p in s.promises && !Flagged(s.promises[p])
    ensures p in Apply(s, l).promises && !Flagged(Apply(s, l).promises[p])
    ensures !l.Create? ==> Apply(s, l).promises.Keys == s.promises.Keys
  {
    LabelAdvances(s, l, p);
  }

  lemma BenignStep(s: State, l: Label)
    requires Inv(s) && Enabled(s, l) && Benign(s, l) && NoneFlagged(s)
    ensures NoneFlagged(Apply(s, l))
  {
    var s' := Apply(s, l);
    forall p | p in s'.promises ensures !Flagged(s'.promises[p]) {
      if p in s.promises {
        BenignKeeps(s, l, p);
      } else if !l.Create? && s.promises != map[] {
        var q :| q in s.promises;
        BenignKeeps(s, l, q);
      }
    }
  }

  lemma {:induction false} BenignRunUnflagged(s: State, labels: seq<Label>)
    requires Inv(s) && NoneFlagged(s) && BenignRun(s, labels) && Run(s, labels).Some?
    ensures NoneFlagged(Run(s, labels).value)
    decreases |labels|
  {
    if labels != [] {
      LabelPreserves(s, labels[0]);
      BenignStep(s, labels[0]);
      BenignRunUnflagged(Apply(s, labels[0]), labels[1..]);
    }
  }

  /**
   In every interleaving, a stored completion whose promise is still open is in the shadow
   map of a queue that still accepts, in the thread-safe function's queue, or held by an
   activation that will hand it on; unless a native call failed with a status other than
   closing, or a queue was dropped while it was accepting.
   */
  lemma NoCompletionLost(labels: seq<Label>, s: State, p: PromiseId)
    requires Reaches(labels, s) && Waiting(s, p)
    ensures BenignRun(INITIAL, labels) ==> Located(s, p)
    ensures !Located(s, p) ==> Flagged(s.promises[p])
    ensures s.d.Shadows(p) ==> s.d.Accepting()
  {
    Reachable(labels, s);
    assert PromiseOk(s, p);
    if BenignRun(INITIAL, labels) {
      InitialInv();
      BenignRunUnflagged(INITIAL, labels);
    }
  }

  /** A queue that stopped accepting is empty, and no promise enters the thread-safe function twice. */
  lemma QueuesStayClean(labels: seq<Label>, s: State, p: PromiseId)
    requires Reaches(labels, s) && p in s.promises
    ensures s.d.QueueDrained()
    ensures s.promises[p].entries <= 1
    ensures p in s.tsfn ==> s.promises[p].entries == 1
    ensures s.promises[p].entries == 1 ==> s.promises[p].fallbackQueued && s.promises[p].first.Some?
  {
    Reachable(labels, s);
    assert PromiseOk(s, p);
  }

  // ---- settled or abandoned, once ----

  /** No activation works on the promise. */
  predicate Unattended(s: State, p: PromiseId) {
    forall a {:trigger s.acts[a]} :: a in s.acts ==> p !in Mentions(s.acts[a].pc)
  }

  /**
   A promise is settled or abandoned, never both: an abandoned one never reaches its
   deferred, async context or resource reference, a settled one reaches each of them
   exactly once, and an open one not at all. The deferred is resolved with nothing but the
   completion that was stored first; it may be rejected with another error.
   */
  lemma SettledOnce(labels: seq<Label>, s: State, p: PromiseId)
    requires Reaches(labels, s) && p in s.promises
    ensures var pr := s.promises[p];
      && (pr.settled <==> !pr.fate.Open?)
      && pr.deferred + pr.missed <= 1 && pr.contexts <= 1 && pr.references <= 1
      && (pr.fate.Abandoned? ==> Untouched(pr))
      && (pr.fate.Open? && !pr.registration.Refused? ==> Untouched(pr))
      && (pr.fate.Settled? && Unattended(s, p) ==> Finished(pr))
      && (pr.outcome.Some? <==> pr.deferred == 1)
      && (pr.outcome.Some? ==> pr.outcome == pr.first || pr.outcome.value.Failure?)
  {
    Reachable(labels, s);
    assert PromiseOk(s, p);
    var w := s.promises[p].winner;
    if w in s.acts { assert ActOk(s, w); }
  }

  /** Who won the race, and the completion stored first, never change again. */
  lemma {:induction false} HistoryStays(s: State, labels: seq<Label>, p: PromiseId)
    requires Inv(s) && p in s.promises && Run(s, labels).Some?
    ensures var s' := Run(s, labels).value;
      && p in s'.promises
      && (s.promises[p].first.Some? ==> s'.promises[p].first == s.promises[p].first)
      && (!s.promises[p].fate.Open? ==> s'.promises[p].fate == s.promises[p].fate && s'.promises[p].winner == s.promises[p].winner)
      && (s.promises[p].outcome.Some? ==> s'.promises[p].outcome == s.promises[p].outcome)
    decreases |labels|
  {
    if labels != [] {
      LabelPreserves(s, labels[0]);
      LabelAdvances(s, labels[0], p);
      HistoryStays(Apply(s, labels[0]), labels[1..], p);
    }
  }

  /** The winner of the settlement swap always finds the completion that was stored first. */
  lemma ResultAvailable(labels: seq<Label>, s: State, a: ActivationId, p: PromiseId)
    requires Reaches(labels, s) && a in s.acts && s.acts[a].pc == Settling(SettleTake, p)
    ensures p in s.promises && s.promises[p].result.Some? && s.promises[p].result == s.promises[p].first
  {
    Reachable(labels, s);
    assert ActOk(s, a);
  }

  /** Settlement, registration and cleanup run on the JS thread only, also when a queue is drained elsewhere. */
  lemma SettlesOnJsThread(labels: seq<Label>, s: State, a: ActivationId)
    requires Reaches(labels, s) && a in s.acts
    ensures s.acts[a].pc.Deciding? || s.acts[a].pc.Settling? || s.acts[a].pc.Finishing? ==> s.acts[a].onJs
    ensures s.acts[a].k.DrainLoop? && s.acts[a].k.direct ==> s.acts[a].onJs
  {
    Reachable(labels, s);
    assert ActOk(s, a);
  }

  // ---- after the environment is cleaned up ----

  /**
   Once cleanup has released the thread-safe function, whatever completions were racing
   with it: the registry is empty, no queue is left, every registered promise is settled
   or abandoned, and keeps neither its operation nor a result when nobody works on it.
   */
  lemma AfterCleanup(labels: seq<Label>, s: State, p: PromiseId)
    requires Reaches(labels, s) && s.released && p in s.promises
    ensures s.d.registry == {} && s.d.queue.None?
    ensures s.promises[p].registration.Registered? ==> s.promises[p].settled
    ensures s.promises[p].settled && Unattended(s, p) ==> !s.promises[p].operation && s.promises[p].result.None?
  {
    Reachable(labels, s);
    assert PromiseOk(s, p);
    if s.cleaner.Some? && s.cleaner.value in s.acts { assert ActOk(s, s.cleaner.value); }
    var w := s.promises[p].winner;
    if w in s.acts { assert ActOk(s, w); }
  }

  lemma DrainedStep(s: State, l: Label)
    requires Inv(s) && Enabled(s, l) && s.drained
    ensures Apply(s, l).drained
  {
    if l.Step? {
      if Untouching(s.acts[l.a].pc) {
        PromisesUntouched(s, l.a, l.answer);
      } else if !s.acts[l.a].pc.DroppingQueue? {
        LabelAdvances(s, l, s.acts[l.a].pc.p);
      }
    }
  }

  /** After cleanup took the registry, it stays empty in every continuation of the run. */
  lemma {:induction false} RegistryStaysEmpty(s: State, more: seq<Label>)
    requires Inv(s) && s.drained && Run(s, more).Some?
    ensures Run(s, more).value.drained && Run(s, more).value.d.registry == {}
    decreases |more|
  {
    if more != [] {
      LabelPreserves(s, more[0]);
      DrainedStep(s, more[0]);
      RegistryStaysEmpty(Apply(s, more[0]), more[1..]);
    }
  }

  // ---- keeping the event loop alive ----

  lemma {:induction false} NativeReference(refs: seq<RefEvent>)
    requires Alternates(refs)
    ensures NativelyReferenced(refs) <==> EndsWithRef(refs) || EndsWithFailedUnref(refs)
  {
    var n := |refs|;
    if EndsWithFailedUnref(refs) {
      assert refs[0].Ref?;
      assert refs[n - 2].Ref?;
      assert refs[..n - 1][n - 2] == refs[n - 2];
    }
  }

  /**
   Successful ref calls and unref calls strictly alternate, starting with a ref. While the
   environment is open and no activation is between a registry change and its native call,
   the dispatcher counts as referenced exactly when a promise is registered, and the native
   function agrees with it if and only if the last unref did not fail.
   */
  lemma ReferencedWhileRegistered(labels: seq<Label>, s: State)
    requires Reaches(labels, s)
    ensures Alternates(s.refs)
    ensures !s.d.closing && !MidReference(s) ==>
              && (s.d.tsfnReferenced <==> s.d.registry != {})
              && ((NativelyReferenced(s.refs) <==> s.d.tsfnReferenced) <==> !EndsWithFailedUnref(s.refs))
              && (EndsWithFailedUnref(s.refs) ==> NativelyReferenced(s.refs) && s.d.registry == {})
  {
    Reachable(labels, s);
    NativeReference(s.refs);
  }

  /** A failing unref of the last promise leaves the native function referenced while nothing is registered. */
  lemma FailedUnrefStays(labels: seq<Label>, s: State, a: ActivationId)
    requires Reaches(labels, s) && Ready(s, a) && s.acts[a].pc.Unreferencing? && !s.d.closing
    ensures var s' := Execute(s, a, Failed);
            NativelyReferenced(s'.refs) && s'.d.registry == {} && !s'.d.tsfnReferenced && !s'.d.closing && s'.acts[a].pc.NextItem?
  {
    Reachable(labels, s);
    assert CriticalOk(s, s.acts[a].pc);
    assert Execute(s, a, Failed).refs[..|s.refs|] == s.refs;
    NativeReference(s.refs);
  }
}
