/** A function whose last owner is dropped while the environment is open is released then, not at close. */
module TsfnDropping {
  import opened Wrappers
  import opened ManagedTsfn
  import opened TsfnInvariant
  import opened TsfnTheorems

  /** Its dropper has not taken the function off the list yet. */
  predicate AtUnlisting(s: State, h: HandleId)
    requires h in s.handles
  {
    var d := s.handles[h].dropper;
    d.Some? && d.value in s.acts && (s.acts[d.value] == Dropping(DropLock, h) || s.acts[d.value] == Dropping(DropUnregister, h))
  }

  predicate ListingOk(s: State, h: HandleId)
    requires h in s.handles
  {
    s.open && h in s.registered && s.handles[h].owners == 0 ==> AtUnlisting(s, h)
  }

  predicate ListingsOk(s: State) {
    forall h {:trigger s.handles[h]} :: h in s.handles ==> ListingOk(s, h)
  }

  /** The step leaves alone what an entry of the list depends on. */
  predicate ListingKept(s: State, s': State, a: ActivationId, h: HandleId)
    requires h in s'.handles
  {
    && (s'.open ==> s.open)
    && (h in s'.registered && s'.handles[h].owners == 0 ==>
          h in s.handles && h in s.registered && s.handles[h].owners == 0 && s'.handles[h].dropper == s.handles[h].dropper)
    && (forall b {:trigger s.acts[b]} :: b in s.acts && b != a ==> b in s'.acts && s'.acts[b] == s.acts[b])
  }

  lemma KeptListing(s: State, s': State, a: ActivationId, h: HandleId)
    requires ListingsOk(s) && h in s'.handles && ListingKept(s, s', a, h)
    requires a in s.acts ==> s.acts[a] != Dropping(DropLock, h) && s.acts[a] != Dropping(DropUnregister, h)
    ensures ListingOk(s', h)
  {
    if h in s.handles { assert ListingOk(s, h); }
  }

  lemma CallListing(s: State, a: ActivationId, at: CallPoint, h: HandleId, p: PayloadId, answer: Answer, x: HandleId)
    requires a in s.acts && h in s.handles && p in s.payloads && x in ExecuteCall(s, a, at, h, p, answer).handles
    ensures ListingKept(s, ExecuteCall(s, a, at, h, p, answer), a, x)
  {
  }

  lemma CreateListing(s: State, a: ActivationId, at: CreatePoint, h: HandleId, weak: bool, answer: Answer, x: HandleId)
    requires a in s.acts && h in s.handles && x in ExecuteCreate(s, a, at, h, weak, answer).handles
    ensures ListingKept(s, ExecuteCreate(s, a, at, h, weak, answer), a, x)
  {
  }

  lemma CloseListing(s: State, a: ActivationId, at: ClosePoint, list: set<HandleId>, answer: Answer, x: HandleId)
    requires a in s.acts && (at.CloseSwap? || at.CloseAbort? ==> at.h in s.handles) && (at.CloseNext? && list != {} ==> answer.Pick?)
    requires x in ExecuteClose(s, a, at, list, answer).handles
    ensures ListingKept(s, ExecuteClose(s, a, at, list, answer), a, x)
  {
  }

  lemma DropElsewhere(s: State, a: ActivationId, at: DropPoint, h: HandleId, x: HandleId)
    requires a in s.acts && h in s.handles && x in s.handles && x != h
    ensures x in ExecuteDrop(s, a, at, h).handles && ListingKept(s, ExecuteDrop(s, a, at, h), a, x)
  {
  }

  // The dropper unlists its own handle and leaves the others alone.
  lemma DropListing(s: State, a: ActivationId, at: DropPoint, h: HandleId, x: HandleId)
    requires a in s.acts && s.acts[a] == Dropping(at, h) && h in s.handles && x in s.handles && ListingsOk(s)
    ensures x in ExecuteDrop(s, a, at, h).handles && ListingOk(ExecuteDrop(s, a, at, h), x)
  {
    if x == h {
      assert ListingOk(s, x);
    } else {
      DropElsewhere(s, a, at, h, x);
      KeptListing(s, ExecuteDrop(s, a, at, h), a, x);
    }
  }

  lemma StepListing(s: State, a: ActivationId, answer: Answer)
    requires ListingsOk(s) && Ready(s, a) && GoodAnswer(s, s.acts[a], answer)
    ensures ListingsOk(Execute(s, a, answer))
  {
    var s' := Execute(s, a, answer);
    forall x | x in s'.handles ensures ListingOk(s', x) {
      match s.acts[a]
      case Dropping(at, h) => DropListing(s, a, at, h, x);
      case Calling(at, h, p) => CallListing(s, a, at, h, p, answer, x); KeptListing(s, s', a, x);
      case Creating(at, h, weak) => CreateListing(s, a, at, h, weak, answer, x); KeptListing(s, s', a, x);
      case Closing(at, list) => CloseListing(s, a, at, list, answer, x); KeptListing(s, s', a, x);
    }
  }

  lemma LabelListing(s: State, l: Label)
    requires Inv(s) && ListingsOk(s) && Enabled(s, l)
    ensures ListingsOk(Apply(s, l))
  {
    if l.Step? {
      StepListing(s, l.a, l.answer);
    } else {
      var s' := Apply(s, l);
      forall x | x in s'.handles ensures ListingOk(s', x) {
        if x in s.handles { assert ListingOk(s, x); }
      }
    }
  }

  lemma {:induction false} RunListing(s: State, labels: seq<Label>)
    requires Inv(s) && ListingsOk(s) && Run(s, labels).Some?
    ensures ListingsOk(Run(s, labels).value)
    decreases |labels|
  {
    if labels != [] {
      LabelPreserves(s, labels[0]);
      LabelListing(s, labels[0]);
      RunListing(Apply(s, labels[0]), labels[1..]);
    }
  }

  // A caller that was answered `closing` still owns the handle.
  lemma StorerOwns(s: State, h: HandleId)
    requires Inv(s) && h in s.handles
    ensures s.handles[h].storer.Some? ==> s.handles[h].owners > 0
  {
    assert HandleOk(s, h);
    if s.handles[h].storer.Some? { assert ActOk(s, s.handles[h].storer.value); }
  }

  /**
   While the environment is open: once the last owner of a registered function is gone and
   its dropper has returned, the function is off the list and has been given up.
   */
  lemma DroppedIsReleased(labels: seq<Label>, s: State, h: HandleId)
    requires Reaches(labels, s) && s.open && h in s.handles && s.handles[h].registeredOnce && s.handles[h].owners == 0
    requires forall a {:trigger s.acts[a]} :: a in s.acts && s.acts[a].Dropping? ==> s.acts[a].h != h
    ensures h !in s.registered && GivenUp(s.handles[h]) == 1 && !s.handles[h].raw
  {
    Reachable(labels, s);
    RunListing(INITIAL, labels);
    assert ListingOk(s, h) && HandleOk(s, h);
    StorerOwns(s, h);
  }
}
