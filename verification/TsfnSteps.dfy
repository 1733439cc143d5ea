/** Every step of the managed thread-safe functions keeps the invariant. */
module TsfnSteps {
  import opened Wrappers
  import opened ManagedTsfn
  import opened TsfnInvariant

  // Whoever the history fields of a handle name is where they say.
  lemma HoldersAt(s: State, h: HandleId)
    requires Inv(s) && h in s.handles
    ensures HandleOk(s, h)
    ensures var x := s.handles[h];
      && (x.storer.Some? ==> ActOk(s, x.storer.value))
      && (x.swapper.Some? ==> ActOk(s, x.swapper.value))
      && (x.taker.Some? ==> ActOk(s, x.taker.value))
  {
    assert HandleOk(s, h);
  }

  lemma SameKept(s: State, s': State, a: int, h: HandleId)
    requires h in s.handles && h in s'.handles && s'.handles[h] == s.handles[h]
    ensures HandleKept(s, s', a, h)
  {
  }

  // ---- calls ----

  predicate AtCall(s: State, a: ActivationId, at: CallPoint, h: HandleId, p: PayloadId) {
    Inv(s) && Ready(s, a) && s.acts[a] == Calling(at, h, p)
  }

  lemma CallRelies(s: State, a: ActivationId, at: CallPoint, h: HandleId, p: PayloadId, answer: Answer)
    requires AtCall(s, a, at, h, p) && GoodAnswer(s, s.acts[a], answer)
    ensures h in s.handles && p in s.payloads && Rely(s, ExecuteCall(s, a, at, h, p, answer), a)
  {
    assert ActOk(s, a) && HandleOk(s, h);
  }

  lemma CallKeepsHandle(s: State, a: ActivationId, at: CallPoint, h: HandleId, p: PayloadId, answer: Answer)
    requires AtCall(s, a, at, h, p) && GoodAnswer(s, s.acts[a], answer)
    ensures h in s.handles && p in s.payloads && h in ExecuteCall(s, a, at, h, p, answer).handles
    ensures HandleOk(ExecuteCall(s, a, at, h, p, answer), h)
  {
    assert ActOk(s, a) && HandleOk(s, h);
  }

  lemma CallKeepsRest(s: State, a: ActivationId, at: CallPoint, h: HandleId, p: PayloadId, answer: Answer)
    requires AtCall(s, a, at, h, p) && GoodAnswer(s, s.acts[a], answer)
    ensures h in s.handles && p in s.payloads
    ensures var s' := ExecuteCall(s, a, at, h, p, answer);
            LockOk(s') && PayloadsOk(s') && (a in s'.acts ==> ActOk(s', a))
  {
    assert ActOk(s, a) && HandleOk(s, h) && PayloadOk(s, p);
    var s' := ExecuteCall(s, a, at, h, p, answer);
    forall q | q in s'.payloads ensures PayloadOk(s', q) { assert PayloadOk(s, q); }
  }

  lemma CallStep(s: State, a: ActivationId, at: CallPoint, h: HandleId, p: PayloadId, answer: Answer)
    requires AtCall(s, a, at, h, p) && GoodAnswer(s, s.acts[a], answer)
    ensures h in s.handles && p in s.payloads && Inv(ExecuteCall(s, a, at, h, p, answer))
  {
    CallRelies(s, a, at, h, p, answer);
    CallKeepsHandle(s, a, at, h, p, answer);
    CallKeepsRest(s, a, at, h, p, answer);
    Assemble(s, ExecuteCall(s, a, at, h, p, answer), a, {h});
  }

  // ---- dropping the last owner ----

  predicate AtDrop(s: State, a: ActivationId, at: DropPoint, h: HandleId) {
    Inv(s) && Ready(s, a) && s.acts[a] == Dropping(at, h)
  }

  lemma DropRelies(s: State, a: ActivationId, at: DropPoint, h: HandleId)
    requires AtDrop(s, a, at, h)
    ensures h in s.handles && Rely(s, ExecuteDrop(s, a, at, h), a)
  {
    assert ActOk(s, a) && HandleOk(s, h);
  }

  lemma DropKeepsHandle(s: State, a: ActivationId, at: DropPoint, h: HandleId)
    requires AtDrop(s, a, at, h)
    ensures h in s.handles && h in ExecuteDrop(s, a, at, h).handles && HandleOk(ExecuteDrop(s, a, at, h), h)
  {
    assert ActOk(s, a);
    HoldersAt(s, h);
  }

  lemma DropKeepsRest(s: State, a: ActivationId, at: DropPoint, h: HandleId)
    requires AtDrop(s, a, at, h)
    ensures h in s.handles
    ensures var s' := ExecuteDrop(s, a, at, h); LockOk(s') && PayloadsOk(s') && (a in s'.acts ==> ActOk(s', a))
  {
    assert ActOk(s, a);
    HoldersAt(s, h);
    var s' := ExecuteDrop(s, a, at, h);
    forall q | q in s'.payloads ensures PayloadOk(s', q) { assert PayloadOk(s, q); }
  }

  lemma DropAside(s: State, a: ActivationId, at: DropPoint, h: HandleId)
    requires AtDrop(s, a, at, h)
    ensures h in s.handles
    ensures var s' := ExecuteDrop(s, a, at, h);
            forall x {:trigger Aside(s, s', a, x)} :: x in s'.handles && x != h ==> Aside(s, s', a, x)
  {
    assert ActOk(s, a);
  }

  lemma DropStep(s: State, a: ActivationId, at: DropPoint, h: HandleId)
    requires AtDrop(s, a, at, h)
    ensures h in s.handles && Inv(ExecuteDrop(s, a, at, h))
  {
    DropRelies(s, a, at, h);
    DropKeepsHandle(s, a, at, h);
    DropKeepsRest(s, a, at, h);
    DropAside(s, a, at, h);
    Assemble(s, ExecuteDrop(s, a, at, h), a, {h});
  }

  // ---- creation ----

  predicate AtCreate(s: State, a: ActivationId, at: CreatePoint, h: HandleId, weak: bool) {
    Inv(s) && Ready(s, a) && s.acts[a] == Creating(at, h, weak)
  }

  lemma CreateKept(s: State, a: ActivationId, at: CreatePoint, h: HandleId, weak: bool, answer: Answer)
    requires AtCreate(s, a, at, h, weak)
    ensures h in s.handles && HandleKept(s, ExecuteCreate(s, a, at, h, weak, answer), a, h)
  {
    assert ActOk(s, a) && HandleOk(s, h);
  }

  lemma CreateRegisters(s: State, a: ActivationId, at: CreatePoint, h: HandleId, weak: bool, answer: Answer)
    requires AtCreate(s, a, at, h, weak)
    ensures h in s.handles
    ensures var s' := ExecuteCreate(s, a, at, h, weak, answer);
      && s'.handles == s.handles[h := s'.handles[h]] && s'.payloads == s.payloads
      && s'.closer == s.closer && s'.writer == s.writer && s'.drained == s.drained
      && (s'.registered != s.registered ==> s'.registered == s.registered + {h} && !s.handles[h].registeredOnce)
      && SameOthers(s.acts, s'.acts, a)
      && s'.readers - {a} == s.readers - {a}
  {
    assert ActOk(s, a);
  }

  lemma CreateRelies(s: State, a: ActivationId, at: CreatePoint, h: HandleId, weak: bool, answer: Answer)
    requires AtCreate(s, a, at, h, weak)
    ensures h in s.handles && Rely(s, ExecuteCreate(s, a, at, h, weak, answer), a)
  {
    CreateRegisters(s, a, at, h, weak, answer);
    var s' := ExecuteCreate(s, a, at, h, weak, answer);
    forall x | x in s.handles ensures HandleKept(s, s', a, x) {
      if x == h { CreateKept(s, a, at, h, weak, answer); } else { SameKept(s, s', a, x); }
    }
    forall b | b in s.readers + s'.readers && b != a ensures b in s.readers <==> b in s'.readers {
      assert b in s.readers - {a} <==> b in s'.readers - {a};
    }
  }

  lemma CreateKeepsHandle(s: State, a: ActivationId, at: CreatePoint, h: HandleId, weak: bool, answer: Answer)
    requires AtCreate(s, a, at, h, weak)
    ensures h in s.handles && h in ExecuteCreate(s, a, at, h, weak, answer).handles
    ensures HandleOk(ExecuteCreate(s, a, at, h, weak, answer), h)
  {
    assert ActOk(s, a) && HandleOk(s, h);
  }

  lemma CreateKeepsRest(s: State, a: ActivationId, at: CreatePoint, h: HandleId, weak: bool, answer: Answer)
    requires AtCreate(s, a, at, h, weak)
    ensures h in s.handles
    ensures var s' := ExecuteCreate(s, a, at, h, weak, answer); LockOk(s') && PayloadsOk(s') && (a in s'.acts ==> ActOk(s', a))
  {
    assert ActOk(s, a) && HandleOk(s, h);
    var s' := ExecuteCreate(s, a, at, h, weak, answer);
    forall q | q in s'.payloads ensures PayloadOk(s', q) { assert PayloadOk(s, q); }
  }

  lemma CreateAside(s: State, a: ActivationId, at: CreatePoint, h: HandleId, weak: bool, answer: Answer)
    requires AtCreate(s, a, at, h, weak)
    ensures h in s.handles
    ensures var s' := ExecuteCreate(s, a, at, h, weak, answer);
            forall x {:trigger Aside(s, s', a, x)} :: x in s'.handles && x != h ==> Aside(s, s', a, x)
  {
    assert ActOk(s, a);
  }

  lemma CreateStep(s: State, a: ActivationId, at: CreatePoint, h: HandleId, weak: bool, answer: Answer)
    requires AtCreate(s, a, at, h, weak)
    ensures h in s.handles && Inv(ExecuteCreate(s, a, at, h, weak, answer))
  {
    CreateRelies(s, a, at, h, weak, answer);
    CreateKeepsHandle(s, a, at, h, weak, answer);
    CreateKeepsRest(s, a, at, h, weak, answer);
    CreateAside(s, a, at, h, weak, answer);
    Assemble(s, ExecuteCreate(s, a, at, h, weak, answer), a, {h});
  }

  // ---- environment close ----

  predicate AtClose(s: State, a: ActivationId, at: ClosePoint, list: set<HandleId>, answer: Answer) {
    Inv(s) && Ready(s, a) && s.acts[a] == Closing(at, list) && GoodAnswer(s, s.acts[a], answer)
  }

  lemma CloseChanges(s: State, a: ActivationId, at: ClosePoint, list: set<HandleId>, answer: Answer)
    requires AtClose(s, a, at, list, answer) && (at.CloseSwap? || at.CloseAbort?)
    ensures at.h in s.handles && HandleKept(s, ExecuteClose(s, a, at, list, answer), a, at.h)
  {
    assert ActOk(s, a);
    assert at.h in {at.h} && HandleOk(s, at.h);
  }

  lemma CloseKept(s: State, a: ActivationId, at: ClosePoint, list: set<HandleId>, answer: Answer, h: HandleId)
    requires AtClose(s, a, at, list, answer) && h in s.handles
    ensures (at.CloseSwap? || at.CloseAbort? ==> at.h in s.handles)
    ensures HandleKept(s, ExecuteClose(s, a, at, list, answer), a, h)
  {
    if at.CloseSwap? || at.CloseAbort? { CloseChanges(s, a, at, list, answer); }
    var s' := ExecuteClose(s, a, at, list, answer);
    if !((at.CloseSwap? || at.CloseAbort?) && h == at.h) { SameKept(s, s', a, h); }
  }

  lemma CloseElsewhere(s: State, a: ActivationId, at: ClosePoint, list: set<HandleId>, answer: Answer)
    requires AtClose(s, a, at, list, answer)
    ensures (at.CloseSwap? || at.CloseAbort? ==> at.h in s.handles)
    ensures var s' := ExecuteClose(s, a, at, list, answer);
      && SameOthers(s.acts, s'.acts, a) && s'.readers == s.readers && s'.payloads == s.payloads && s'.registered <= s.registered
      && (s.writer.Some? && s.writer.value != a ==> s'.writer == s.writer)
      && (s.closer.Some? ==> s'.closer == s.closer)
      && (s.closer.None? ==> s'.closer.None? || s'.closer == Some(a))
      && (s.closer.Some? && s.closer.value != a ==> s'.drained == s.drained)
  {
    assert ActOk(s, a);
    if at.CloseSwap? || at.CloseAbort? { assert at.h in {at.h}; }
  }

  lemma CloseRelies(s: State, a: ActivationId, at: ClosePoint, list: set<HandleId>, answer: Answer)
    requires AtClose(s, a, at, list, answer)
    ensures (at.CloseSwap? || at.CloseAbort? ==> at.h in s.handles)
    ensures Rely(s, ExecuteClose(s, a, at, list, answer), a)
  {
    CloseElsewhere(s, a, at, list, answer);
    var s' := ExecuteClose(s, a, at, list, answer);
    forall h | h in s.handles ensures HandleKept(s, s', a, h) {
      CloseKept(s, a, at, list, answer, h);
    }
  }

  lemma CloseKeepsHandle(s: State, a: ActivationId, at: ClosePoint, list: set<HandleId>, answer: Answer)
    requires AtClose(s, a, at, list, answer) && (at.CloseSwap? || at.CloseAbort?)
    ensures at.h in s.handles && at.h in ExecuteClose(s, a, at, list, answer).handles
    ensures HandleOk(ExecuteClose(s, a, at, list, answer), at.h)
  {
    assert ActOk(s, a);
    assert at.h in {at.h};
    HoldersAt(s, at.h);
  }

  lemma CloseKeepsRest(s: State, a: ActivationId, at: ClosePoint, list: set<HandleId>, answer: Answer)
    requires AtClose(s, a, at, list, answer)
    ensures (at.CloseSwap? || at.CloseAbort? ==> at.h in s.handles)
    ensures var s' := ExecuteClose(s, a, at, list, answer); LockOk(s') && PayloadsOk(s') && (a in s'.acts ==> ActOk(s', a))
  {
    assert ActOk(s, a);
    if at.CloseSwap? || at.CloseAbort? { assert at.h in {at.h} && HandleOk(s, at.h); }
    var s' := ExecuteClose(s, a, at, list, answer);
    forall q | q in s'.payloads ensures PayloadOk(s', q) { assert PayloadOk(s, q); }
    if at.CloseDrain? {
      forall h | h in s.registered ensures h in s.handles && s.handles[h].registeredOnce { assert HandleOk(s, h); }
    }
    if at.CloseNext? && list != {} { NobodySwaps(s, answer.h, a); }
  }

  // Once the lifecycle is closed only the closer swaps handles.
  lemma NobodySwaps(s: State, h: HandleId, a: ActivationId)
    requires Inv(s) && !s.open && h in s.handles && a in s.acts && s.closer == Some(a) && !HoldsRaw(s.acts[a], h)
    ensures s.handles[h].swapper.None?
  {
    HoldersAt(s, h);
  }

  lemma CloseStep(s: State, a: ActivationId, at: ClosePoint, list: set<HandleId>, answer: Answer)
    requires AtClose(s, a, at, list, answer)
    ensures (at.CloseSwap? || at.CloseAbort? ==> at.h in s.handles)
    ensures Inv(ExecuteClose(s, a, at, list, answer))
  {
    assert ActOk(s, a);
    CloseRelies(s, a, at, list, answer);
    CloseKeepsRest(s, a, at, list, answer);
    if at.CloseSwap? || at.CloseAbort? {
      CloseKeepsHandle(s, a, at, list, answer);
      Assemble(s, ExecuteClose(s, a, at, list, answer), a, {at.h});
    } else {
      Assemble(s, ExecuteClose(s, a, at, list, answer), a, {});
    }
  }
}
