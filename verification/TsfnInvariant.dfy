/** The inductive invariant of the managed thread-safe functions, per handle, payload and activation. */
module TsfnInvariant {
  import opened Wrappers
  import opened ManagedTsfn

  /** The activation holds the read lock and has seen the lifecycle open. */
  predicate Guarded(pc: Pc) {
    match pc
    case Calling(at, _, _) => !at.CallLock?
    case Dropping(at, _) => !at.DropLock?
    case Creating(at, _, _) => !at.CreateLock?
    case Closing(_, _) => false
  }

  /** It took `raw` of the handle out and has not released it. */
  predicate HoldsRaw(pc: Pc, h: HandleId) {
    match pc
    case Calling(_, _, _) => false
    case Dropping(at, x) => at.DropRelease? && x == h
    case Creating(at, x, _) => at.CreateAbort? && x == h
    case Closing(at, _) => at.CloseAbort? && at.h == h
  }

  /** It has not tested yet whether the lifecycle is open. */
  predicate Enters(pc: Pc, h: HandleId) {
    pc.Creating? && pc.create.CreateLock? && pc.h == h
  }

  predicate Stores(pc: Pc, h: HandleId) {
    pc.Calling? && pc.call.CallStore? && pc.h == h
  }

  predicate Takes(pc: Pc, h: HandleId) {
    pc.Dropping? && (pc.drop.DropSwap? || pc.drop.DropRelease?) && pc.h == h
  }

  /** The closer still has to abort the handle. */
  predicate ClosePending(s: State, h: HandleId) {
    s.closer.Some? && s.closer.value in s.acts && s.acts[s.closer.value].Closing? && h in Mentioned(s.acts[s.closer.value])
  }

  // ---- one handle ----

  predicate RawOk(x: Handle) {
    && GivenUp(x) <= 1
    && (x.raw ==> x.created && !x.finalized && x.swapper.None? && x.releases + x.aborts == 0)
    && (x.raw && x.consumed == 1 ==> x.storer.Some?)
    && (x.swapper.Some? ==> !x.raw && GivenUp(x) == 0 && x.created)
    && (x.created && GivenUp(x) == 0 ==> x.raw || x.swapper.Some?)
    && (!x.created ==> GivenUp(x) == 0 && !x.raw && !x.finalized && !x.registeredOnce)
    && (x.finalized ==> GivenUp(x) == 1 && !x.raw && !x.contextAlive)
    && (x.created && !x.finalized ==> x.contextAlive)
    && (x.late ==> x.consumed == 1)
    && (x.contextAlive || x.created ==> x.contextMade)
    && (x.refused ==> !x.contextMade)
    && x.finalizerRuns == (if x.hasFinalizer && x.contextMade && !x.contextAlive then 1 else 0)
    && (x.owners > 0 ==> x.registeredOnce && x.dropper.None?)
    && (x.storer.Some? ==> x.consumed == 1)
    && (!x.registeredOnce ==> x.dropper.None? && x.taker.None?)
  }

  predicate HoldersOk(s: State, h: HandleId)
    requires h in s.handles
  {
    var x := s.handles[h];
    && (x.storer.Some? ==> x.storer.value in s.acts && Stores(s.acts[x.storer.value], h))
    && (x.swapper.Some? ==> x.swapper.value in s.acts && HoldsRaw(s.acts[x.swapper.value], h))
    && (x.taker.Some? ==> x.taker.value in s.acts && Takes(s.acts[x.taker.value], h))
    && (!x.contextMade && !x.refused ==> x.creator in s.acts && Enters(s.acts[x.creator], h))
  }

  predicate ListedOk(s: State, h: HandleId)
    requires h in s.handles
  {
    var x := s.handles[h];
    && (x.refused ==> !s.open)
    && (h in s.registered ==> x.registeredOnce && x.taker.None?)
    && (x.owners > 0 && s.open ==> h in s.registered && x.swapper.None? && x.releases + x.aborts == 0)
    && (x.registeredOnce ==> h in s.registered || GivenUp(x) == 1 || x.taker.Some? || ClosePending(s, h))
  }

  predicate HandleOk(s: State, h: HandleId)
    requires h in s.handles
  {
    RawOk(s.handles[h]) && HoldersOk(s, h) && ListedOk(s, h)
  }

  predicate PayloadOk(s: State, p: PayloadId)
    requires p in s.payloads
  {
    s.payloads[p].drops == (if s.payloads[p].state.Gone? then 1 else 0)
  }

  // ---- one activation ----

  predicate CallOk(s: State, a: ActivationId, at: CallPoint, h: HandleId, p: PayloadId) {
    && h in s.handles && s.handles[h].owners > 0
    && p in s.payloads
    && (at.CallLock? || at.CallLoad? || at.CallNative? ==> s.payloads[p].state.Local? && s.payloads[p].caller == a)
    && (at.CallStore? ==> s.handles[h].storer == Some(a))
  }

  predicate DropOk(s: State, a: ActivationId, at: DropPoint, h: HandleId) {
    && h in s.handles && s.handles[h].dropper == Some(a) && s.handles[h].owners == 0 && s.handles[h].registeredOnce
    && (at.DropSwap? ==> s.handles[h].taker == Some(a) && h !in s.registered && s.handles[h].swapper.None?)
    && (at.DropRelease? ==> s.handles[h].taker == Some(a) && h !in s.registered && s.handles[h].swapper == Some(a))
    && (at.DropUnregister? ==> s.handles[h].taker.None? && (h in s.registered ==> s.handles[h].swapper.None?))
  }

  predicate CreateOk(s: State, a: ActivationId, at: CreatePoint, h: HandleId) {
    && h in s.handles && s.handles[h].creator == a
    && (!at.CreateUnlock? ==> !s.handles[h].registeredOnce && s.handles[h].owners == 0)
    && (at.CreateLock? ==> !s.handles[h].contextMade && !s.handles[h].refused)
    && (at.CreateName? || at.CreateNative? ==> !s.handles[h].created && s.handles[h].contextAlive)
    && (at.CreateUnref? || at.CreateSwap? || at.CreateRegister? ==> s.handles[h].raw && GivenUp(s.handles[h]) == 0)
    && (at.CreateAbort? ==> s.handles[h].swapper == Some(a))
  }

  predicate AllKnown(s: State, list: set<HandleId>) {
    forall h :: h in list ==> h in s.handles && s.handles[h].registeredOnce
  }

  predicate CloseOk(s: State, a: ActivationId, at: ClosePoint, list: set<HandleId>) {
    match at
    case CloseLock => list == {}
    case CloseFlag => list == {} && s.writer == Some(a)
    case CloseDrain => list == {} && s.closer == Some(a) && !s.drained
    case CloseNext => s.closer == Some(a) && s.drained && AllKnown(s, list)
    case CloseSwap(h) => s.closer == Some(a) && s.drained && AllKnown(s, list) && AllKnown(s, {h}) && s.handles[h].swapper.None?
    case CloseAbort(h) => s.closer == Some(a) && s.drained && AllKnown(s, list) && AllKnown(s, {h}) && s.handles[h].swapper == Some(a)
  }

  predicate ActOk(s: State, a: ActivationId)
    requires a in s.acts
  {
    && (Guarded(s.acts[a]) <==> a in s.readers)
    && match s.acts[a]
       case Calling(at, h, p) => CallOk(s, a, at, h, p)
       case Dropping(at, h) => DropOk(s, a, at, h)
       case Creating(at, h, _) => CreateOk(s, a, at, h)
       case Closing(at, list) => CloseOk(s, a, at, list)
  }

  // ---- the whole state ----

  predicate LockOk(s: State) {
    && s.readers <= s.acts.Keys
    && s.registered <= s.handles.Keys
    && (s.writer.Some? ==> s.readers == {} && s.writer.value in s.acts && s.acts[s.writer.value] == Closing(CloseFlag, {}))
    && (s.open <==> s.closer.None?)
    && (!s.open ==> s.readers == {})
    && (s.drained ==> !s.open && s.registered == {})
  }

  predicate HandlesOk(s: State) {
    forall h {:trigger HandleOk(s, h)} :: h in s.handles ==> HandleOk(s, h)
  }

  predicate PayloadsOk(s: State) {
    forall p {:trigger PayloadOk(s, p)} :: p in s.payloads ==> PayloadOk(s, p)
  }

  predicate ActsOk(s: State) {
    forall a {:trigger ActOk(s, a)} :: a in s.acts ==> ActOk(s, a)
  }

  predicate Inv(s: State) {
    LockOk(s) && HandlesOk(s) && PayloadsOk(s) && ActsOk(s)
  }

  // ---- rely: what a step of `a` leaves alone for everybody else (-1 for the native side) ----

  predicate HandleRely(s: State, h: HandleId, x: Handle, x': Handle, a: int) {
    && x'.creator == x.creator
    && (x.registeredOnce ==> x'.registeredOnce)
    && (x.creator != a ==> x'.registeredOnce == x.registeredOnce)
    && (x.owners > 0 && x'.owners == 0 ==> NobodyCalls(s, h))
    && (x.dropper.Some? ==> x'.dropper == x.dropper && (x.owners == 0 ==> x'.owners == 0))
    && (x.storer.Some? && x.storer.value != a ==> x'.storer == x.storer)
    && (x.swapper.Some? && x.swapper.value != a ==> x'.swapper == x.swapper)
    && (x.taker.Some? && x.taker.value != a ==> x'.taker == x.taker)
    && (x.taker.None? && x.dropper.Some? && x.dropper.value != a ==> x'.taker.None?)
    && (x.swapper.None? && x.registeredOnce && x.dropper.Some? && x.dropper.value != a && s.open ==> x'.swapper.None?)
    && (x.swapper.None? && s.closer.Some? && s.closer.value != a ==> x'.swapper.None?)
    && (!x.registeredOnce && x.creator != a && GivenUp(x) == 0 ==> x'.(nativeClosing := x.nativeClosing) == x)
  }

  predicate HandleKept(s: State, s': State, a: int, h: HandleId)
    requires h in s.handles
  {
    h in s'.handles && HandleRely(s, h, s.handles[h], s'.handles[h], a)
  }

  predicate PayloadKept(s: State, s': State, a: int, p: PayloadId)
    requires p in s.payloads
  {
    p in s'.payloads && (s.payloads[p].state.Local? && s.payloads[p].caller != a ==> s'.payloads[p] == s.payloads[p])
  }

  predicate SameOthers(acts: map<ActivationId, Pc>, acts': map<ActivationId, Pc>, a: int) {
    && (forall b {:trigger acts'[b]} {:trigger acts[b]} :: b in acts && b != a ==> b in acts' && acts'[b] == acts[b])
    && (forall b {:trigger b in acts'} :: b in acts' && b != a ==> b in acts)
  }

  predicate Rely(s: State, s': State, a: int) {
    && SameOthers(s.acts, s'.acts, a)
    && (forall b {:trigger b in s.readers} {:trigger b in s'.readers} :: b in s.readers + s'.readers && b != a ==> (b in s.readers <==> b in s'.readers))
    && (s.writer.Some? && s.writer.value != a ==> s'.writer == s.writer)
    && (s.closer.Some? ==> s'.closer == s.closer)
    && (s.closer.None? ==> s'.closer.None? || (s'.closer.Some? && s'.closer.value == a))
    && (s.closer.Some? && s.closer.value != a ==> s'.drained == s.drained)
    && (forall h {:trigger HandleKept(s, s', a, h)} :: h in s.handles ==> HandleKept(s, s', a, h))
    && (forall h {:trigger h in s'.registered} :: h in s'.registered && h !in s.registered && h in s.handles ==> !s.handles[h].registeredOnce)
    && (forall p {:trigger PayloadKept(s, s', a, p)} :: p in s.payloads ==> PayloadKept(s, s', a, p))
  }

  lemma OthersOk(s: State, s': State, a: int, b: ActivationId)
    requires Inv(s) && LockOk(s') && Rely(s, s', a) && b in s.acts && b != a
    ensures b in s'.acts && ActOk(s', b)
  {
    assert ActOk(s, b);
    match s.acts[b]
    case Calling(at, h, p) => CallStays(s, s', a, b, at, h, p);
    case Dropping(at, h) => DropStays(s, s', a, b, at, h);
    case Creating(at, h, _) => CreateStays(s, s', a, b, at, h);
    case Closing(at, list) => CloseStays(s, s', a, b, at, list);
  }

  lemma CallStays(s: State, s': State, a: int, b: ActivationId, at: CallPoint, h: HandleId, p: PayloadId)
    requires LockOk(s) && Rely(s, s', a) && b in s.acts && b != a && s.acts[b] == Calling(at, h, p) && CallOk(s, b, at, h, p)
    ensures CallOk(s', b, at, h, p)
  {
    assert InCall(s, b, h);
    assert HandleKept(s, s', a, h);
    assert PayloadKept(s, s', a, p);
  }

  lemma DropStays(s: State, s': State, a: int, b: ActivationId, at: DropPoint, h: HandleId)
    requires Inv(s) && Rely(s, s', a) && b in s.acts && b != a && s.acts[b] == Dropping(at, h) && DropOk(s, b, at, h)
    ensures DropOk(s', b, at, h)
  {
    assert ActOk(s, b);
    assert HandleKept(s, s', a, h);
  }

  lemma CreateStays(s: State, s': State, a: int, b: ActivationId, at: CreatePoint, h: HandleId)
    requires Inv(s) && Rely(s, s', a) && b in s.acts && b != a && s.acts[b].Creating? && s.acts[b].h == h && CreateOk(s, b, at, h)
    ensures CreateOk(s', b, at, h)
  {
    assert HandleOk(s, h);
    assert HandleKept(s, s', a, h);
  }

  lemma CloseStays(s: State, s': State, a: int, b: ActivationId, at: ClosePoint, list: set<HandleId>)
    requires LockOk(s) && Rely(s, s', a) && b in s.acts && b != a && s.acts[b] == Closing(at, list) && CloseOk(s, b, at, list)
    ensures CloseOk(s', b, at, list)
  {
    forall h | h in s.handles && s.handles[h].registeredOnce ensures h in s'.handles && s'.handles[h].registeredOnce {
      assert HandleKept(s, s', a, h);
    }
    if at.CloseSwap? || at.CloseAbort? {
      assert AllKnown(s, {at.h}) && at.h in {at.h};
      assert HandleKept(s, s', a, at.h);
    }
  }

  /** A handle the step does not touch. */
  predicate Aside(s: State, s': State, a: int, h: HandleId) {
    && h in s.handles && h in s'.handles && s'.handles[h] == s.handles[h]
    && (s'.open ==> s.open)
    && (a in s.acts ==> !Stores(s.acts[a], h) && !HoldsRaw(s.acts[a], h) && !Takes(s.acts[a], h) && !Enters(s.acts[a], h))
    && (h in s'.registered ==> h in s.registered)
    && (h in s.registered ==> h in s'.registered || (!s'.open && ClosePending(s', h)))
    && (ClosePending(s, h) ==> ClosePending(s', h))
  }

  lemma AsideOk(s: State, s': State, a: int, h: HandleId)
    requires Inv(s) && Rely(s, s', a) && h in s.handles && Aside(s, s', a, h)
    ensures HandleOk(s', h)
  {
    assert HandleOk(s, h);
  }

  /** The invariant after a step of `a` that touches the handles of `touched` only. */
  lemma Assemble(s: State, s': State, a: int, touched: set<HandleId>)
    requires Inv(s) && LockOk(s') && Rely(s, s', a) && PayloadsOk(s')
    requires a in s'.acts ==> ActOk(s', a)
    requires forall h {:trigger HandleOk(s', h)} :: h in touched && h in s'.handles ==> HandleOk(s', h)
    requires forall h {:trigger Aside(s, s', a, h)} :: h in s'.handles && h !in touched ==> Aside(s, s', a, h)
    ensures Inv(s')
  {
    forall b | b in s'.acts ensures ActOk(s', b) {
      if b != a { OthersOk(s, s', a, b); }
    }
    forall h | h in s'.handles ensures HandleOk(s', h) {
      if h !in touched {
        assert Aside(s, s', a, h);
        AsideOk(s, s', a, h);
      }
    }
  }
}
