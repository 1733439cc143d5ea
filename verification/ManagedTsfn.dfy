/**
 Managed thread-safe functions as a transition system. Calls and handle drops run under
 the read side of the lifecycle lock, environment close takes the write side; a step is
 one lock operation, one atomic operation, one critical section or one native call, and
 the steps of all activations interleave freely.
 */
module ManagedTsfn {
  import opened Wrappers

  type HandleId = nat
  type ActivationId = nat
  type PayloadId = nat

  /**
   One thread-safe function: the shared `raw` pointer, how many `ManagedTsfn` clones own
   it, and its context box, which creation makes once it has found the lifecycle open.
   The native side and the fields from `releases` on are history.
   */
  datatype Handle = Handle(
    raw: bool,
    owners: nat,
    contextMade: bool,
    contextAlive: bool,
    hasFinalizer: bool,
    created: bool,                 // the native function exists
    nativeClosing: bool,           // the environment is closing it
    releases: nat,
    aborts: nat,
    consumed: nat,                 // calls answered `closing`, each of which gives the handle up
    finalized: bool,
    finalizerRuns: nat,
    swapper: Option<ActivationId>, // took `raw` and has not released it yet
    storer: Option<ActivationId>,  // was answered `closing` and has not cleared `raw` yet
    taker: Option<ActivationId>,   // unregistered it in a drop that is not done yet
    dropper: Option<ActivationId>, // dropped the last owner
    creator: ActivationId,
    registeredOnce: bool,
    refused: bool,                 // creation found the lifecycle closing
    late: bool)                    // was called natively after it had been given up

  function GivenUp(h: Handle): nat {
    h.releases + h.aborts + h.consumed
  }

  datatype PayloadState = Local | Queued | Gone
  datatype Payload = Payload(state: PayloadState, drops: nat, caller: ActivationId)

  datatype CallPoint = CallLock | CallLoad | CallNative | CallStore | CallUnlock
  datatype DropPoint = DropLock | DropUnregister | DropSwap | DropRelease | DropUnlock
  datatype CreatePoint = CreateLock | CreateName | CreateNative | CreateUnref | CreateSwap | CreateAbort | CreateRegister | CreateUnlock
  datatype ClosePoint = CloseLock | CloseFlag | CloseDrain | CloseNext | CloseSwap(h: HandleId) | CloseAbort(h: HandleId)

  datatype Pc =
    | Calling(call: CallPoint, h: HandleId, p: PayloadId)
    | Dropping(drop: DropPoint, h: HandleId)
    | Creating(create: CreatePoint, h: HandleId, weak: bool)
    | Closing(close: ClosePoint, list: set<HandleId>)

  datatype State = State(
    open: bool,
    readers: set<ActivationId>,
    writer: Option<ActivationId>,
    registered: set<HandleId>,
    handles: map<HandleId, Handle>,
    payloads: map<PayloadId, Payload>,
    acts: map<ActivationId, Pc>,
    closer: Option<ActivationId>,      // history: who closed the lifecycle
    drained: bool)                     // history: the closer emptied the list

  const INITIAL := State(true, {}, None, {}, map[], map[], map[], None, false)

  datatype Answer = Success | NowClosing | Failed | Pick(h: HandleId)

  datatype Label =
    | Create(h: HandleId, a: ActivationId, finalizer: bool, weak: bool)
    | Clone(h: HandleId)
    | Call(h: HandleId, a: ActivationId, p: PayloadId)
    | DropOwner(h: HandleId, a: ActivationId)
    | Close(a: ActivationId)
    | NativeCloses(h: HandleId)
    | Deliver(p: PayloadId)
    | Finalize(h: HandleId)
    | Step(a: ActivationId, answer: Answer)

  function NewHandle(a: ActivationId, finalizer: bool): Handle {
    Handle(false, 0, false, false, finalizer, false, false, 0, 0, 0, false, 0, None, None, None, None, a, false, false, false)
  }

  predicate InCall(s: State, a: ActivationId, h: HandleId) {
    a in s.acts && s.acts[a].Calling? && s.acts[a].h == h
  }

  predicate NobodyCalls(s: State, h: HandleId) {
    forall a {:trigger InCall(s, a, h)} :: a in s.acts ==> !InCall(s, a, h)
  }

  function Mentioned(pc: Pc): set<HandleId> {
    match pc
    case Calling(_, h, _) => {h}
    case Dropping(_, h) => {h}
    case Creating(_, h, _) => {h}
    case Closing(at, list) => list + (if at.CloseSwap? || at.CloseAbort? then {at.h} else {})
  }

  // The lock operations that may have to wait.
  predicate MayProceed(s: State, pc: Pc) {
    match pc
    case Calling(at, _, _) => at.CallLock? ==> s.writer.None?
    case Dropping(at, _) => at.DropLock? ==> s.writer.None?
    case Creating(at, _, _) => at.CreateLock? ==> s.writer.None?
    case Closing(at, _) => at.CloseLock? ==> s.writer.None? && s.readers == {}
  }

  predicate Ready(s: State, a: ActivationId) {
    a in s.acts && MayProceed(s, s.acts[a]) && Mentioned(s.acts[a]) <= s.handles.Keys
    && (s.acts[a].Calling? ==> s.acts[a].p in s.payloads)
  }

  /**
   The answers the native side may give: a function created for one thread answers
   `closing` only while that thread still counts, and succeeds only while it is not closing.
   */
  predicate GoodAnswer(s: State, pc: Pc, answer: Answer) {
    match pc
    case Calling(at, h, _) =>
      at.CallNative? && h in s.handles ==>
        && !answer.Pick?
        && (answer.NowClosing? ==> s.handles[h].nativeClosing && GivenUp(s.handles[h]) == 0)
        && (answer.Success? ==> !s.handles[h].nativeClosing && GivenUp(s.handles[h]) == 0)
    case Creating(at, _, _) => at.CreateName? || at.CreateNative? || at.CreateUnref? ==> answer.Success? || answer.Failed?
    case Closing(at, list) => at.CloseNext? && list != {} ==> answer.Pick? && answer.h in list
    case Dropping(_, _) => true
  }

  predicate Enabled(s: State, l: Label) {
    match l
    case Create(h, a, _, _) => h !in s.handles && a !in s.acts
    case Clone(h) => h in s.handles && s.handles[h].owners > 0
    case Call(h, a, p) => h in s.handles && s.handles[h].owners > 0 && a !in s.acts && p !in s.payloads
    case DropOwner(h, a) => h in s.handles && s.handles[h].owners > 0 && (s.handles[h].owners > 1 || NobodyCalls(s, h)) && a !in s.acts
    case Close(a) => a !in s.acts
    case NativeCloses(h) => h in s.handles && s.handles[h].created
    case Deliver(p) => p in s.payloads && s.payloads[p].state.Queued?
    // The native side finalizes a function after it was given up.
    case Finalize(h) => h in s.handles && s.handles[h].created && !s.handles[h].finalized && GivenUp(s.handles[h]) > 0
    case Step(a, answer) => Ready(s, a) && GoodAnswer(s, s.acts[a], answer)
  }

  function Goto(s: State, a: ActivationId, pc: Pc): State {
    s.(acts := s.acts[a := pc])
  }

  function Return(s: State, a: ActivationId): State {
    s.(acts := s.acts - {a})
  }

  function SetHandle(s: State, h: HandleId, handle: Handle): State {
    s.(handles := s.handles[h := handle])
  }

  function SetPayload(s: State, p: PayloadId, payload: Payload): State {
    s.(payloads := s.payloads[p := payload])
  }

  function DropPayload(payload: Payload): Payload {
    payload.(state := Gone, drops := payload.drops + 1)
  }

  function LockRead(s: State, a: ActivationId): State {
    s.(readers := s.readers + {a})
  }

  function UnlockRead(s: State, a: ActivationId): State {
    s.(readers := s.readers - {a})
  }

  /** Dropping the context box runs the finalizer if it has not run. */
  function DropContext(handle: Handle): Handle {
    handle.(contextAlive := false,
            finalizerRuns := handle.finalizerRuns + (if handle.contextAlive && handle.hasFinalizer then 1 else 0))
  }

  function ExecuteCall(s: State, a: ActivationId, at: CallPoint, h: HandleId, p: PayloadId, answer: Answer): State
    requires h in s.handles && p in s.payloads
  {
    var handle := s.handles[h];
    match at
    case CallLock =>
      if s.open then Goto(LockRead(s, a), a, Calling(CallLoad, h, p))
      else Return(SetPayload(s, p, DropPayload(s.payloads[p])), a)
    case CallLoad =>
      if handle.raw then Goto(s, a, Calling(CallNative, h, p))
      else Goto(SetPayload(s, p, DropPayload(s.payloads[p])), a, Calling(CallUnlock, h, p))
    case CallNative =>
      var called := handle.(late := handle.late || GivenUp(handle) > 0);
      if answer.Success? then Goto(SetPayload(SetHandle(s, h, called), p, s.payloads[p].(state := Queued)), a, Calling(CallUnlock, h, p))
      else if answer.NowClosing? then
        Goto(SetPayload(SetHandle(s, h, called.(consumed := handle.consumed + 1, storer := Some(a))), p, DropPayload(s.payloads[p])), a,
             Calling(CallStore, h, p))
      else Goto(SetPayload(SetHandle(s, h, called), p, DropPayload(s.payloads[p])), a, Calling(CallUnlock, h, p))
    case CallStore => Goto(SetHandle(s, h, handle.(raw := false, storer := None)), a, Calling(CallUnlock, h, p))
    case CallUnlock => Return(UnlockRead(s, a), a)
  }

  // Dropping the last owner.
  function ExecuteDrop(s: State, a: ActivationId, at: DropPoint, h: HandleId): State
    requires h in s.handles
  {
    var handle := s.handles[h];
    match at
    case DropLock => if s.open then Goto(LockRead(s, a), a, Dropping(DropUnregister, h)) else Return(s, a)
    case DropUnregister =>
      if h in s.registered
      then Goto(SetHandle(s.(registered := s.registered - {h}), h, handle.(taker := Some(a))), a, Dropping(DropSwap, h))
      else Goto(s, a, Dropping(DropUnlock, h))
    case DropSwap =>
      if handle.raw then Goto(SetHandle(s, h, handle.(raw := false, swapper := Some(a))), a, Dropping(DropRelease, h))
      else Goto(SetHandle(s, h, handle.(taker := None)), a, Dropping(DropUnlock, h))
    case DropRelease =>
      Goto(SetHandle(s, h, handle.(releases := handle.releases + 1, swapper := None, taker := None)), a, Dropping(DropUnlock, h))
    case DropUnlock => Return(UnlockRead(s, a), a)
  }

  // Creation that finds the lifecycle closing drops the finalizer, which no context holds yet, uncalled.
  function ExecuteCreate(s: State, a: ActivationId, at: CreatePoint, h: HandleId, weak: bool, answer: Answer): State
    requires h in s.handles
  {
    var handle := s.handles[h];
    match at
    case CreateLock =>
      if s.open then
        Goto(SetHandle(LockRead(s, a), h, handle.(contextMade := true, contextAlive := true)), a, Creating(CreateName, h, weak))
      else Return(SetHandle(s, h, handle.(refused := true)), a)
    case CreateName =>
      if answer.Success? then Goto(s, a, Creating(CreateNative, h, weak))
      else Goto(SetHandle(s, h, DropContext(handle)), a, Creating(CreateUnlock, h, weak))
    case CreateNative =>
      if answer.Success? then Goto(SetHandle(s, h, handle.(created := true, raw := true)), a, Creating(CreateUnref, h, weak))
      else Goto(SetHandle(s, h, DropContext(handle)), a, Creating(CreateUnlock, h, weak))
    case CreateUnref => Goto(s, a, Creating(if weak && answer.Failed? then CreateSwap else CreateRegister, h, weak))
    case CreateSwap =>
      if handle.raw then Goto(SetHandle(s, h, handle.(raw := false, swapper := Some(a))), a, Creating(CreateAbort, h, weak))
      else Goto(s, a, Creating(CreateUnlock, h, weak))
    case CreateAbort =>
      Goto(SetHandle(s, h, handle.(aborts := handle.aborts + 1, swapper := None)), a, Creating(CreateUnlock, h, weak))
    case CreateRegister =>
      Goto(SetHandle(s.(registered := s.registered + {h}), h, handle.(registeredOnce := true, owners := 1)), a, Creating(CreateUnlock, h, weak))
    case CreateUnlock => Return(UnlockRead(s, a), a)
  }

  function ExecuteClose(s: State, a: ActivationId, at: ClosePoint, list: set<HandleId>, answer: Answer): State
    requires (at.CloseSwap? || at.CloseAbort? ==> at.h in s.handles)
    requires at.CloseNext? && list != {} ==> answer.Pick?
  {
    match at
    case CloseLock => Goto(s.(writer := Some(a)), a, Closing(CloseFlag, {}))
    case CloseFlag =>
      if s.open then Goto(s.(open := false, writer := None, closer := Some(a)), a, Closing(CloseDrain, {}))
      else Return(s.(writer := None), a)
    case CloseDrain => Goto(s.(registered := {}, drained := true), a, Closing(CloseNext, s.registered))
    case CloseNext => if list == {} then Return(s, a) else Goto(s, a, Closing(CloseSwap(answer.h), list - {answer.h}))
    case CloseSwap(h) =>
      if s.handles[h].raw then Goto(SetHandle(s, h, s.handles[h].(raw := false, swapper := Some(a))), a, Closing(CloseAbort(h), list))
      else Goto(s, a, Closing(CloseNext, list))
    case CloseAbort(h) =>
      Goto(SetHandle(s, h, s.handles[h].(aborts := s.handles[h].aborts + 1, swapper := None)), a, Closing(CloseNext, list))
  }

  function Execute(s: State, a: ActivationId, answer: Answer): State
    requires Ready(s, a) && GoodAnswer(s, s.acts[a], answer)
  {
    match s.acts[a]
    case Calling(at, h, p) => ExecuteCall(s, a, at, h, p, answer)
    case Dropping(at, h) => ExecuteDrop(s, a, at, h)
    case Creating(at, h, weak) => ExecuteCreate(s, a, at, h, weak, answer)
    case Closing(at, list) => ExecuteClose(s, a, at, list, answer)
  }

  function Apply(s: State, l: Label): State
    requires Enabled(s, l)
  {
    match l
    case Create(h, a, finalizer, weak) => Goto(SetHandle(s, h, NewHandle(a, finalizer)), a, Creating(CreateLock, h, weak))
    case Clone(h) => SetHandle(s, h, s.handles[h].(owners := s.handles[h].owners + 1))
    case Call(h, a, p) => Goto(SetPayload(s, p, Payload(Local, 0, a)), a, Calling(CallLock, h, p))
    case DropOwner(h, a) =>
      var left := s.handles[h].owners - 1;
      if left > 0 then SetHandle(s, h, s.handles[h].(owners := left))
      else Goto(SetHandle(s, h, s.handles[h].(owners := 0, dropper := Some(a))), a, Dropping(DropLock, h))
    case Close(a) => Goto(s, a, Closing(CloseLock, {}))
    case NativeCloses(h) => SetHandle(s, h, s.handles[h].(nativeClosing := true))
    case Deliver(p) => SetPayload(s, p, DropPayload(s.payloads[p]))
    case Finalize(h) => SetHandle(s, h, DropContext(s.handles[h].(raw := false, finalized := true)))
    case Step(a, answer) => Execute(s, a, answer)
  }

  function Run(s: State, labels: seq<Label>): (r: Option<State>)
    decreases |labels|
  {
    if labels == [] then Some(s)
    else if Enabled(s, labels[0]) then Run(Apply(s, labels[0]), labels[1..])
    else None
  }
}
