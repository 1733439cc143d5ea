/**
 Promise settlement as a transition system. A step is one mutex critical section, one
 atomic operation or one native call of `complete`, `abandon`, `settle_on_js`,
 `route_completion`, `queue_fallback`, the DispatcherQueue and thread-safe-function
 callbacks, queue draining, registration or `cleanup_env`; an activation is one call of
 such a function, with a program counter. Activations of worker threads interleave
 freely. Activations of the JS thread interleave only where the function can re-enter
 JavaScript (around the callback scope of a settlement).
 */
module AsyncPromise {
  import opened Wrappers
  import opened AsyncDispatcher

  type ActivationId = nat

  /** An error reported by the operation, or one of those that settling makes up itself. */
  datatype Reason = Reported(text: string) | ResultUnavailable | ScopeNotOpened | NotConverted

  datatype Completion = Value(token: int) | Failure(reason: Reason)

  datatype Fate = Open | Settled | Abandoned

  /** How far the creating call got: `Refused` when the dispatcher could not be referenced. */
  datatype Registration = Unregistered | Inserted | Registered | Refused

  /**
   One `AsyncPromiseState`. The fields from `first` on are history: no step branches on
   them except on `registration`, which says whether the creating call has returned.
   */
  datatype Promise = Promise(
    operation: bool,
    result: Option<Completion>,
    resultLock: Option<ActivationId>,
    settled: bool,
    fallbackQueued: bool,
    first: Option<Completion>,
    fate: Fate,
    winner: ActivationId,
    caller: Option<ActivationId>,
    entries: nat,
    callFailed: bool,
    unshadowed: bool,
    deferred: nat,
    missed: nat,
    contexts: nat,
    references: nat,
    outcome: Option<Completion>,
    creator: ActivationId,
    registration: Registration)

  function NewPromise(creator: ActivationId): Promise {
    Promise(true, None, None, false, false, None, Open, 0, None, 0, false, false, 0, 0, 0, 0, None, creator, Unregistered)
  }

  datatype CompletePoint = CompleteUpgrade | CompleteCheck | CompleteLock | CompleteWrite
  datatype RoutePoint = RouteCheck | RouteInsert | RouteEnqueue | RouteRemove
  datatype FallbackPoint = FallbackCheck | FallbackSwap | FallbackCall
  datatype AbandonPoint = AbandonSwap | AbandonOperation | AbandonResult
  datatype CallbackPoint = CallbackRemove | CallbackCheck | ScopeOpen | TsfnCheck
  datatype DecidePoint = SettleUpgrade | SettleCheck | SettleSwap
  datatype SettlePoint = SettleTake | SettleDeferred(c: Completion) | SettleDestroy | SettleDelete
  datatype CleanupPoint = CleanupSwap | CleanupDrain | CleanupDropQueue | CleanupTakeRegistry | CleanupRelease
  datatype RegisterPoint = RegisterCheck | RegisterInsert | RegisterRef | RegisterStore | RegisterUndo

  /** A program counter: the function, the point it is at and the promise it works on. */
  datatype Pc =
    | Completing(complete: CompletePoint, p: PromiseId, r: Completion)
    | Routing(route: RoutePoint, p: PromiseId)
    | Falling(fallback: FallbackPoint, p: PromiseId)
    | Abandoning(abandon: AbandonPoint, p: PromiseId)
    | Calling(callback: CallbackPoint, p: PromiseId)
    | Deciding(decide: DecidePoint, p: PromiseId)
    | Settling(settle: SettlePoint, p: PromiseId)
    | Registering(register: RegisterPoint, p: PromiseId)
    | Finishing(p: PromiseId)
    | Unreferencing
    | Draining
    | Drained(list: set<PromiseId>)
    | NextItem
    | DroppingQueue
    | Cleaning(cleanup: CleanupPoint)
    | Installing(checked: bool)

  /** What the activation does when the function it is in returns. */
  datatype Continuation =
    | Return
    | DrainLoop(list: set<PromiseId>, direct: bool, unregister: bool)
    | CleanupPending(list: set<PromiseId>)
    | CleanupRegistry(list: set<PromiseId>)

  datatype Activation = Activation(onJs: bool, pc: Pc, k: Continuation)

  /** A successful ref call, or an unref call, which may have failed natively. */
  datatype RefEvent = Ref | Unref(done: bool)

  datatype State = State(
    d: Dispatcher,
    promises: map<PromiseId, Promise>,
    queued: multiset<PromiseId>,          // callbacks some DispatcherQueue accepted
    tsfn: set<PromiseId>,                 // boxes in the shared thread-safe function
    acts: map<ActivationId, Activation>,
    released: bool,                       // the thread-safe function was aborted
    alive: bool,                          // the dispatcher can still be upgraded
    cleaner: Option<ActivationId>,        // history: who won the `closing` swap
    drained: bool,                        // history: cleanup emptied the registry
    refs: seq<RefEvent>)                  // history: successful ref calls, and all unref calls

  const INITIAL := State(FRESH_DISPATCHER, map[], multiset{}, {}, map[], false, true, None, false, [])

  /** What the environment answers at a native call, or which item a loop takes next. */
  datatype Answer = Success | Closing | Failed | Unconverted | Pick(p: PromiseId)

  /** A settlement whose callback scope cannot be opened, and one whose value cannot be converted, reject with an error. */
  const SCOPE_FAILURE := Failure(ScopeNotOpened)
  const CONVERSION_FAILURE := Failure(NotConverted)

  datatype Label =
    | Create(p: PromiseId, a: ActivationId)
    | TakeOperation(p: PromiseId)
    | Complete(p: PromiseId, a: ActivationId, onJs: bool, r: Completion)
    | QueueCallback(p: PromiseId, a: ActivationId)
    | QueueDiscards(p: PromiseId)
    | TsfnCallback(p: PromiseId, a: ActivationId, envNull: bool)
    | ShutdownStarting(a: ActivationId, onJs: bool)
    | RegisterQueue(a: ActivationId)
    | UnregisterQueue(a: ActivationId)
    | CleanupEnv(a: ActivationId)
    | DropDispatcher
    | Step(a: ActivationId, answer: Answer)

  // JavaScript can run inside the callback scope of a settlement and nowhere else.
  predicate Parked(act: Activation) {
    act.pc.Settling? && (act.pc.settle.SettleDeferred? || act.pc.settle.SettleDestroy?)
  }

  predicate OthersParked(s: State, a: ActivationId) {
    forall b {:trigger Parked(s.acts[b])} :: b in s.acts && b != a && s.acts[b].onJs ==> Parked(s.acts[b])
  }

  predicate JsMayEnter(s: State, a: ActivationId) {
    a !in s.acts && OthersParked(s, a)
  }

  predicate Promiseless(pc: Pc) {
    pc.Unreferencing? || pc.Draining? || pc.Drained? || pc.NextItem? || pc.DroppingQueue? || pc.Cleaning? || pc.Installing?
  }

  function Mentions(pc: Pc): set<PromiseId> {
    if Promiseless(pc) then {} else {pc.p}
  }

  // Taking the result means locking it.
  predicate LocksResult(pc: Pc) {
    || (pc.Completing? && pc.complete.CompleteLock?)
    || (pc.Abandoning? && pc.abandon.AbandonResult?)
    || (pc.Settling? && pc.settle.SettleTake?)
  }

  predicate Waits(s: State, a: ActivationId)
    requires a in s.acts
  {
    var pc := s.acts[a].pc;
    LocksResult(pc) && pc.p in s.promises && s.promises[pc.p].resultLock.Some?
  }

  /** The activation may take a step: a JS activation only while all others are parked. */
  predicate Ready(s: State, a: ActivationId) {
    && a in s.acts
    && (s.acts[a].onJs ==> OthersParked(s, a))
    && Mentions(s.acts[a].pc) <= s.promises.Keys
    && !Waits(s, a)
  }

  /** The answers the environment may give where the activation asks it something. */
  predicate GoodAnswer(act: Activation, answer: Answer) {
    match act.pc
    case Routing(RouteEnqueue, _) => answer.Success? || answer.Failed?
    case Calling(ScopeOpen, _) => answer.Success? || answer.Failed?
    case Settling(SettleTake, _) => answer.Success? || answer.Failed?
    case Settling(SettleDeferred(c), _) => answer.Success? || answer.Failed? || (answer.Unconverted? && c.Value?)
    case Registering(RegisterRef, _) => answer.Success? || answer.Failed?
    case Unreferencing => answer.Success? || answer.Failed?
    case Falling(FallbackCall, _) => answer.Success? || answer.Closing? || answer.Failed?
    case NextItem => !act.k.Return? && act.k.list != {} ==> answer.Pick? && answer.p in act.k.list
    case _ => true
  }

  predicate Enabled(s: State, l: Label) {
    match l
    case Create(p, a) => p !in s.promises && s.alive && JsMayEnter(s, a)
    case TakeOperation(p) => p in s.promises && s.promises[p].registration.Registered?
    case Complete(p, a, onJs, _) =>
      p in s.promises && s.promises[p].registration.Registered? && !s.promises[p].operation
      && (if onJs then JsMayEnter(s, a) else a !in s.acts)
    case QueueCallback(p, a) => p in s.queued && JsMayEnter(s, a)
    case QueueDiscards(p) => p in s.queued
    case TsfnCallback(p, a, envNull) => p in s.tsfn && JsMayEnter(s, a) && (envNull ==> s.released)
    case ShutdownStarting(a, onJs) => s.alive && (if onJs then JsMayEnter(s, a) else a !in s.acts)
    case RegisterQueue(a) => s.alive && JsMayEnter(s, a)
    case UnregisterQueue(a) => s.alive && JsMayEnter(s, a)
    case CleanupEnv(a) => s.alive && JsMayEnter(s, a)
    case DropDispatcher => s.released
    case Step(a, answer) => Ready(s, a) && GoodAnswer(s.acts[a], answer)
  }

  function Enter(s: State, a: ActivationId, act: Activation): State {
    s.(acts := s.acts[a := act])
  }

  function Goto(s: State, a: ActivationId, pc: Pc): State
    requires a in s.acts
  {
    s.(acts := s.acts[a := s.acts[a].(pc := pc)])
  }

  function SetPromise(s: State, p: PromiseId, pr: Promise): State {
    s.(promises := s.promises[p := pr])
  }

  function Apply(s: State, l: Label): State
    requires Enabled(s, l)
  {
    match l
    case Create(p, a) =>
      Enter(SetPromise(s, p, NewPromise(a)), a, Activation(true, Registering(RegisterCheck, p), Return))
    case TakeOperation(p) => SetPromise(s, p, s.promises[p].(operation := false))
    case Complete(p, a, onJs, r) => Enter(s, a, Activation(onJs, Completing(CompleteUpgrade, p, r), Return))
    case QueueCallback(p, a) =>
      Enter(s.(queued := s.queued - multiset{p}), a,
            Activation(true, if s.alive then Calling(CallbackRemove, p) else Abandoning(AbandonSwap, p), Return))
    case QueueDiscards(p) => s.(queued := s.queued - multiset{p})
    case TsfnCallback(p, a, envNull) =>
      Enter(s.(tsfn := s.tsfn - {p}), a,
            Activation(true, if envNull || !s.alive then Abandoning(AbandonSwap, p) else Calling(TsfnCheck, p), Return))
    case ShutdownStarting(a, onJs) => Enter(s, a, Activation(onJs, Draining, DrainLoop({}, false, false)))
    case RegisterQueue(a) => Enter(s, a, Activation(true, Installing(false), Return))
    case UnregisterQueue(a) => Enter(s, a, Activation(true, Draining, DrainLoop({}, false, true)))
    case CleanupEnv(a) => Enter(s, a, Activation(true, Cleaning(CleanupSwap), Return))
    case DropDispatcher => s.(alive := false)
    case Step(a, answer) => Execute(s, a, answer)
  }

  function Execute(s: State, a: ActivationId, answer: Answer): State
    requires Ready(s, a) && GoodAnswer(s.acts[a], answer)
  {
    match s.acts[a].pc
    case Completing(at, p, r) => ExecuteComplete(s, a, at, p, r)
    case Routing(at, p) => ExecuteRoute(s, a, at, p, answer)
    case Falling(at, p) => ExecuteFallback(s, a, at, p, answer)
    case Abandoning(at, p) => ExecuteAbandon(s, a, at, p)
    case Calling(at, p) => ExecuteCallback(s, a, at, p, answer)
    case Deciding(at, p) => ExecuteDecide(s, a, at, p)
    case Settling(at, p) => ExecuteSettle(s, a, at, p, answer)
    case Registering(at, p) => ExecuteRegister(s, a, at, p, answer)
    case Finishing(p) => ExecuteFinish(s, a, p)
    case Unreferencing => Goto(if s.d.closing then s else s.(refs := s.refs + [Unref(answer.Success?)]), a, NextItem)
    case Draining => ExecuteDrain(s, a)
    case Drained(list) => ExecuteDrained(s, a, list)
    case NextItem => ExecuteNext(s, a, answer)
    case DroppingQueue => ExecuteDrop(s, a)
    case Cleaning(at) => ExecuteCleanup(s, a, at)
    case Installing(checked) => ExecuteInstall(s, a, checked)
  }

  // `complete`: the result lock is held from CompleteLock to CompleteWrite.
  function ExecuteComplete(s: State, a: ActivationId, at: CompletePoint, p: PromiseId, r: Completion): State
    requires a in s.acts && p in s.promises
  {
    var pr := s.promises[p];
    match at
    case CompleteUpgrade => Goto(s, a, if s.alive then Completing(CompleteCheck, p, r) else Abandoning(AbandonSwap, p))
    case CompleteCheck => Goto(s, a, if s.d.closing then Abandoning(AbandonSwap, p) else Completing(CompleteLock, p, r))
    case CompleteLock =>
      if pr.result.Some? || pr.settled then Goto(s, a, NextItem)
      else Goto(SetPromise(s, p, pr.(resultLock := Some(a))), a, Completing(CompleteWrite, p, r))
    case CompleteWrite =>
      Goto(SetPromise(s, p, pr.(result := Some(r), resultLock := None, first := Some(r))), a, Routing(RouteCheck, p))
  }

  function ExecuteRoute(s: State, a: ActivationId, at: RoutePoint, p: PromiseId, answer: Answer): State
    requires a in s.acts
  {
    match at
    case RouteCheck => Goto(s, a, if s.d.closing then Abandoning(AbandonSwap, p) else Routing(RouteInsert, p))
    case RouteInsert =>
      var (d, routed) := InsertPending(s.d, p);
      Goto(s.(d := d), a, if routed then Routing(RouteEnqueue, p) else Falling(FallbackCheck, p))
    case RouteEnqueue =>
      if answer.Success? then Goto(s.(queued := s.queued + multiset{p}), a, NextItem)
      else Goto(s, a, Routing(RouteRemove, p))
    case RouteRemove => Goto(s.(d := RemovePending(s.d, p)), a, Falling(FallbackCheck, p))
  }

  function ExecuteFallback(s: State, a: ActivationId, at: FallbackPoint, p: PromiseId, answer: Answer): State
    requires a in s.acts && p in s.promises
  {
    var pr := s.promises[p];
    match at
    case FallbackCheck => Goto(s, a, if s.d.closing then Abandoning(AbandonSwap, p) else Falling(FallbackSwap, p))
    case FallbackSwap =>
      if pr.fallbackQueued then Goto(s, a, NextItem)
      else Goto(SetPromise(s, p, pr.(fallbackQueued := true, caller := Some(a))), a, Falling(FallbackCall, p))
    case FallbackCall =>
      match answer
      case Success => Goto(SetPromise(s.(tsfn := s.tsfn + {p}), p, pr.(entries := pr.entries + 1)), a, NextItem)
      case Closing => Goto(s, a, Abandoning(AbandonSwap, p))
      case _ => Goto(SetPromise(s, p, pr.(callFailed := true)), a, NextItem)
  }

  function ExecuteAbandon(s: State, a: ActivationId, at: AbandonPoint, p: PromiseId): State
    requires a in s.acts && p in s.promises
  {
    var pr := s.promises[p];
    match at
    case AbandonSwap =>
      if pr.settled then Goto(s, a, NextItem)
      else Goto(SetPromise(s, p, pr.(settled := true, fate := Abandoned, winner := a)), a, Abandoning(AbandonOperation, p))
    case AbandonOperation => Goto(SetPromise(s, p, pr.(operation := false)), a, Abandoning(AbandonResult, p))
    case AbandonResult => Goto(SetPromise(s, p, pr.(result := None)), a, NextItem)
  }

  function ExecuteCallback(s: State, a: ActivationId, at: CallbackPoint, p: PromiseId, answer: Answer): State
    requires a in s.acts
  {
    match at
    case CallbackRemove => Goto(s.(d := RemovePending(s.d, p)), a, Calling(CallbackCheck, p))
    case CallbackCheck => Goto(s, a, if s.d.closing then Abandoning(AbandonSwap, p) else Calling(ScopeOpen, p))
    case ScopeOpen => Goto(s, a, if answer.Success? then Deciding(SettleUpgrade, p) else Abandoning(AbandonSwap, p))
    case TsfnCheck => Goto(s, a, if s.d.closing then Abandoning(AbandonSwap, p) else Deciding(SettleUpgrade, p))
  }

  // `settle_on_js` up to the swap that decides who settles.
  function ExecuteDecide(s: State, a: ActivationId, at: DecidePoint, p: PromiseId): State
    requires a in s.acts && p in s.promises
  {
    var pr := s.promises[p];
    match at
    case SettleUpgrade => Goto(s, a, if s.alive then Deciding(SettleCheck, p) else Abandoning(AbandonSwap, p))
    case SettleCheck => Goto(s, a, if s.d.closing then Abandoning(AbandonSwap, p) else Deciding(SettleSwap, p))
    case SettleSwap =>
      if pr.settled then Goto(s, a, NextItem)
      else Goto(SetPromise(s, p, pr.(settled := true, fate := Settled, winner := a)), a, Settling(SettleTake, p))
  }

  // The rest of `settle_on_js`. Taking the result is followed by opening the callback scope, whose answer decides what
  // the deferred is settled with. The deferred is missed only when the rejection error cannot be created.
  function ExecuteSettle(s: State, a: ActivationId, at: SettlePoint, p: PromiseId, answer: Answer): State
    requires a in s.acts && p in s.promises
  {
    var pr := s.promises[p];
    match at
    case SettleTake =>
      var c := if pr.result.Some? then pr.result.value else Failure(ResultUnavailable);
      Goto(SetPromise(s, p, pr.(result := None)), a, Settling(SettleDeferred(if answer.Success? then c else SCOPE_FAILURE), p))
    case SettleDeferred(c) =>
      var used := DeferredGets(c, answer);
      var pr' := pr.(deferred := pr.deferred + (if used.Some? then 1 else 0), missed := pr.missed + (if used.Some? then 0 else 1), outcome := used);
      Goto(SetPromise(s, p, pr'), a, Settling(SettleDestroy, p))
    case SettleDestroy => Goto(SetPromise(s, p, pr.(contexts := pr.contexts + 1)), a, Settling(SettleDelete, p))
    case SettleDelete => Goto(SetPromise(s, p, pr.(references := pr.references + 1)), a, Finishing(p))
  }

  /** What the deferred is settled with; nothing when the error of a rejection cannot be created. */
  function DeferredGets(c: Completion, answer: Answer): Option<Completion> {
    if answer.Success? then Some(c) else if answer.Unconverted? then Some(CONVERSION_FAILURE) else None
  }

  function ExecuteFinish(s: State, a: ActivationId, p: PromiseId): State
    requires a in s.acts
  {
    var (d, shouldUnref) := Finish(s.d, p);
    Goto(s.(d := d), a, if shouldUnref then Unreferencing else NextItem)
  }

  function ExecuteDrain(s: State, a: ActivationId): State
    requires a in s.acts
  {
    var (d, list) := DrainPending(s.d);
    Goto(s.(d := d), a, Drained(list))
  }

  // Whether the items can be settled here is decided once, before the loop.
  function ExecuteDrained(s: State, a: ActivationId, list: set<PromiseId>): State
    requires a in s.acts
  {
    var act := s.acts[a];
    var unregister := act.k.DrainLoop? && act.k.unregister;
    Enter(s, a, Activation(act.onJs, NextItem, DrainLoop(list, !s.d.closing && act.onJs, unregister)))
  }

  function ExecuteDrop(s: State, a: ActivationId): State
    requires a in s.acts
  {
    Enter(Unshadow(s).(d := TakeQueue(s.d)), a, Activation(s.acts[a].onJs, NextItem, Return))
  }

  // History only: taking the queue drops whatever its shadow map still holds.
  function Unshadow(s: State): State {
    s.(promises := map p | p in s.promises ::
         if s.d.Shadows(p) then s.promises[p].(unshadowed := true) else s.promises[p])
  }

  // A function returned: take the next item of the enclosing loop, or leave it.
  function ExecuteNext(s: State, a: ActivationId, answer: Answer): State
    requires a in s.acts && s.acts[a].pc.NextItem? && GoodAnswer(s.acts[a], answer)
  {
    var act := s.acts[a];
    match act.k
    case Return => s.(acts := s.acts - {a})
    case DrainLoop(list, direct, unregister) =>
      if list == {} then
        if unregister then Goto(s, a, DroppingQueue) else s.(acts := s.acts - {a})
      else
        Enter(s, a, Activation(act.onJs, if direct then Calling(ScopeOpen, answer.p) else Falling(FallbackCheck, answer.p),
                               DrainLoop(list - {answer.p}, direct, unregister)))
    case CleanupPending(list) =>
      if list == {} then Goto(s, a, Cleaning(CleanupDropQueue))
      else Enter(s, a, Activation(act.onJs, Abandoning(AbandonSwap, answer.p), CleanupPending(list - {answer.p})))
    case CleanupRegistry(list) =>
      if list == {} then Goto(s, a, Cleaning(CleanupRelease))
      else Enter(s, a, Activation(act.onJs, Abandoning(AbandonSwap, answer.p), CleanupRegistry(list - {answer.p})))
  }

  function ExecuteCleanup(s: State, a: ActivationId, at: CleanupPoint): State
    requires a in s.acts
  {
    var onJs := s.acts[a].onJs;
    match at
    case CleanupSwap =>
      if s.d.closing then Goto(s, a, NextItem)
      else Enter(s.(d := s.d.(closing := true), cleaner := Some(a)), a,
                 Activation(onJs, Cleaning(CleanupDrain), CleanupPending({})))
    case CleanupDrain =>
      var (d, list) := DrainPending(s.d);
      Enter(s.(d := d), a, Activation(onJs, NextItem, CleanupPending(list)))
    case CleanupDropQueue => Goto(s.(d := TakeQueue(s.d)), a, Cleaning(CleanupTakeRegistry))
    case CleanupTakeRegistry =>
      var (d, list) := DrainRegistry(s.d);
      Enter(s.(d := d, drained := true), a, Activation(onJs, NextItem, CleanupRegistry(list)))
    case CleanupRelease => Enter(s.(released := true), a, Activation(onJs, NextItem, Return))
  }

  function ExecuteRegister(s: State, a: ActivationId, at: RegisterPoint, p: PromiseId, answer: Answer): State
    requires a in s.acts && p in s.promises
  {
    var pr := s.promises[p];
    match at
    case RegisterCheck =>
      if s.d.closing then Goto(SetPromise(s, p, Refuse(pr)), a, NextItem)
      else Goto(s, a, Registering(RegisterInsert, p))
    case RegisterInsert =>
      var (d, shouldRef) := InsertRegistry(s.d, p);
      Goto(SetPromise(s.(d := d), p, pr.(registration := if shouldRef then Inserted else Registered)), a,
           if shouldRef then Registering(RegisterRef, p) else NextItem)
    case RegisterRef =>
      if answer.Success? then Goto(s.(refs := s.refs + [Ref]), a, Registering(RegisterStore, p))
      else Goto(s, a, Registering(RegisterUndo, p))
    case RegisterStore =>
      Goto(SetPromise(s.(d := s.d.(tsfnReferenced := true)), p, pr.(registration := Registered)), a, NextItem)
    case RegisterUndo => Goto(SetPromise(s.(d := RemoveRegistry(s.d, p)), p, Refuse(pr)), a, NextItem)
  }

  // The error path of `create_async_promise`.
  function Refuse(pr: Promise): Promise {
    pr.(registration := Refused, contexts := pr.contexts + 1, references := pr.references + 1)
  }

  function ExecuteInstall(s: State, a: ActivationId, checked: bool): State
    requires a in s.acts
  {
    if checked then Goto(s.(d := InstallQueue(s.d)), a, NextItem)
    else Goto(s, a, if s.d.closing || s.d.queue.Some? then NextItem else Installing(true))
  }

  /** The state a run of labels reaches from `s`, or None if some label is not enabled. */
  function Run(s: State, labels: seq<Label>): (r: Option<State>)
    decreases |labels|
  {
    if labels == [] then Some(s)
    else if Enabled(s, labels[0]) then Run(Apply(s, labels[0]), labels[1..])
    else None
  }
}
