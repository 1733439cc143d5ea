/** The inductive invariant of the settlement protocol, split per promise and per activation. */
module AsyncInvariant {
  import opened Wrappers
  import opened AsyncDispatcher
  import opened AsyncPromise

  // ---- who holds a stored completion ----

  /** The completions an activation will still hand on, settle or abandon. */
  function Holds(act: Activation): set<PromiseId> {
    HoldsPc(act.pc) + HoldsList(act.k)
  }

  function HoldsPc(pc: Pc): set<PromiseId> {
    match pc
    case Routing(at, p) => if at.RouteEnqueue? then {} else {p}
    case Falling(_, p) => {p}
    case Abandoning(at, p) => if at.AbandonSwap? then {p} else {}
    case Calling(_, p) => {p}
    case Deciding(_, p) => {p}
    case Drained(list) => list
    case _ => {}
  }

  function HoldsList(k: Continuation): set<PromiseId> {
    match k
    case Return => {}
    case DrainLoop(list, _, _) => list
    case CleanupPending(list) => list
    case CleanupRegistry(list) => list
  }

  /** On the way between the fallback swap and the end of the thread-safe-function callback. */
  function Delivers(pc: Pc): set<PromiseId> {
    match pc
    case Falling(at, p) => if at.FallbackCall? then {p} else {}
    case Abandoning(at, p) => if at.AbandonSwap? then {p} else {}
    case Calling(at, p) => if at.TsfnCheck? then {p} else {}
    case Deciding(_, p) => {p}
    case _ => {}
  }

  ghost predicate Held(acts: map<ActivationId, Activation>, p: PromiseId) {
    exists a :: a in acts && p in Holds(acts[a])
  }

  ghost predicate HeldElse(acts: map<ActivationId, Activation>, a: ActivationId, p: PromiseId) {
    exists b :: b in acts && b != a && p in Holds(acts[b])
  }

  ghost predicate Delivering(acts: map<ActivationId, Activation>, p: PromiseId) {
    exists a :: a in acts && p in Delivers(acts[a].pc)
  }

  ghost predicate DeliveringElse(acts: map<ActivationId, Activation>, a: ActivationId, p: PromiseId) {
    exists b :: b in acts && b != a && p in Delivers(acts[b].pc)
  }

  /** A stored completion is in a shadow map, in the thread-safe function, or held by an activation. */
  ghost predicate Located(s: State, p: PromiseId) {
    s.d.Shadows(p) || p in s.tsfn || Held(s.acts, p)
  }

  // ---- one promise ----

  predicate At(s: State, a: ActivationId, pc: Pc) {
    a in s.acts && s.acts[a].pc == pc
  }

  predicate StillSettling(s: State, a: ActivationId, p: PromiseId) {
    a in s.acts && s.acts[a].pc.Settling? && s.acts[a].pc.p == p
  }

  /** The native side of a promise has not been touched. */
  predicate Untouched(pr: Promise) {
    pr.deferred == 0 && pr.missed == 0 && pr.contexts == 0 && pr.references == 0
  }

  /** Settled, and the deferred, async context and resource reference are all done with. */
  predicate Finished(pr: Promise) {
    pr.deferred + pr.missed == 1 && pr.contexts == 1 && pr.references == 1 && pr.result.None?
  }

  /** The deferred gets the first stored completion, or an error. */
  predicate SettlesWith(pr: Promise, c: Completion) {
    pr.first == Some(c) || c.Failure?
  }

  predicate ResultOk(pr: Promise) {
    && (pr.result.Some? ==> pr.result == pr.first)
    && (pr.settled <==> !pr.fate.Open?)
    && (pr.fate.Open? ==> pr.result == pr.first && pr.deferred == 0 && pr.missed == 0)
    && (pr.outcome.Some? <==> pr.deferred == 1)
    && (pr.outcome.Some? ==> SettlesWith(pr, pr.outcome.value))
    && (pr.registration.Refused? ==> pr.fate.Open? && pr.first.None? && pr.contexts == 1 && pr.references == 1)
    && (pr.fate.Open? && !pr.registration.Refused? ==> Untouched(pr))
    && (pr.first.Some? ==> !pr.operation && pr.registration.Registered?)
    && (pr.fate.Settled? ==> pr.first.Some?)
    && (pr.fate.Abandoned? ==> Untouched(pr) && pr.registration.Registered?)
    && (!pr.registration.Registered? ==> pr.first.None? && pr.fate.Open? && pr.resultLock.None?)
  }

  predicate FallbackOk(pr: Promise) {
    && (pr.caller.Some? <==> pr.fallbackQueued)
    && (pr.fallbackQueued ==> pr.first.Some?)
    && pr.entries <= 1
    && (!pr.fallbackQueued ==> pr.entries == 0 && !pr.callFailed)
    && (pr.callFailed ==> pr.entries == 0)
  }

  /** What the winner of the `settled` swap still has to do. */
  predicate WinnerOk(s: State, p: PromiseId)
    requires p in s.promises
  {
    var pr := s.promises[p];
    && (pr.fate.Settled? && !StillSettling(s, pr.winner, p) ==> Finished(pr))
    && (pr.fate.Abandoned? && pr.operation ==> At(s, pr.winner, Abandoning(AbandonOperation, p)))
    && (pr.fate.Abandoned? && (pr.result.Some? || pr.resultLock.Some?) ==>
          At(s, pr.winner, Abandoning(AbandonOperation, p)) || At(s, pr.winner, Abandoning(AbandonResult, p)))
  }

  predicate LockOk(s: State, p: PromiseId)
    requires p in s.promises
  {
    var pr := s.promises[p];
    pr.resultLock.Some? ==>
      && pr.first.None? && !pr.fate.Settled?
      && pr.resultLock.value in s.acts
      && s.acts[pr.resultLock.value].pc.Completing? && s.acts[pr.resultLock.value].pc.complete.CompleteWrite?
      && s.acts[pr.resultLock.value].pc.p == p
  }

  /** The promises a cleanup activation took out of the registry and has not abandoned yet. */
  function OwedBy(act: Activation): set<PromiseId> {
    if act.k.CleanupRegistry? then act.k.list + (if act.pc.Abandoning? && act.pc.abandon.AbandonSwap? then {act.pc.p} else {}) else {}
  }

  predicate Owes(s: State, p: PromiseId) {
    s.cleaner.Some? && s.cleaner.value in s.acts && p in OwedBy(s.acts[s.cleaner.value])
  }

  predicate RegistryOk(s: State, p: PromiseId)
    requires p in s.promises
  {
    var pr := s.promises[p];
    && (pr.registration.Registered? ==> p in s.d.registry || pr.settled || Owes(s, p))
    && (pr.registration.Inserted? ==>
          At(s, pr.creator, Registering(RegisterRef, p)) || At(s, pr.creator, Registering(RegisterStore, p)) || At(s, pr.creator, Registering(RegisterUndo, p)))
    && (p in s.d.registry ==> pr.registration.Inserted? || pr.registration.Registered?)
  }

  ghost predicate LocationOk(s: State, p: PromiseId)
    requires p in s.promises
  {
    var pr := s.promises[p];
    && (s.d.Shadows(p) || p in s.queued ==> pr.first.Some?)
    && (p in s.tsfn ==> pr.fallbackQueued && pr.entries == 1)
    && (pr.first.Some? && pr.fate.Open? && !pr.callFailed && !pr.unshadowed ==> Located(s, p))
    && (pr.fallbackQueued && pr.fate.Open? && !pr.callFailed ==> p in s.tsfn || Delivering(s.acts, p))
  }

  ghost predicate PromiseOk(s: State, p: PromiseId)
    requires p in s.promises
  {
    && ResultOk(s.promises[p])
    && FallbackOk(s.promises[p])
    && WinnerOk(s, p)
    && LockOk(s, p)
    && RegistryOk(s, p)
    && LocationOk(s, p)
  }

  // ---- one activation ----

  predicate Stored(s: State, p: PromiseId) {
    p in s.promises && s.promises[p].first.Some?
  }

  predicate IsRegistered(s: State, p: PromiseId) {
    p in s.promises && s.promises[p].registration.Registered?
  }

  predicate AllStored(s: State, list: set<PromiseId>) {
    forall p {:trigger Stored(s, p)} :: p in list ==> Stored(s, p)
  }

  predicate AllRegistered(s: State, list: set<PromiseId>) {
    forall p {:trigger IsRegistered(s, p)} :: p in list ==> IsRegistered(s, p)
  }

  predicate PcOk(s: State, a: ActivationId, pc: Pc) {
    match pc
    case Completing(at, p, _) =>
      && IsRegistered(s, p) && !s.promises[p].operation
      && (at.CompleteWrite? ==> s.promises[p].resultLock == Some(a) && s.promises[p].first.None?)
    case Routing(_, p) => Stored(s, p)
    case Falling(at, p) =>
      && Stored(s, p)
      && (at.FallbackCall? ==> s.promises[p].caller == Some(a) && s.promises[p].entries == 0 && !s.promises[p].callFailed)
    case Abandoning(at, p) =>
      && IsRegistered(s, p)
      && (!at.AbandonSwap? ==> s.promises[p].fate.Abandoned? && s.promises[p].winner == a)
      && (at.AbandonResult? ==> !s.promises[p].operation)
    case Calling(_, p) => Stored(s, p)
    case Deciding(_, p) => Stored(s, p)
    case Settling(at, p) => Won(s, a, p) && SettlePointOk(at, s.promises[p])
    case Finishing(p) => Won(s, a, p) && Finished(s.promises[p])
    case Drained(list) => AllStored(s, list)
    case Registering(at, p) => p in s.promises && s.promises[p].creator == a && RegisterPointOk(s, at, p)
    case Cleaning(at) => CleanupPointOk(s, a, at)
    case Installing(checked) => checked ==> !s.d.closing && s.d.queue.None?
    case _ => true
  }

  predicate SettlePointOk(at: SettlePoint, pr: Promise) {
    match at
    case SettleTake => Untouched(pr) && pr.first.Some? && pr.result == pr.first
    case SettleDeferred(c) => Untouched(pr) && pr.result.None? && SettlesWith(pr, c)
    case SettleDestroy => pr.result.None? && pr.deferred + pr.missed == 1 && pr.contexts == 0 && pr.references == 0
    case SettleDelete => pr.result.None? && pr.deferred + pr.missed == 1 && pr.contexts == 1 && pr.references == 0
  }

  predicate RegisterPointOk(s: State, at: RegisterPoint, p: PromiseId)
    requires p in s.promises
  {
    match at
    case RegisterCheck => s.promises[p].registration.Unregistered?
    case RegisterInsert => s.promises[p].registration.Unregistered? && !s.d.closing
    case _ => s.promises[p].registration.Inserted? && s.d.registry == {p} && !s.d.closing && !s.d.tsfnReferenced
  }

  predicate CleanupPointOk(s: State, a: ActivationId, at: CleanupPoint) {
    match at
    case CleanupSwap => true
    case CleanupDrain => s.cleaner == Some(a)
    case CleanupDropQueue => s.cleaner == Some(a) && !s.d.Accepting()
    case CleanupTakeRegistry => s.cleaner == Some(a) && s.d.queue.None? && !s.drained
    case CleanupRelease => s.cleaner == Some(a) && s.drained
  }

  predicate Won(s: State, a: ActivationId, p: PromiseId) {
    p in s.promises && s.promises[p].fate.Settled? && s.promises[p].winner == a
  }

  /** Functions only the JS thread runs. */
  predicate JsOnly(pc: Pc) {
    pc.Calling? || pc.Deciding? || pc.Settling? || pc.Registering? || pc.Finishing? || pc.Unreferencing?
    || pc.DroppingQueue? || pc.Cleaning? || pc.Installing?
  }

  // Where an activation of a drain loop, and of a cleanup loop, can be.
  predicate DrainPc(pc: Pc) {
    pc.Draining? || pc.Drained? || pc.NextItem? || pc.DroppingQueue? || pc.Falling? || pc.Abandoning?
    || (pc.Calling? && pc.callback.ScopeOpen?) || pc.Deciding? || pc.Settling? || pc.Finishing? || pc.Unreferencing?
  }

  predicate CleanupPc(pc: Pc) {
    pc.NextItem? || pc.Abandoning? || (pc.Cleaning? && !pc.cleanup.CleanupSwap?)
  }

  /** Program counters at which the loop the activation is in matters. */
  predicate LoopPc(pc: Pc) {
    pc.Draining? || pc.Drained? || pc.DroppingQueue? || (pc.Cleaning? && !pc.cleanup.CleanupSwap?)
  }

  predicate ContinuationOk(s: State, a: ActivationId, act: Activation) {
    match act.k
    case Return => !LoopPc(act.pc)
    case DrainLoop(list, direct, unregister) =>
      && AllStored(s, list)
      && (direct || unregister ==> act.onJs)
      && DrainPc(act.pc)
      && (act.pc.Draining? || act.pc.Drained? || act.pc.DroppingQueue? ==> list == {})
    case CleanupPending(list) =>
      && AllStored(s, list)
      && act.onJs && s.cleaner == Some(a) && !s.drained && !s.released
      && CleanupPc(act.pc)
      && (act.pc == Cleaning(CleanupDrain) || !s.d.Accepting())
      && (act.pc == Cleaning(CleanupDrain) || act.pc == Cleaning(CleanupDropQueue) || act.pc == Cleaning(CleanupTakeRegistry)
          ==> list == {})
      && act.pc != Cleaning(CleanupRelease)
    case CleanupRegistry(list) =>
      && AllRegistered(s, list)
      && act.onJs && s.cleaner == Some(a) && s.drained && !s.released && s.d.queue.None?
      && CleanupPc(act.pc)
      && (act.pc.Cleaning? ==> list == {} && act.pc.cleanup.CleanupRelease?)
  }

  predicate ActOk(s: State, a: ActivationId)
    requires a in s.acts
  {
    && PcOk(s, a, s.acts[a].pc)
    && ContinuationOk(s, a, s.acts[a])
    && (JsOnly(s.acts[a].pc) ==> s.acts[a].onJs)
  }

  // ---- the whole state ----

  predicate Known(s: State) {
    && s.d.registry <= s.promises.Keys
    && (s.d.queue.Some? ==> s.d.queue.value.pending <= s.promises.Keys)
    && s.tsfn <= s.promises.Keys
    && (forall p :: p in s.queued ==> p in s.promises)
  }

  predicate PhaseOk(s: State) {
    && (s.d.closing <==> s.cleaner.Some?)
    && (s.drained ==> s.d.closing && s.d.registry == {})
    && (s.released ==> s.drained && s.d.queue.None?)
    && (!s.alive ==> s.released)
    && s.d.QueueDrained()
  }

  // At most one activation of the JS thread is between two re-entry points.
  predicate Exclusive(s: State) {
    forall a, b ::
      (a in s.acts && b in s.acts && s.acts[a].onJs && s.acts[b].onJs && !Parked(s.acts[a]) && !Parked(s.acts[b]))
      ==> a == b
  }

  // ---- references to the thread-safe function ----

  predicate Alternates(refs: seq<RefEvent>) {
    && (refs != [] ==> refs[0].Ref?)
    && (forall i :: 0 <= i < |refs| - 1 ==> (refs[i].Ref? <==> refs[i + 1].Unref?))
  }

  predicate EndsWithRef(refs: seq<RefEvent>) {
    refs != [] && refs[|refs| - 1].Ref?
  }

  predicate EndsWithFailedUnref(refs: seq<RefEvent>) {
    refs != [] && refs[|refs| - 1] == Unref(false)
  }

  /** What the calls have done to the native function, which is created unreferenced. */
  predicate NativelyReferenced(refs: seq<RefEvent>) {
    refs != [] && (refs[|refs| - 1].Ref? || (!refs[|refs| - 1].done && NativelyReferenced(refs[..|refs| - 1])))
  }

  /** Between a change of the registry and the matching ref or unref call. */
  predicate Critical(pc: Pc) {
    pc.Unreferencing? || (pc.Registering? && !pc.register.RegisterCheck? && !pc.register.RegisterInsert?)
  }

  ghost predicate MidReference(s: State) {
    exists a :: a in s.acts && Critical(s.acts[a].pc)
  }

  // What such an activation knows about the native reference.
  predicate CriticalOk(s: State, pc: Pc) {
    && (pc.Unreferencing? ==> s.d.registry == {} && !s.d.tsfnReferenced && EndsWithRef(s.refs))
    && (pc.Registering? && pc.register.RegisterStore? ==> EndsWithRef(s.refs))
    && (pc.Registering? && (pc.register.RegisterRef? || pc.register.RegisterUndo?) ==> !EndsWithRef(s.refs))
  }

  ghost predicate ReferenceOk(s: State) {
    && Alternates(s.refs)
    && (!s.d.closing ==>
          && (s.d.registry == {} ==> !s.d.tsfnReferenced)
          && (!MidReference(s) ==>
                (s.d.tsfnReferenced <==> s.d.registry != {}) && EndsWithRef(s.refs) == s.d.tsfnReferenced)
          && (forall a {:trigger CriticalOk(s, s.acts[a].pc)} :: a in s.acts ==> CriticalOk(s, s.acts[a].pc)))
  }

  ghost predicate PromisesOk(s: State) {
    forall p {:trigger PromiseOk(s, p)} :: p in s.promises ==> PromiseOk(s, p)
  }

  predicate ActsOk(s: State) {
    forall a {:trigger ActOk(s, a)} :: a in s.acts ==> ActOk(s, a)
  }

  ghost predicate Inv(s: State) {
    && Known(s)
    && PhaseOk(s)
    && Exclusive(s)
    && ReferenceOk(s)
    && PromisesOk(s)
    && ActsOk(s)
  }
}
