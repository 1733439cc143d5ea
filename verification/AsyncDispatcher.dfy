/**
 The mutex-guarded fields of `EnvAsyncDispatcher`: one function for each critical
 section, and the class whose methods perform those sections in place. The transition
 system in module AsyncPromise takes its steps through the same functions.
 */
module AsyncDispatcher {
  import opened Wrappers

  type PromiseId = nat

  /** A captured DispatcherQueue together with the shadow map of routed completions. */
  datatype QueueRegistration = QueueRegistration(accepting: bool, pending: set<PromiseId>)

  datatype Dispatcher = Dispatcher(
    closing: bool,
    registry: set<PromiseId>,
    tsfnReferenced: bool,
    queue: Option<QueueRegistration>)
  {
    predicate Accepting() {
      queue.Some? && queue.value.accepting
    }

    predicate Shadows(p: PromiseId) {
      queue.Some? && p in queue.value.pending
    }

    /** A queue that stopped accepting holds nothing back. */
    predicate QueueDrained() {
      queue.Some? && !queue.value.accepting ==> queue.value.pending == {}
    }
  }

  const FRESH_DISPATCHER := Dispatcher(false, {}, false, None)

  function InsertPending(d: Dispatcher, p: PromiseId): (r: (Dispatcher, bool)) {
    if d.Accepting()
    then (d.(queue := Some(d.queue.value.(pending := d.queue.value.pending + {p}))), true)
    else (d, false)
  }

  function RemovePending(d: Dispatcher, p: PromiseId): (r: Dispatcher) {
    if d.queue.Some? then d.(queue := Some(d.queue.value.(pending := d.queue.value.pending - {p}))) else d
  }

  function DrainPending(d: Dispatcher): (r: (Dispatcher, set<PromiseId>)) {
    if d.queue.Some? then (d.(queue := Some(QueueRegistration(false, {}))), d.queue.value.pending) else (d, {})
  }

  function TakeQueue(d: Dispatcher): (r: Dispatcher) {
    d.(queue := None)
  }

  function InstallQueue(d: Dispatcher): (r: Dispatcher) {
    if d.queue.None? then d.(queue := Some(QueueRegistration(true, {}))) else d
  }

  function InsertRegistry(d: Dispatcher, p: PromiseId): (r: (Dispatcher, bool)) {
    (d.(registry := d.registry + {p}), d.registry == {})
  }

  function RemoveRegistry(d: Dispatcher, p: PromiseId): (r: Dispatcher) {
    d.(registry := d.registry - {p})
  }

  /** The locked part of `finish_promise`; the flag says whether to unref. */
  function Finish(d: Dispatcher, p: PromiseId): (r: (Dispatcher, bool)) {
    var rest := d.registry - {p};
    if p in d.registry && rest == {}
    then (d.(registry := rest, tsfnReferenced := false), d.tsfnReferenced)
    else (d.(registry := rest), false)
  }

  function DrainRegistry(d: Dispatcher): (r: (Dispatcher, set<PromiseId>)) {
    (d.(registry := {}), d.registry)
  }

  /** The dispatcher object itself: every method is one critical section. */
  class EnvAsyncDispatcher {
    var closing: bool
    var registry: set<PromiseId>
    var tsfnReferenced: bool
    var queue: Option<QueueRegistration>

    ghost function View(): (d: Dispatcher)
      reads this
    {
      Dispatcher(closing, registry, tsfnReferenced, queue)
    }

    constructor ()
      ensures View() == FRESH_DISPATCHER
    {
      closing := false;
      registry := {};
      tsfnReferenced := false;
      queue := None;
    }

    method RoutePending(p: PromiseId) returns (routed: bool)
      modifies this`queue
      ensures (View(), routed) == InsertPending(old(View()), p)
      ensures routed <==> old(View().Accepting())
      ensures routed ==> View().Shadows(p)
      ensures forall q :: q != p ==> (View().Shadows(q) <==> old(View().Shadows(q)))
      ensures old(View().QueueDrained()) ==> View().QueueDrained()
    {
      routed := false;
      if queue.Some? && queue.value.accepting {
        queue := Some(queue.value.(pending := queue.value.pending + {p}));
        routed := true;
      }
    }

    method RemoveQueuePending(p: PromiseId)
      modifies this`queue
      ensures View() == RemovePending(old(View()), p)
      ensures !View().Shadows(p) && (View().Accepting() <==> old(View().Accepting()))
      ensures forall q :: q != p ==> (View().Shadows(q) <==> old(View().Shadows(q)))
      ensures old(View().QueueDrained()) ==> View().QueueDrained()
    {
      if queue.Some? {
        queue := Some(queue.value.(pending := queue.value.pending - {p}));
      }
    }

    method DrainQueuePending() returns (states: set<PromiseId>)
      modifies this`queue
      ensures (View(), states) == DrainPending(old(View()))
      ensures !View().Accepting() && View().QueueDrained()
      ensures forall p :: p in states <==> old(View().Shadows(p))
    {
      states := {};
      if queue.Some? {
        states := queue.value.pending;
        queue := Some(queue.value.(accepting := false, pending := {}));
      }
    }

    /** Returns whether the caller has to reference the thread-safe function. */
    method Register(p: PromiseId) returns (shouldRef: bool)
      modifies this`registry
      ensures (View(), shouldRef) == InsertRegistry(old(View()), p)
    {
      shouldRef := registry == {};
      registry := registry + {p};
    }

    /** Returns whether the caller has to unreference the thread-safe function. */
    method FinishPromise(p: PromiseId) returns (shouldUnref: bool)
      modifies this`registry, this`tsfnReferenced
      ensures (View(), shouldUnref) == Finish(old(View()), p)
      ensures shouldUnref ==> old(tsfnReferenced) && !tsfnReferenced && registry == {}
    {
      var removed := p in registry;
      registry := registry - {p};
      shouldUnref := false;
      if removed && registry == {} {
        shouldUnref := tsfnReferenced;
        tsfnReferenced := false;
      }
    }

    /** First half of `cleanup_env`: only the first caller goes on. */
    method BeginCleanup() returns (first: bool)
      modifies this`closing
      ensures first == !old(closing) && View() == old(View()).(closing := true)
    {
      first := !closing;
      closing := true;
    }

    method DrainPromises() returns (states: set<PromiseId>)
      modifies this`registry
      ensures (View(), states) == DrainRegistry(old(View()))
    {
      states := registry;
      registry := {};
    }
  }
}
