/** What becomes of a payload, read off the labels of the run: it is refused and dropped by its caller, or accepted and dropped by its delivery. */
module TsfnPayloads {
  import opened Wrappers
  import opened ManagedTsfn
  import opened TsfnInvariant
  import opened TsfnSteps
  import opened TsfnTheorems

  /** The native function takes the payload into its queue. */
  predicate Accepts(s: State, l: Label, p: PayloadId) {
    l.Step? && l.answer.Success? && l.a in s.acts && s.acts[l.a].Calling? && s.acts[l.a].call.CallNative? && s.acts[l.a].p == p
  }

  /** The lifecycle is closed, the pointer is gone, or the native function does not take the payload. */
  predicate Refuses(s: State, l: Label, p: PayloadId) {
    && l.Step? && l.a in s.acts && s.acts[l.a].Calling? && s.acts[l.a].p == p
    && (|| (s.acts[l.a].call.CallLock? && !s.open)
        || (s.acts[l.a].call.CallLoad? && s.acts[l.a].h in s.handles && !s.handles[s.acts[l.a].h].raw)
        || (s.acts[l.a].call.CallNative? && !l.answer.Success?))
  }

  /** Some step of the run accepts the payload. */
  predicate AcceptedIn(s: State, labels: seq<Label>, p: PayloadId)
    decreases |labels|
  {
    labels != [] && Enabled(s, labels[0]) && (Accepts(s, labels[0], p) || AcceptedIn(Apply(s, labels[0]), labels[1..], p))
  }

  predicate RefusedIn(s: State, labels: seq<Label>, p: PayloadId)
    decreases |labels|
  {
    labels != [] && Enabled(s, labels[0]) && (Refuses(s, labels[0], p) || RefusedIn(Apply(s, labels[0]), labels[1..], p))
  }

  /** The call has begun, and neither side has decided about the payload. */
  predicate CallerAtWork(s: State, p: PayloadId)
    requires p in s.payloads
  {
    var a := s.payloads[p].caller;
    && a in s.acts && s.acts[a].Calling? && s.acts[a].p == p
    && (s.acts[a].call.CallLock? || s.acts[a].call.CallLoad? || s.acts[a].call.CallNative?)
  }

  /** What happened to the payload so far. */
  datatype Events = Events(accepted: bool, refused: bool, delivered: bool)

  predicate Tells(s: State, p: PayloadId, e: Events) {
    if p !in s.payloads then e == Events(false, false, false)
    else
      match s.payloads[p].state
      case Local => e == Events(false, false, false) && CallerAtWork(s, p)
      case Queued => e == Events(true, false, false)
      case Gone => e == Events(true, false, true) || e == Events(false, true, false)
  }

  function After(s: State, l: Label, p: PayloadId, e: Events): Events {
    Events(e.accepted || Accepts(s, l, p), e.refused || Refuses(s, l, p), e.delivered || l == Deliver(p))
  }

  lemma CallTells(s: State, a: ActivationId, at: CallPoint, h: HandleId, q: PayloadId, answer: Answer, p: PayloadId, e: Events)
    requires AtCall(s, a, at, h, q) && h in s.handles && q in s.payloads && Tells(s, p, e)
    ensures Tells(ExecuteCall(s, a, at, h, q, answer), p, After(s, Step(a, answer), p, e))
  {
    assert ActOk(s, a);
  }

  /** Only callers touch payloads. */
  lemma DropPayloads(s: State, a: ActivationId, at: DropPoint, h: HandleId)
    requires h in s.handles
    ensures ExecuteDrop(s, a, at, h).payloads == s.payloads
  {
  }

  lemma CreatePayloads(s: State, a: ActivationId, at: CreatePoint, h: HandleId, weak: bool, answer: Answer)
    requires h in s.handles
    ensures ExecuteCreate(s, a, at, h, weak, answer).payloads == s.payloads
  {
  }

  lemma ClosePayloads(s: State, a: ActivationId, at: ClosePoint, list: set<HandleId>, answer: Answer)
    requires (at.CloseSwap? || at.CloseAbort? ==> at.h in s.handles) && (at.CloseNext? && list != {} ==> answer.Pick?)
    ensures ExecuteClose(s, a, at, list, answer).payloads == s.payloads
  {
  }

  lemma OtherTells(s: State, a: ActivationId, answer: Answer, p: PayloadId, e: Events)
    requires Ready(s, a) && GoodAnswer(s, s.acts[a], answer) && !s.acts[a].Calling? && Tells(s, p, e)
    ensures Tells(Execute(s, a, answer), p, After(s, Step(a, answer), p, e))
  {
    StepContinues(s, a, answer);
    match s.acts[a]
    case Dropping(at, h) => DropPayloads(s, a, at, h);
    case Creating(at, h, weak) => CreatePayloads(s, a, at, h, weak, answer);
    case Closing(at, list) => ClosePayloads(s, a, at, list, answer);
  }

  lemma LabelTells(s: State, l: Label, p: PayloadId, e: Events)
    requires Inv(s) && Enabled(s, l) && Tells(s, p, e)
    ensures Tells(Apply(s, l), p, After(s, l, p, e))
  {
    if l.Step? {
      match s.acts[l.a]
      case Calling(at, h, q) => CallTells(s, l.a, at, h, q, l.answer, p, e);
      case _ => OtherTells(s, l.a, l.answer, p, e);
    }
  }

  lemma {:induction false} RunTells(s: State, labels: seq<Label>, p: PayloadId, e: Events)
    requires Inv(s) && Run(s, labels).Some? && Tells(s, p, e)
    ensures Tells(Run(s, labels).value, p,
                  Events(e.accepted || AcceptedIn(s, labels, p), e.refused || RefusedIn(s, labels, p), e.delivered || Deliver(p) in labels))
    decreases |labels|
  {
    if labels != [] {
      LabelPreserves(s, labels[0]);
      LabelTells(s, labels[0], p, e);
      RunTells(Apply(s, labels[0]), labels[1..], p, After(s, labels[0], p, e));
      assert Deliver(p) in labels <==> labels[0] == Deliver(p) || Deliver(p) in labels[1..];
    }
  }

  /**
   A payload whose call was answered ok stays alive in the native queue, ready to be
   delivered, until the run delivers it, and its delivery drops it. One that was refused has
   been dropped by its caller and is never delivered. One that is neither has its caller at
   work, so a caller that has returned has handed its payload on or dropped it.
   */
  lemma PayloadFate(labels: seq<Label>, s: State, p: PayloadId)
    requires Reaches(labels, s) && p in s.payloads
    ensures var accepted, refused := AcceptedIn(INITIAL, labels, p), RefusedIn(INITIAL, labels, p);
      && !(accepted && refused)
      && (Deliver(p) in labels ==> accepted)
      && (s.payloads[p].state.Queued? <==> accepted && Deliver(p) !in labels)
      && (accepted && Deliver(p) !in labels ==> s.payloads[p].drops == 0 && Enabled(s, Deliver(p)))
      && (s.payloads[p].drops == 1 <==> refused || Deliver(p) in labels)
      && (!accepted && !refused ==> s.payloads[p].drops == 0 && CallerAtWork(s, p))
  {
    RunTells(INITIAL, labels, p, Events(false, false, false));
    PayloadDroppedOnce(labels, s, p);
  }
}
