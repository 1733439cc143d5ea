/** What becomes of a one-shot operation, read off the labels of the run that follow its beginning. */
module ComOutcomes {
  import opened Wrappers
  import opened ComCompletion

  /** The operation is still being started and the label takes its reservation out of the table. */
  predicate Disturbs(s: State, l: Label, t: Token) {
    && t in s.operations && s.operations[t].armed
    && (l == CloseOwner(s.operations[t].key) || l == Dispatch(s.operations[t].key, t) || l == Finalized(s.operations[t].key, t))
  }

  /** While the operation is being started its environment is not closed, and nobody dispatches or finalizes its token. */
  predicate Undisturbed(s: State, labels: seq<Label>, t: Token)
    decreases |labels|
  {
    labels != [] && Enabled(s, labels[0]) ==> !Disturbs(s, labels[0], t) && Undisturbed(Apply(s, labels[0]), labels[1..], t)
  }

  /** What happened to the operation so far. */
  datatype Events = Events(started: bool, failed: bool, given: bool, disturbed: bool, closed: bool)

  predicate IsReserved(s: State, t: Token) {
    t in s.operations && s.operations[t].key in s.owners && t in s.owners[s.operations[t].key] && s.owners[s.operations[t].key][t].Starting?
  }

  predicate Tells(s: State, t: Token, key: EnvKey, e: Events) {
    && t in s.operations && s.operations[t].key == key
    && var op := s.operations[t];
    && (op.phase.Ended? <==> e.started || e.failed || e.given)
    && (if e.failed then !op.published && op.settles == 1 else op.published || op.settles == 0)
    && (e.failed || e.given ==> !op.published && !e.started)
    && (e.failed ==> !e.given)
    && (e.started && !e.disturbed ==> op.published)
    && (!op.phase.Ended? && !e.disturbed ==> IsReserved(s, t))
    && (op.abandoned ==> e.closed)
  }

  function After(s: State, l: Label, t: Token, key: EnvKey, e: Events): Events {
    Events(e.started || l == StartSucceeds(t), e.failed || l == StartFails(t), e.given || l == FailCreate(t),
           e.disturbed || Disturbs(s, l, t), e.closed || l == CloseOwner(key))
  }

  /** How the starting call ends: by publishing its record if the reservation is still there, or by rejecting the promise. */
  lemma StartTells(s: State, l: Label, t: Token, key: EnvKey, e: Events)
    requires Inv(s) && Enabled(s, l) && Tells(s, t, key, e)
    requires l == StartSucceeds(t) || l == StartFails(t) || l == FailCreate(t)
    ensures Tells(Apply(s, l), t, key, After(s, l, t, key, e))
  {
    assert OperationOk(s, t);
  }

  lemma ProgressTells(s: State, l: Label, t: Token, key: EnvKey, e: Events)
    requires Inv(s) && Enabled(s, l) && Tells(s, t, key, e)
    requires l == CreatePromise(t) || l == CreateTsfn(t) || l == SettleDispatched(t)
    ensures Tells(Apply(s, l), t, key, After(s, l, t, key, e))
  {
    assert OperationOk(s, t);
  }

  /** Labels of other operations leave its record and its operation alone. */
  predicate Aside(s: State, s': State, t: Token) {
    && t in s.operations && t in s'.operations && s'.operations[t] == s.operations[t]
    && (IsReserved(s, t) ==> IsReserved(s', t))
  }

  lemma OtherAside(s: State, l: Label, t: Token)
    requires Inv(s) && Enabled(s, l) && t in s.operations
    requires (l.StartSucceeds? || l.StartFails? || l.FailCreate? || l.CreatePromise? || l.CreateTsfn? || l.SettleDispatched?) && l.t != t
    ensures Aside(s, Apply(s, l), t)
  {
  }

  lemma OtherTells(s: State, l: Label, t: Token, key: EnvKey, e: Events)
    requires Inv(s) && Enabled(s, l) && Tells(s, t, key, e)
    requires (l.StartSucceeds? || l.StartFails? || l.FailCreate? || l.CreatePromise? || l.CreateTsfn? || l.SettleDispatched?) && l.t != t
    ensures Tells(Apply(s, l), t, key, After(s, l, t, key, e))
  {
    OtherAside(s, l, t);
  }

  lemma BeginTells(s: State, l: Label, t: Token, key: EnvKey, e: Events)
    requires Inv(s) && l.Begin? && Tells(s, t, key, e)
    ensures Tells(Apply(s, l), t, key, After(s, l, t, key, e))
  {
    assert OperationOk(s, t);
  }

  lemma TakeTells(s: State, l: Label, t: Token, key: EnvKey, e: Events)
    requires Inv(s) && (l.Dispatch? || l.Finalized?) && Tells(s, t, key, e)
    ensures Tells(Apply(s, l), t, key, After(s, l, t, key, e))
  {
    assert OperationOk(s, t);
    if l.key in s.owners && l.t in s.owners[l.key] { assert RecordOk(s, l.key, l.t); }
  }

  lemma CloseTells(s: State, l: Label, t: Token, key: EnvKey, e: Events)
    requires Inv(s) && l.CloseOwner? && Tells(s, t, key, e)
    ensures Tells(Apply(s, l), t, key, After(s, l, t, key, e))
  {
    assert OperationOk(s, t);
    if l.key in s.owners && t in s.owners[l.key] { assert RecordOk(s, l.key, t); }
  }

  lemma LabelTells(s: State, l: Label, t: Token, key: EnvKey, e: Events)
    requires Inv(s) && Enabled(s, l) && Tells(s, t, key, e)
    ensures Tells(Apply(s, l), t, key, After(s, l, t, key, e))
  {
    match l
    case Begin(_) => BeginTells(s, l, t, key, e);
    case Dispatch(_, _) => TakeTells(s, l, t, key, e);
    case Finalized(_, _) => TakeTells(s, l, t, key, e);
    case CloseOwner(_) => CloseTells(s, l, t, key, e);
    case _ =>
      if l.t != t { OtherTells(s, l, t, key, e); }
      else if l.StartSucceeds? || l.StartFails? || l.FailCreate? { StartTells(s, l, t, key, e); }
      else { ProgressTells(s, l, t, key, e); }
  }

  function Summary(s: State, labels: seq<Label>, t: Token, key: EnvKey, e: Events): Events {
    Events(e.started || StartSucceeds(t) in labels, e.failed || StartFails(t) in labels, e.given || FailCreate(t) in labels,
           e.disturbed || !Undisturbed(s, labels, t), e.closed || CloseOwner(key) in labels)
  }

  lemma SummaryStep(s: State, labels: seq<Label>, t: Token, key: EnvKey, e: Events)
    requires labels != [] && Enabled(s, labels[0])
    ensures Summary(Apply(s, labels[0]), labels[1..], t, key, After(s, labels[0], t, key, e)) == Summary(s, labels, t, key, e)
  {
    assert forall l :: l in labels <==> l == labels[0] || l in labels[1..];
  }

  lemma {:induction false} RunTells(s: State, labels: seq<Label>, t: Token, key: EnvKey, e: Events)
    requires Inv(s) && Run(s, labels).Some? && Tells(s, t, key, e)
    ensures Inv(Run(s, labels).value) && Tells(Run(s, labels).value, t, key, Summary(s, labels, t, key, e))
    decreases |labels|
  {
    if labels != [] {
      LabelPreserves(s, labels[0]);
      LabelTells(s, labels[0], t, key, e);
      SummaryStep(s, labels, t, key, e);
      RunTells(Apply(s, labels[0]), labels[1..], t, key, After(s, labels[0], t, key, e));
    }
  }

  lemma FreshToken(s: State)
    requires Inv(s)
    ensures s.next !in s.operations
  {
    forall t | t in s.operations ensures t < s.next { assert OperationOk(s, t); }
  }

  const NO_EVENTS := Events(false, false, false, false, false)

  lemma BegunTells(s: State, key: EnvKey)
    requires Inv(s) && s.next in Apply(s, Begin(key)).operations
    ensures Tells(Apply(s, Begin(key)), s.next, key, NO_EVENTS)
  {
    FreshToken(s);
  }

  /** Beginning an operation reserves a record for a fresh token, unless the environment has 256 already; then no operation begins. */
  lemma BeginExact(labels: seq<Label>, s: State, key: EnvKey)
    requires Reaches(labels, s)
    ensures var s' := Apply(s, Begin(key));
      && s'.next == s.next + 1 && s.next !in s.operations && key in s'.owners
      && (if key in s.owners && |s.owners[key]| == MAX_PENDING
          then s'.operations == s.operations && s'.owners == s.owners
          else s'.operations.Keys == s.operations.Keys + {s.next} && s'.operations[s.next].armed && IsReserved(s', s.next))
  {
    RunPreserves(INITIAL, labels);
    FreshToken(s);
  }

  /** The promise of the operation will never be settled, because its environment closed. */
  predicate Waits(s: State, t: Token) {
    t in s.operations && (IsPending(s, t) || s.operations[t].taken)
  }

  /** What the events say of the operation. */
  predicate FateIs(s: State, t: Token, e: Events) {
    && t in s.operations
    && var op := s.operations[t];
    && (e.failed ==> op.settles == 1 && !op.published && !Waits(s, t))
    && (e.given ==> op.settles == 0 && !op.published && !Waits(s, t))
    && (op.published ==> e.started)
    && (e.started && !e.disturbed ==> op.published)
    && (op.published ==> (op.settles == 1 <==> !Waits(s, t) && !op.abandoned))
    && (op.abandoned ==> e.closed && op.settles == 0)
    && (op.settles == 1 ==> e.failed || op.published)
  }

  lemma FateTold(s: State, t: Token, key: EnvKey, e: Events)
    requires Inv(s) && Tells(s, t, key, e)
    ensures FateIs(s, t, e)
  {
    assert OperationOk(s, t);
  }

  /**
   The fate of an operation is told by the labels that follow its beginning. If its start
   failed, its promise has been rejected exactly once. If it was given up before it started,
   its promise is never settled. If it started and nothing disturbed the reservation, it was
   published, so it is waiting to be settled, settled exactly once, or was abandoned because
   its environment closed.
   */
  lemma OperationFate(before: seq<Label>, s: State, key: EnvKey, after: seq<Label>, s': State)
    requires Reaches(before, s) && s.next in Apply(s, Begin(key)).operations && Run(Apply(s, Begin(key)), after) == Some(s')
    ensures s.next in s'.operations && s'.operations[s.next].key == key
    ensures FateIs(s', s.next,
                   Events(StartSucceeds(s.next) in after, StartFails(s.next) in after, FailCreate(s.next) in after,
                          !Undisturbed(Apply(s, Begin(key)), after, s.next), CloseOwner(key) in after))
  {
    RunPreserves(INITIAL, before);
    LabelPreserves(s, Begin(key));
    BegunTells(s, key);
    RunTells(Apply(s, Begin(key)), after, s.next, key, NO_EVENTS);
    FateTold(s', s.next, key, Summary(Apply(s, Begin(key)), after, s.next, key, NO_EVENTS));
  }
}
