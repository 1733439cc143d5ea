/**
 One-shot completions: per environment a table of tokens, a reservation while native code
 is being started, and at most one settlement of each deferred. Everything runs on the
 owner's thread, but starting and collecting re-enter it, so any operation can come in
 between; environment keys are reused, tokens are not.
 */
module ComCompletion {
  import opened Wrappers

  type EnvKey = nat
  type Token = nat

  const MAX_PENDING := 256

  /** `deferred` names the operation whose promise the record settles. */
  datatype Record = Starting | Pending(deferred: Token)

  type Owners = map<EnvKey, map<Token, Record>>

  // ---- the table ----

  function Put(records: map<Token, Record>, token: Token, record: Record): map<Token, Record> {
    records[token := record]
  }

  function EnsureEnvironment(owners: Owners, key: EnvKey): Owners {
    if key in owners then owners else owners[key := map[]]
  }

  datatype ReserveError = EnvironmentClosing | LimitReached

  function Reserve(owners: Owners, key: EnvKey, token: Token): (r: Result<Owners, ReserveError>) {
    if key !in owners then Err(EnvironmentClosing)
    else if |owners[key]| >= MAX_PENDING then Err(LimitReached)
    else Ok(owners[key := Put(owners[key], token, Starting)])
  }

  /** Turns a reservation into a pending completion, unless the reservation is gone. */
  function Publish(owners: Owners, key: EnvKey, token: Token, deferred: Token): (r: (Owners, bool)) {
    if key in owners && token in owners[key] && owners[key][token].Starting?
    then (owners[key := Put(owners[key], token, Pending(deferred))], true)
    else (owners, false)
  }

  function Remove(owners: Owners, key: EnvKey, token: Token): Owners {
    if key in owners then owners[key := owners[key] - {token}] else owners
  }

  /** Takes a record out of the table; a reservation is lost without a word. */
  function TakePending(owners: Owners, key: EnvKey, token: Token): (r: (Owners, Option<Token>)) {
    if key in owners && token in owners[key]
    then (Remove(owners, key, token), if owners[key][token].Pending? then Some(owners[key][token].deferred) else None)
    else (owners, None)
  }

  function CloseEnvironment(owners: Owners, key: EnvKey): Owners {
    owners - {key}
  }

  // ---- the table in place ----

  class OwnerTable {
    var owners: Owners

    constructor ()
      ensures owners == map[]
    {
      owners := map[];
    }

    method EnsureOwnerEnvironment(key: EnvKey)
      modifies this
      ensures owners == EnsureEnvironment(old(owners), key)
      ensures key in owners && forall k :: k in old(owners) ==> k in owners && owners[k] == old(owners)[k]
    {
      if key in owners { return; }
      owners := owners[key := map[]];
    }

    method TakePendingRecord(key: EnvKey, token: Token) returns (deferred: Option<Token>)
      modifies this
      ensures (owners, deferred) == TakePending(old(owners), key, token)
      ensures key in owners ==> token !in owners[key]
    {
      deferred := None;
      if key in owners && token in owners[key] {
        var record := owners[key][token];
        owners := owners[key := owners[key] - {token}];
        if record.Pending? {
          deferred := Some(record.deferred);
        }
      }
    }

    /** The signals of all pending completions of the environment, which are closed before anything is released. */
    method CloseOwnerEnvironment(key: EnvKey) returns (signals: set<Token>)
      modifies this
      ensures owners == CloseEnvironment(old(owners), key) && key !in owners
      ensures forall d :: d in signals <==> key in old(owners) && exists t :: t in old(owners)[key] && old(owners)[key][t] == Pending(d)
    {
      signals := {};
      if key in owners {
        var records := owners[key];
        owners := owners - {key};
        var tokens := records.Keys;
        while tokens != {}
          invariant tokens <= records.Keys
          invariant forall d :: d in signals <==> exists t :: t in records && t !in tokens && records[t] == Pending(d)
          decreases tokens
        {
          var t :| t in tokens;
          ghost var seen := signals;
          if records[t].Pending? {
            signals := signals + {records[t].deferred};
          }
          tokens := tokens - {t};
          forall d ensures d in signals <==> exists x :: x in records && x !in tokens && records[x] == Pending(d) {
            if d in signals {
              if d in seen {
                var x :| x in records && x !in tokens + {t} && records[x] == Pending(d);
                assert x in records && x !in tokens && records[x] == Pending(d);
              } else {
                assert t in records && t !in tokens && records[t] == Pending(d);
              }
            }
          }
        }
      }
    }
  }

  /** The reservation: while armed, dropping it removes its record. */
  class StartReservation {
    const table: OwnerTable
    const key: EnvKey
    const token: Token
    var armed: bool

    constructor (table: OwnerTable, key: EnvKey, token: Token)
      ensures this.table == table && this.key == key && this.token == token && armed
    {
      this.table, this.key, this.token, armed := table, key, token, true;
    }

    static method ReserveStart(table: OwnerTable, key: EnvKey, token: Token) returns (r: Result<StartReservation, ReserveError>)
      modifies table
      ensures var reserved := Reserve(old(table.owners), key, token);
        if reserved.Err? then r == Err(reserved.error) && table.owners == old(table.owners)
        else r.Ok? && fresh(r.value) && r.value.armed && r.value.key == key && r.value.token == token && r.value.table == table
             && table.owners == reserved.value
    {
      if key !in table.owners { return Err(EnvironmentClosing); }
      if |table.owners[key]| >= MAX_PENDING { return Err(LimitReached); }
      table.owners := table.owners[key := Put(table.owners[key], token, Starting)];
      var reservation := new StartReservation(table, key, token);
      r := Ok(reservation);
    }

    /** Disarmed exactly when the record was published. */
    method PublishRecord(deferred: Token) returns (published: bool)
      requires armed
      modifies this, table
      ensures (table.owners, published) == Publish(old(table.owners), key, token, deferred)
      ensures armed == !published
    {
      published := key in table.owners && token in table.owners[key] && table.owners[key][token].Starting?;
      if published {
        table.owners := table.owners[key := Put(table.owners[key], token, Pending(deferred))];
        armed := false;
      }
    }

    method Drop()
      modifies table
      ensures table.owners == if armed then Remove(old(table.owners), key, token) else old(table.owners)
    {
      if armed && key in table.owners {
        table.owners := table.owners[key := table.owners[key] - {token}];
      }
    }
  }

  // ---- operations ----

  /** How far the starting call is; `Ended` once its reservation is dropped or disarmed. */
  datatype Phase = Reserved | Promised | Dispatchable | Ended

  /** One operation; `settles` counts calls that resolve or reject its deferred. */
  datatype Operation = Operation(
    key: EnvKey,
    phase: Phase,
    armed: bool,
    published: bool,
    taken: bool,      // taken by a dispatch that has not settled it yet
    abandoned: bool,  // its environment closed while it was pending
    settles: nat)

  datatype State = State(owners: Owners, next: Token, operations: map<Token, Operation>)

  const INITIAL := State(map[], 0, map[])

  datatype Label =
    | Begin(key: EnvKey)
    | CreatePromise(t: Token)
    | CreateTsfn(t: Token)
    | FailCreate(t: Token)
    | StartSucceeds(t: Token)
    | StartFails(t: Token)
    | Dispatch(key: EnvKey, t: Token)
    | SettleDispatched(t: Token)
    | Finalized(key: EnvKey, t: Token)
    | CloseOwner(key: EnvKey)

  predicate Enabled(s: State, l: Label) {
    match l
    case CreatePromise(t) => t in s.operations && s.operations[t].phase.Reserved?
    case CreateTsfn(t) => t in s.operations && s.operations[t].phase.Promised?
    case FailCreate(t) => t in s.operations && (s.operations[t].phase.Reserved? || s.operations[t].phase.Promised?)
    case StartSucceeds(t) => t in s.operations && s.operations[t].phase.Dispatchable?
    case StartFails(t) => t in s.operations && s.operations[t].phase.Dispatchable?
    case SettleDispatched(t) => t in s.operations && s.operations[t].taken
    // Any token may be dispatched or finalized, at any time, in any environment.
    case _ => true
  }

  function SetOperation(s: State, t: Token, op: Operation): State {
    s.(operations := s.operations[t := op])
  }

  /** Dropping the reservation of `t`. */
  function DropReservation(s: State, t: Token): State
    requires t in s.operations
  {
    var op := s.operations[t];
    var owners := if op.armed then Remove(s.owners, op.key, t) else s.owners;
    SetOperation(s.(owners := owners), t, op.(phase := Ended, armed := false))
  }

  function Abandon(op: Operation, t: Token, records: map<Token, Record>): Operation {
    if t in records && records[t].Pending? then op.(abandoned := true) else op
  }

  function Apply(s: State, l: Label): State
    requires Enabled(s, l)
  {
    match l
    case Begin(key) =>
      var ensured := EnsureEnvironment(s.owners, key);
      var reserved := Reserve(ensured, key, s.next);
      if reserved.Err? then s.(owners := ensured, next := s.next + 1)
      else State(reserved.value, s.next + 1, s.operations[s.next := Operation(key, Reserved, true, false, false, false, 0)])
    case CreatePromise(t) => SetOperation(s, t, s.operations[t].(phase := Promised))
    case CreateTsfn(t) => SetOperation(s, t, s.operations[t].(phase := Dispatchable))
    case FailCreate(t) => DropReservation(s, t)
    case StartSucceeds(t) =>
      var op := s.operations[t];
      var (owners, published) := Publish(s.owners, op.key, t, t);
      if published
      then SetOperation(s.(owners := owners), t, op.(phase := Ended, armed := false, published := true))
      else DropReservation(s, t)
    case StartFails(t) => DropReservation(SetOperation(s, t, s.operations[t].(settles := s.operations[t].settles + 1)), t)
    case Dispatch(key, t) =>
      var (owners, deferred) := TakePending(s.owners, key, t);
      var taken := s.(owners := owners);
      if deferred.Some? && deferred.value in s.operations
      then SetOperation(taken, deferred.value, s.operations[deferred.value].(taken := true))
      else taken
    case SettleDispatched(t) => SetOperation(s, t, s.operations[t].(taken := false, settles := s.operations[t].settles + 1))
    case Finalized(key, t) =>
      var (owners, deferred) := TakePending(s.owners, key, t);
      var taken := s.(owners := owners);
      if deferred.Some? && deferred.value in s.operations
      then SetOperation(taken, deferred.value, s.operations[deferred.value].(settles := s.operations[deferred.value].settles + 1))
      else taken
    case CloseOwner(key) =>
      var records := if key in s.owners then s.owners[key] else map[];
      State(CloseEnvironment(s.owners, key), s.next, map t | t in s.operations :: Abandon(s.operations[t], t, records))
  }

  function Run(s: State, labels: seq<Label>): (r: Option<State>)
    decreases |labels|
  {
    if labels == [] then Some(s)
    else if Enabled(s, labels[0]) then Run(Apply(s, labels[0]), labels[1..])
    else None
  }

  // ---- the invariant ----

  /** A record belongs to the operation of its token, in that operation's environment. */
  predicate RecordOk(s: State, key: EnvKey, t: Token)
    requires key in s.owners && t in s.owners[key]
  {
    && t in s.operations && s.operations[t].key == key
    && match s.owners[key][t]
       case Starting => s.operations[t].armed
       case Pending(d) => d == t && s.operations[t].published && !s.operations[t].taken && !s.operations[t].abandoned && s.operations[t].settles == 0
  }

  predicate IsPending(s: State, t: Token) {
    t in s.operations && s.operations[t].key in s.owners && t in s.owners[s.operations[t].key] && s.owners[s.operations[t].key][t].Pending?
  }

  /** A published operation is in exactly one of four places. */
  predicate OperationOk(s: State, t: Token)
    requires t in s.operations
  {
    var op := s.operations[t];
    && t < s.next
    && (op.armed <==> !op.phase.Ended?)
    && (op.published ==> op.phase.Ended?)
    && (if op.published
        then (if IsPending(s, t) then 1 else 0) + (if op.taken then 1 else 0) + (if op.abandoned then 1 else 0) + op.settles == 1
        else !op.taken && !op.abandoned && !IsPending(s, t) && op.settles <= (if op.phase.Ended? then 1 else 0))
  }

  predicate Inv(s: State) {
    && (forall key {:trigger s.owners[key]} :: key in s.owners ==> |s.owners[key]| <= MAX_PENDING)
    && (forall key, t {:trigger RecordOk(s, key, t)} :: key in s.owners && t in s.owners[key] ==> RecordOk(s, key, t))
    && (forall t {:trigger OperationOk(s, t)} :: t in s.operations ==> OperationOk(s, t))
  }

  // ---- every label keeps it ----

  /** The tables may lose records other than those of `t`, and operations other than `t` stay as they are. */
  predicate OnlyLoses(s: State, s': State, t: Token) {
    && s'.next >= s.next
    && (forall key {:trigger s'.owners[key]} :: key in s'.owners ==> key in s.owners && s'.owners[key].Keys <= s.owners[key].Keys)
    && (forall key, x {:trigger s'.owners[key][x]} :: key in s'.owners && x in s'.owners[key] && x != t ==> s'.owners[key][x] == s.owners[key][x])
    && (forall key, x {:trigger s.owners[key][x]} :: key in s.owners && x in s.owners[key] && x != t ==> key in s'.owners && x in s'.owners[key])
    && s'.operations.Keys == s.operations.Keys
    && (forall x {:trigger s'.operations[x]} :: x in s.operations && x != t ==> s'.operations[x] == s.operations[x])
  }

  lemma OnlyLosesKeeps(s: State, s': State, t: Token)
    requires Inv(s) && OnlyLoses(s, s', t)
    requires forall key {:trigger s'.owners[key]} :: key in s'.owners && t in s'.owners[key] ==> RecordOk(s', key, t)
    requires t in s'.operations ==> OperationOk(s', t)
    ensures Inv(s')
  {
    forall key | key in s'.owners ensures |s'.owners[key]| <= MAX_PENDING {
      SubsetSize(s'.owners[key].Keys, s.owners[key].Keys);
    }
    forall key, x | key in s'.owners && x in s'.owners[key] ensures RecordOk(s', key, x) {
      if x != t {
        assert s'.owners[key][x] == s.owners[key][x];
        assert RecordOk(s, key, x);
      }
    }
    forall x | x in s'.operations ensures OperationOk(s', x) {
      if x != t {
        assert s'.operations[x] == s.operations[x];
        assert OperationOk(s, x);
        var key := s.operations[x].key;
        if IsPending(s, x) { assert s.owners[key][x].Pending?; }
        if IsPending(s', x) { assert s'.owners[key][x].Pending?; }
      }
    }
  }

  lemma SubsetSize(a: set<Token>, b: set<Token>)
    requires a <= b
    ensures |a| <= |b|
  {
    assert b == a + (b - a);
  }

  lemma DropPreserves(s: State, t: Token)
    requires Inv(s) && t in s.operations && !IsPending(s, t) && !s.operations[t].published && s.operations[t].settles <= 1
    ensures Inv(DropReservation(s, t)) && OnlyLoses(s, DropReservation(s, t), t)
  {
    assert OperationOk(s, t);
    var s' := DropReservation(s, t);
    forall key | key in s'.owners ensures t !in s'.owners[key] {
      if t in s.owners[key] { assert RecordOk(s, key, t); }
    }
    OnlyLosesKeeps(s, s', t);
  }

  lemma BeginPreserves(s: State, key: EnvKey)
    requires Inv(s)
    ensures Inv(Apply(s, Begin(key)))
  {
    var s' := Apply(s, Begin(key));
    forall k | k in s'.owners ensures |s'.owners[k]| <= MAX_PENDING {
      if k in s.owners { assert |s.owners[k]| <= MAX_PENDING; }
    }
    forall k, x | k in s'.owners && x in s'.owners[k] ensures RecordOk(s', k, x) {
      if k in s.owners && x in s.owners[k] {
        assert RecordOk(s, k, x) && OperationOk(s, x);
      }
    }
    forall x | x in s'.operations ensures OperationOk(s', x) {
      if x in s.operations {
        assert OperationOk(s, x);
        if IsPending(s, x) { assert s.owners[s.operations[x].key][x].Pending?; }
      }
    }
  }

  lemma PhasePreserves(s: State, l: Label)
    requires Inv(s) && Enabled(s, l) && (l.CreatePromise? || l.CreateTsfn? || l.SettleDispatched?)
    ensures Inv(Apply(s, l))
  {
    var s' := Apply(s, l);
    assert OperationOk(s, l.t);
    forall key | key in s'.owners && l.t in s'.owners[key] ensures RecordOk(s', key, l.t) { assert RecordOk(s, key, l.t); }
    OnlyLosesKeeps(s, s', l.t);
  }

  lemma FailPreserves(s: State, l: Label)
    requires Inv(s) && Enabled(s, l) && (l.FailCreate? || l.StartFails?)
    ensures Inv(Apply(s, l))
  {
    var t := l.t;
    assert OperationOk(s, t);
    DropPreserves(s, t);
    if l.StartFails? {
      var s' := Apply(s, l);
      assert s'.owners == DropReservation(s, t).owners;
      forall key | key in s'.owners ensures t !in s'.owners[key] {
        if t in s.owners[key] { assert RecordOk(s, key, t); }
      }
      OnlyLosesKeeps(s, s', t);
    }
  }

  lemma PublishPreserves(s: State, t: Token)
    requires Inv(s) && Enabled(s, StartSucceeds(t))
    ensures Inv(Apply(s, StartSucceeds(t)))
  {
    assert OperationOk(s, t);
    var op := s.operations[t];
    if Publish(s.owners, op.key, t, t).1 {
      var s' := Apply(s, StartSucceeds(t));
      assert s'.owners[op.key].Keys == s.owners[op.key].Keys;
      forall key | key in s'.owners && t in s'.owners[key] ensures RecordOk(s', key, t) { assert RecordOk(s, key, t); }
      OnlyLosesKeeps(s, s', t);
    } else {
      DropPreserves(s, t);
    }
  }

  lemma TakeLoses(s: State, l: Label)
    requires Inv(s) && (l.Dispatch? || l.Finalized?)
    ensures OnlyLoses(s, Apply(s, l), l.t)
  {
    if l.key in s.owners && l.t in s.owners[l.key] { assert RecordOk(s, l.key, l.t); }
  }

  lemma TakenNowhere(s: State, l: Label, key: EnvKey)
    requires Inv(s) && (l.Dispatch? || l.Finalized?) && key in Apply(s, l).owners
    ensures l.t in Apply(s, l).owners[key] ==> !(l.key in s.owners && l.t in s.owners[l.key]) && RecordOk(Apply(s, l), key, l.t)
  {
    if l.t in s.owners[key] { assert RecordOk(s, key, l.t); }
    if l.key in s.owners && l.t in s.owners[l.key] { assert RecordOk(s, l.key, l.t); }
  }

  lemma TakePreserves(s: State, l: Label)
    requires Inv(s) && Enabled(s, l) && (l.Dispatch? || l.Finalized?)
    ensures Inv(Apply(s, l)) && OnlyLoses(s, Apply(s, l), l.t)
  {
    var s' := Apply(s, l);
    TakeLoses(s, l);
    forall key | key in s'.owners && l.t in s'.owners[key] ensures RecordOk(s', key, l.t) { TakenNowhere(s, l, key); }
    if l.t in s.operations { assert OperationOk(s, l.t); }
    if l.key in s.owners && l.t in s.owners[l.key] { assert RecordOk(s, l.key, l.t); }
    OnlyLosesKeeps(s, s', l.t);
  }

  lemma ClosePreserves(s: State, key: EnvKey)
    requires Inv(s)
    ensures Inv(Apply(s, CloseOwner(key)))
  {
    var s' := Apply(s, CloseOwner(key));
    forall k, x | k in s'.owners && x in s'.owners[k] ensures RecordOk(s', k, x) {
      assert RecordOk(s, k, x);
      assert key in s.owners && x in s.owners[key] ==> RecordOk(s, key, x);
    }
    forall x | x in s'.operations ensures OperationOk(s', x) {
      assert OperationOk(s, x);
      if key in s.owners && x in s.owners[key] { assert RecordOk(s, key, x); }
    }
  }

  lemma LabelPreserves(s: State, l: Label)
    requires Inv(s) && Enabled(s, l)
    ensures Inv(Apply(s, l))
  {
    match l
    case Begin(key) => BeginPreserves(s, key);
    case StartSucceeds(t) => PublishPreserves(s, t);
    case FailCreate(_) => FailPreserves(s, l);
    case StartFails(_) => FailPreserves(s, l);
    case Dispatch(_, _) => TakePreserves(s, l);
    case Finalized(_, _) => TakePreserves(s, l);
    case CloseOwner(key) => ClosePreserves(s, key);
    case CreatePromise(_) => PhasePreserves(s, l);
    case CreateTsfn(_) => PhasePreserves(s, l);
    case SettleDispatched(_) => PhasePreserves(s, l);
  }

  lemma {:induction false} RunPreserves(s: State, labels: seq<Label>)
    requires Inv(s) && Run(s, labels).Some?
    ensures Inv(Run(s, labels).value)
    decreases |labels|
  {
    if labels != [] {
      LabelPreserves(s, labels[0]);
      RunPreserves(Apply(s, labels[0]), labels[1..]);
    }
  }

  // ---- main results ----

  predicate Reaches(labels: seq<Label>, s: State) {
    Run(INITIAL, labels) == Some(s)
  }

  /** No environment ever holds more than 256 records. */
  lemma Bounded(labels: seq<Label>, s: State, key: EnvKey)
    requires Reaches(labels, s) && key in s.owners
    ensures |s.owners[key]| <= MAX_PENDING
  {
    RunPreserves(INITIAL, labels);
  }

  /**
   Whatever mixture of start failures, dispatches, finalizations and environment closes:
   a deferred is settled at most once, and a published one is at every moment either
   pending in its environment, in the hands of one dispatch, settled, or abandoned by a close.
   */
  lemma SettledAtMostOnce(labels: seq<Label>, s: State, t: Token)
    requires Reaches(labels, s) && t in s.operations
    ensures s.operations[t].settles <= 1
    ensures s.operations[t].published && s.operations[t].settles == 0 ==>
              IsPending(s, t) || s.operations[t].taken || s.operations[t].abandoned
    ensures s.operations[t].settles == 1 ==> !IsPending(s, t) && !s.operations[t].taken && !s.operations[t].abandoned
  {
    RunPreserves(INITIAL, labels);
    assert OperationOk(s, t);
  }

  /** Dropping an armed reservation removes at most its own `Starting` record: no published record is lost. */
  lemma ArmedDropHarmless(labels: seq<Label>, s: State, t: Token)
    requires Reaches(labels, s) && t in s.operations && s.operations[t].armed
    ensures var s' := DropReservation(s, t);
      && OnlyLoses(s, s', t)
      && (forall key, x :: key in s.owners && x in s.owners[key] && s.owners[key][x].Pending? ==>
            key in s'.owners && x in s'.owners[key] && s'.owners[key][x] == s.owners[key][x])
  {
    RunPreserves(INITIAL, labels);
    assert OperationOk(s, t);
    DropPreserves(s, t);
    forall key, x | key in s.owners && x in s.owners[key] && s.owners[key][x].Pending?
      ensures var s' := DropReservation(s, t); key in s'.owners && x in s'.owners[key] && s'.owners[key][x] == s.owners[key][x]
    {
      assert RecordOk(s, key, x);
    }
  }

  /**
   A dispatch or finalization of a token touches no other token's record and no other
   operation; and if the token's operation is not pending in that very environment, not
   even its own operation, however often the environment key was reused.
   */
  lemma StaleTokenHarmless(labels: seq<Label>, s: State, l: Label)
    requires Reaches(labels, s) && (l.Dispatch? || l.Finalized?)
    ensures OnlyLoses(s, Apply(s, l), l.t)
    ensures !(IsPending(s, l.t) && s.operations[l.t].key == l.key) ==> Apply(s, l).operations == s.operations
  {
    RunPreserves(INITIAL, labels);
    TakePreserves(s, l);
    if l.key in s.owners && l.t in s.owners[l.key] { assert RecordOk(s, l.key, l.t); }
  }

  /** Tokens are never handed out twice. */
  lemma {:induction false} TokensStayFresh(s: State, more: seq<Label>, t: Token)
    requires Inv(s) && Run(s, more).Some? && t in s.operations
    ensures var s' := Run(s, more).value; s'.next >= s.next > t && t in s'.operations && s'.operations[t].key == s.operations[t].key
    decreases |more|
  {
    assert OperationOk(s, t);
    if more != [] {
      LabelPreserves(s, more[0]);
      TokensStayFresh(Apply(s, more[0]), more[1..], t);
    }
  }
}
