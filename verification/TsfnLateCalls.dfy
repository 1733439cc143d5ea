/**
 Calls on a function another caller has just been told is closing. A call is late exactly
 when its caller loaded the pointer before the refused caller cleared it; so callers that
 never overlap are never late, and any two that overlap can be.
 */
module TsfnLateCalls {
  import opened Wrappers
  import opened ManagedTsfn
  import opened TsfnInvariant
  import opened TsfnSteps
  import opened TsfnTheorems

  /** The caller has loaded the pointer and calls the native function next. */
  predicate AboutToCall(s: State, a: ActivationId, h: HandleId) {
    a in s.acts && s.acts[a].Calling? && s.acts[a].call.CallNative? && s.acts[a].h == h
  }

  /** Meanwhile another caller has been answered `closing` and has not cleared the pointer yet. */
  predicate Overtaken(s: State, a: ActivationId, h: HandleId) {
    AboutToCall(s, a, h) && h in s.handles && s.handles[h].storer.Some?
  }

  // ---- single steps ----

  /** A step makes a function called late exactly when it is a native call after a `closing` answer. */
  lemma LateStepExactly(s: State, l: Label, h: HandleId)
    requires Inv(s) && Enabled(s, l) && h in s.handles && !s.handles[h].late
    ensures h in Apply(s, l).handles
    ensures Apply(s, l).handles[h].late <==> l.Step? && AboutToCall(s, l.a, h) && s.handles[h].consumed == 1
  {
    Remembering(s, l, h);
    if l.Step? {
      assert ActOk(s, l.a) && HandleOk(s, h);
      match s.acts[l.a]
      case Calling(at, x, p) => CallLateExactly(s, l.a, at, x, p, l.answer, h);
      case Dropping(at, x) => DropNotLate(s, l.a, at, x, h);
      case Creating(at, x, weak) => CreateNotLate(s, l.a, at, x, weak, l.answer, h);
      case Closing(at, list) => CloseNotLate(s, l.a, at, list, l.answer, h);
    }
  }

  lemma CallLateExactly(s: State, a: ActivationId, at: CallPoint, x: HandleId, p: PayloadId, answer: Answer, h: HandleId)
    requires AtCall(s, a, at, x, p) && h in s.handles && !s.handles[h].late
    ensures x in s.handles && p in s.payloads && h in ExecuteCall(s, a, at, x, p, answer).handles
    ensures ExecuteCall(s, a, at, x, p, answer).handles[h].late <==> at.CallNative? && x == h && s.handles[h].consumed == 1
  {
    assert ActOk(s, a) && HandleOk(s, h);
  }

  lemma DropNotLate(s: State, a: ActivationId, at: DropPoint, x: HandleId, h: HandleId)
    requires x in s.handles && h in s.handles && !s.handles[h].late
    ensures h in ExecuteDrop(s, a, at, x).handles && !ExecuteDrop(s, a, at, x).handles[h].late
  {
  }

  lemma CreateNotLate(s: State, a: ActivationId, at: CreatePoint, x: HandleId, weak: bool, answer: Answer, h: HandleId)
    requires x in s.handles && h in s.handles && !s.handles[h].late
    ensures h in ExecuteCreate(s, a, at, x, weak, answer).handles && !ExecuteCreate(s, a, at, x, weak, answer).handles[h].late
  {
  }

  lemma CloseNotLate(s: State, a: ActivationId, at: ClosePoint, list: set<HandleId>, answer: Answer, h: HandleId)
    requires (at.CloseSwap? || at.CloseAbort? ==> at.h in s.handles) && (at.CloseNext? && list != {} ==> answer.Pick?)
    requires h in s.handles && !s.handles[h].late
    ensures h in ExecuteClose(s, a, at, list, answer).handles && !ExecuteClose(s, a, at, list, answer).handles[h].late
  {
  }

  // Whoever comes to be about to call in a step of its own has just loaded the pointer.
  lemma OwnStepLoads(s: State, a: ActivationId, answer: Answer, h: HandleId)
    requires Ready(s, a) && GoodAnswer(s, s.acts[a], answer) && AboutToCall(Execute(s, a, answer), a, h)
    ensures h in Execute(s, a, answer).handles && Execute(s, a, answer).handles[h].raw
  {
    StepContinues(s, a, answer);
    CallLoads(s, a, s.acts[a].call, h, s.acts[a].p, answer);
  }

  lemma CallLoads(s: State, a: ActivationId, at: CallPoint, h: HandleId, p: PayloadId, answer: Answer)
    requires a in s.acts && h in s.handles && p in s.payloads && AboutToCall(ExecuteCall(s, a, at, h, p, answer), a, h)
    ensures h in ExecuteCall(s, a, at, h, p, answer).handles && ExecuteCall(s, a, at, h, p, answer).handles[h].raw
  {
  }

  /** A caller that is still about to call when the pointer has been cleared was about to before the step. */
  lemma StillAbout(s: State, l: Label, a: ActivationId, h: HandleId)
    requires Inv(s) && Enabled(s, l) && AboutToCall(Apply(s, l), a, h) && h in Apply(s, l).handles
    requires Apply(s, l).handles[h].consumed == 1 && Apply(s, l).handles[h].storer.None?
    ensures AboutToCall(s, a, h) && s.acts[a] == Apply(s, l).acts[a]
    ensures h in s.handles && s.handles[h].consumed == 1
  {
    var s' := Apply(s, l);
    LabelPreserves(s, l);
    assert HandleOk(s', h);
    assert !(l.Step? && l.a == a) by {
      if l.Step? && l.a == a { OwnStepLoads(s, a, l.answer, h); }
    }
    OthersSame(s, l, a, h);
    AnsweredBefore(s, l, h);
  }

  lemma OthersSame(s: State, l: Label, a: ActivationId, h: HandleId)
    requires Enabled(s, l) && !(l.Step? && l.a == a) && AboutToCall(Apply(s, l), a, h)
    ensures a in s.acts && s.acts[a] == Apply(s, l).acts[a]
  {
    if l.Step? { StepContinues(s, l.a, l.answer); }
  }

  lemma AnsweredBefore(s: State, l: Label, h: HandleId)
    requires Enabled(s, l) && h in Apply(s, l).handles
    requires Apply(s, l).handles[h].consumed == 1 && Apply(s, l).handles[h].storer.None?
    ensures h in s.handles && s.handles[h].consumed == 1
  {
    if l.Step? {
      StepContinues(s, l.a, l.answer);
      Remembering(s, l, h);
    } else if h in s.handles {
      Remembering(s, l, h);
    }
  }

  // ---- whole runs ----

  /** The state after the first `i` labels of a run. */
  function At(labels: seq<Label>, i: nat): State
    requires i <= |labels| && Run(INITIAL, labels[..i]).Some?
  {
    Run(INITIAL, labels[..i]).value
  }

  lemma {:induction false} RunAppend(s: State, first: seq<Label>, rest: seq<Label>)
    ensures Run(s, first + rest) == match Run(s, first) case Some(t) => Run(t, rest) case None => None
    decreases |first|
  {
    if first == [] {
      assert first + rest == rest;
    } else {
      assert (first + rest)[0] == first[0] && (first + rest)[1..] == first[1..] + rest;
      if Enabled(s, first[0]) { RunAppend(Apply(s, first[0]), first[1..], rest); }
    }
  }

  lemma Prefix(labels: seq<Label>, i: nat)
    requires Run(INITIAL, labels).Some? && i <= |labels|
    ensures Run(INITIAL, labels[..i]).Some? && Inv(At(labels, i))
  {
    assert labels == labels[..i] + labels[i..];
    RunAppend(INITIAL, labels[..i], labels[i..]);
    Reachable(labels[..i], At(labels, i));
  }

  lemma Next(labels: seq<Label>, i: nat)
    requires Run(INITIAL, labels).Some? && i < |labels|
    ensures Run(INITIAL, labels[..i]).Some? && Run(INITIAL, labels[..i + 1]).Some? && Inv(At(labels, i))
    ensures Enabled(At(labels, i), labels[i]) && At(labels, i + 1) == Apply(At(labels, i), labels[i])
  {
    Prefix(labels, i);
    Prefix(labels, i + 1);
    assert labels[..i + 1] == labels[..i] + [labels[i]];
    RunAppend(INITIAL, labels[..i], [labels[i]]);
    assert Run(At(labels, i), [labels[i]]).Some?;
  }

  /** Before label `i` the caller is overtaken, at the program counter it calls from later on. */
  ghost predicate OvertakenAt(labels: seq<Label>, i: nat, a: ActivationId, pc: Pc, h: HandleId) {
    i <= |labels| && Run(INITIAL, labels[..i]).Some? && Overtaken(At(labels, i), a, h) && At(labels, i).acts[a] == pc
  }

  /** Label `j` is the native call of a caller that was overtaken before. Payloads are never reused, so it is the same call. */
  ghost predicate LateCallAt(labels: seq<Label>, j: nat, h: HandleId) {
    && j < |labels| && Run(INITIAL, labels[..j]).Some? && labels[j].Step? && AboutToCall(At(labels, j), labels[j].a, h)
    && exists i: nat :: i <= j && OvertakenAt(labels, i, labels[j].a, At(labels, j).acts[labels[j].a], h)
  }

  /** A caller about to call a function that was given up has been overtaken. */
  lemma {:induction false} WasOvertaken(labels: seq<Label>, n: nat, a: ActivationId, h: HandleId)
    requires Run(INITIAL, labels).Some? && n <= |labels| && Run(INITIAL, labels[..n]).Some?
    requires AboutToCall(At(labels, n), a, h) && h in At(labels, n).handles && At(labels, n).handles[h].consumed == 1
    ensures exists i: nat :: i <= n && OvertakenAt(labels, i, a, At(labels, n).acts[a], h)
    decreases n
  {
    if At(labels, n).handles[h].storer.Some? {
      assert OvertakenAt(labels, n, a, At(labels, n).acts[a], h);
    } else {
      assert n > 0 by { assert labels[..0] == []; }
      Next(labels, n - 1);
      StillAbout(At(labels, n - 1), labels[n - 1], a, h);
      WasOvertaken(labels, n - 1, a, h);
    }
  }

  lemma {:induction false} LateWasCalled(labels: seq<Label>, n: nat, h: HandleId)
    requires Run(INITIAL, labels).Some? && n <= |labels| && Run(INITIAL, labels[..n]).Some?
    requires h in At(labels, n).handles && At(labels, n).handles[h].late
    ensures exists j: nat :: j < n && LateCallAt(labels, j, h)
    decreases n
  {
    assert n > 0 by { assert labels[..0] == []; }
    Next(labels, n - 1);
    var s := At(labels, n - 1);
    if h in s.handles && s.handles[h].late {
      LateWasCalled(labels, n - 1, h);
    } else {
      BecomesLate(labels, n - 1, h);
    }
  }

  lemma BecomesLate(labels: seq<Label>, j: nat, h: HandleId)
    requires Run(INITIAL, labels).Some? && j < |labels| && Run(INITIAL, labels[..j]).Some? && Run(INITIAL, labels[..j + 1]).Some?
    requires h in At(labels, j + 1).handles && At(labels, j + 1).handles[h].late
    requires h in At(labels, j).handles ==> !At(labels, j).handles[h].late
    ensures LateCallAt(labels, j, h)
  {
    Next(labels, j);
    NewNotLate(At(labels, j), labels[j], h);
    LateStepExactly(At(labels, j), labels[j], h);
    WasOvertaken(labels, j, labels[j].a, h);
  }

  lemma NewNotLate(s: State, l: Label, h: HandleId)
    requires Enabled(s, l) && h in Apply(s, l).handles && Apply(s, l).handles[h].late
    ensures h in s.handles
  {
    if l.Step? { StepContinues(s, l.a, l.answer); }
  }

  lemma {:induction false} Remembered(labels: seq<Label>, i: nat, n: nat, h: HandleId)
    requires Run(INITIAL, labels).Some? && i <= n <= |labels| && Run(INITIAL, labels[..i]).Some? && Run(INITIAL, labels[..n]).Some?
    requires h in At(labels, i).handles
    ensures h in At(labels, n).handles && At(labels, i).handles[h].consumed <= At(labels, n).handles[h].consumed
    ensures At(labels, i).handles[h].late ==> At(labels, n).handles[h].late
    decreases n
  {
    if i < n {
      Next(labels, n - 1);
      Remembered(labels, i, n - 1, h);
      Remembering(At(labels, n - 1), labels[n - 1], h);
    }
  }

  /**
   In every run a function was called after it had been given up if and only if some caller
   loaded the pointer before another, which had been answered `closing`, cleared it, and
   then made its call.
   */
  lemma LateExactly(labels: seq<Label>, s: State, h: HandleId)
    requires Reaches(labels, s) && h in s.handles
    ensures s.handles[h].late <==> exists j: nat :: LateCallAt(labels, j, h)
  {
    var n := |labels|;
    assert labels[..n] == labels;
    if s.handles[h].late { LateWasCalled(labels, n, h); }
    if j: nat :| LateCallAt(labels, j, h) {
      var i: nat :| i <= j && OvertakenAt(labels, i, labels[j].a, At(labels, j).acts[labels[j].a], h);
      OvertakenIsLate(labels, i, j, h);
      Prefix(labels, j + 1);
      Remembered(labels, j + 1, n, h);
    }
  }

  lemma OvertakenIsLate(labels: seq<Label>, i: nat, j: nat, h: HandleId)
    requires Run(INITIAL, labels).Some? && i <= j < |labels| && Run(INITIAL, labels[..j]).Some? && labels[j].Step?
    requires AboutToCall(At(labels, j), labels[j].a, h)
    requires OvertakenAt(labels, i, labels[j].a, At(labels, j).acts[labels[j].a], h)
    ensures Run(INITIAL, labels[..j + 1]).Some? && h in At(labels, j + 1).handles && At(labels, j + 1).handles[h].late
  {
    Prefix(labels, i);
    assert HandleOk(At(labels, i), h);
    Remembered(labels, i, j, h);
    Next(labels, j);
    assert HandleOk(At(labels, j), h);
    Remembering(At(labels, j), labels[j], h);
    if !At(labels, j).handles[h].late { LateStepExactly(At(labels, j), labels[j], h); }
  }

  // ---- callers that never overlap ----

  /** At most one call at a time on each function. */
  predicate Serial(s: State) {
    forall a, b {:trigger s.acts[a], s.acts[b]} ::
      a in s.acts && b in s.acts && s.acts[a].Calling? && s.acts[b].Calling? && s.acts[a].h == s.acts[b].h ==> a == b
  }

  /** In the run, a call on a function begins only when no other is in progress. */
  ghost predicate SerialRun(labels: seq<Label>) {
    forall i: nat :: i < |labels| && Run(INITIAL, labels[..i]).Some? && labels[i].Call? ==> NobodyCalls(At(labels, i), labels[i].h)
  }

  lemma SerialStep(s: State, l: Label)
    requires Enabled(s, l) && Serial(s) && (l.Call? ==> NobodyCalls(s, l.h))
    ensures Serial(Apply(s, l))
  {
    if l.Step? {
      StepContinues(s, l.a, l.answer);
    } else if l.Call? {
      forall b | b in s.acts && s.acts[b].Calling? ensures s.acts[b].h != l.h { assert !InCall(s, b, l.h); }
    }
  }

  lemma {:induction false} SerialAt(labels: seq<Label>, n: nat)
    requires Run(INITIAL, labels).Some? && SerialRun(labels) && n <= |labels| && Run(INITIAL, labels[..n]).Some?
    ensures Serial(At(labels, n))
    decreases n
  {
    if n == 0 {
      assert labels[..0] == [];
    } else {
      Next(labels, n - 1);
      SerialAt(labels, n - 1);
      SerialStep(At(labels, n - 1), labels[n - 1]);
    }
  }

  // The refused caller that has the pointer to clear is in its call, too.
  lemma OvertakenOverlaps(s: State, a: ActivationId, h: HandleId)
    requires Inv(s) && Overtaken(s, a, h)
    ensures !Serial(s)
  {
    assert HandleOk(s, h);
    var b := s.handles[h].storer.value;
    assert s.acts[a].Calling? && s.acts[b].Calling? && a != b;
  }

  /** If calls on the same function never overlap, none reaches a function that was given up in any way. */
  lemma SerialNeverLate(labels: seq<Label>, s: State, h: HandleId)
    requires Reaches(labels, s) && SerialRun(labels) && h in s.handles
    ensures !s.handles[h].late
  {
    LateExactly(labels, s, h);
    forall j: nat ensures !LateCallAt(labels, j, h) {
      if LateCallAt(labels, j, h) {
        var i: nat :| i <= j && OvertakenAt(labels, i, labels[j].a, At(labels, j).acts[labels[j].a], h);
        Prefix(labels, i);
        SerialAt(labels, i);
        OvertakenOverlaps(At(labels, i), labels[j].a, h);
      }
    }
  }

  // ---- callers that overlap ----

  /** The call has begun and has not reached the native function yet. */
  predicate OnItsWay(s: State, a: ActivationId, h: HandleId) {
    a in s.acts && s.acts[a].Calling? && s.acts[a].h == h
    && (s.acts[a].call.CallLock? || s.acts[a].call.CallLoad? || s.acts[a].call.CallNative?)
  }

  /** Nothing stands between the callers of the function and the native call. */
  predicate Callable(s: State, h: HandleId) {
    s.open && s.writer.None? && h in s.handles && s.handles[h].raw && s.handles[h].created && GivenUp(s.handles[h]) == 0
  }

  /** A caller on its way can be brought to its native call, leaving everything else as it is. */
  lemma Advances(s: State, a: ActivationId, h: HandleId) returns (more: seq<Label>)
    requires Inv(s) && OnItsWay(s, a, h) && Callable(s, h)
    ensures Run(s, more).Some?
    ensures var s' := Run(s, more).value; AboutToCall(s', a, h) && Callable(s', h) && s'.acts == s.acts[a := s'.acts[a]] && Inv(s')
    decreases if s.acts[a].call.CallLock? then 2 else if s.acts[a].call.CallLoad? then 1 else 0
  {
    if s.acts[a].call.CallNative? {
      more := [];
    } else {
      assert ActOk(s, a);
      var l := Step(a, Success);
      LabelPreserves(s, l);
      var rest := Advances(Apply(s, l), a, h);
      more := [l] + rest;
    }
  }

  /** Two callers about to call: one is answered `closing`, and the other still calls. */
  lemma BothCall(s: State, a: ActivationId, b: ActivationId, h: HandleId)
    requires Inv(s) && a != b && AboutToCall(s, a, h) && AboutToCall(s, b, h) && Callable(s, h)
    ensures var r := Run(s, [NativeCloses(h), Step(a, NowClosing), Step(b, Failed)]);
            r.Some? && h in r.value.handles && r.value.handles[h].late && r.value.open
  {
    assert ActOk(s, a) && ActOk(s, b);
    var s1 := Apply(s, NativeCloses(h));
    var s2 := Apply(s1, Step(a, NowClosing));
    assert s2.handles[h].consumed == 1 && AboutToCall(s2, b, h) && Enabled(s2, Step(b, Failed));
    var s3 := Apply(s2, Step(b, Failed));
    assert s3.handles[h].late;
    assert Run(s2, [Step(b, Failed)]) == Some(s3);
    assert Run(s1, [Step(a, NowClosing), Step(b, Failed)]) == Some(s3);
  }

  /**
   The converse of SerialNeverLate: wherever two calls on a live function overlap before
   their native calls, and whatever happened so far, the run can go on to a late call.
   */
  lemma OverlapCanBeLate(labels: seq<Label>, s: State, a: ActivationId, b: ActivationId, h: HandleId) returns (more: seq<Label>)
    requires Reaches(labels, s) && a != b && OnItsWay(s, a, h) && OnItsWay(s, b, h) && s.open && s.writer.None?
    requires h in s.handles && GivenUp(s.handles[h]) == 0
    ensures Run(s, more).Some? && Reaches(labels + more, Run(s, more).value)
    ensures var s' := Run(s, more).value; h in s'.handles && s'.handles[h].late && s'.open
  {
    Reachable(labels, s);
    assert ActOk(s, a) && HandleOk(s, h);
    var first := Advances(s, a, h);
    var t := Run(s, first).value;
    var second := Advances(t, b, h);
    var u := Run(t, second).value;
    BothCall(u, a, b, h);
    var last := [NativeCloses(h), Step(a, NowClosing), Step(b, Failed)];
    RunAppend(t, second, last);
    RunAppend(s, first, second + last);
    more := first + (second + last);
    RunAppend(INITIAL, labels, more);
  }

  // ---- a run in which two calls overlap ----

  ghost predicate Arrives(s: State) {
    exists labels :: Reaches(labels, s)
  }

  lemma Arrive(s: State, l: Label, s': State)
    requires Arrives(s) && Enabled(s, l) && Apply(s, l) == s'
    ensures Arrives(s')
  {
    var labels :| Reaches(labels, s);
    RunAppend(INITIAL, labels, [l]);
    assert Run(Apply(s, l), []) == Some(s');
    assert Reaches(labels + [l], s');
  }

  // One function, created by activation 0 and called by activations 1 and 2.
  const ANNOUNCED := NewHandle(0, false)
  const MADE := ANNOUNCED.(contextMade := true, contextAlive := true)
  const LIVE := MADE.(created := true, raw := true)
  const SHARED := LIVE.(registeredOnce := true, owners := 1)

  function CreatingAt(handle: Handle, at: CreatePoint, readers: set<ActivationId>, registered: set<HandleId>): State {
    State(true, readers, None, registered, map[0 := handle], map[], map[0 := Creating(at, 0, false)], None, false)
  }

  lemma CreateTo(handle: Handle, at: CreatePoint, readers: set<ActivationId>, s': State)
    requires Arrives(CreatingAt(handle, at, readers, {}))
    requires s' == ExecuteCreate(CreatingAt(handle, at, readers, {}), 0, at, 0, false, Success)
    ensures Arrives(s')
  {
    Arrive(CreatingAt(handle, at, readers, {}), Step(0, Success), s');
  }

  lemma RunNames()
    ensures Arrives(CreatingAt(MADE, CreateNative, {0}, {}))
  {
    assert Reaches([], INITIAL);
    Arrive(INITIAL, Create(0, 0, false, false), CreatingAt(ANNOUNCED, CreateLock, {}, {}));
    CreateTo(ANNOUNCED, CreateLock, {}, CreatingAt(MADE, CreateName, {0}, {}));
    CreateTo(MADE, CreateName, {0}, CreatingAt(MADE, CreateNative, {0}, {}));
  }

  lemma RunMakes()
    ensures Arrives(CreatingAt(LIVE, CreateUnref, {0}, {}))
  {
    RunNames();
    CreateTo(MADE, CreateNative, {0}, CreatingAt(LIVE, CreateUnref, {0}, {}));
  }

  lemma RunRegisters()
    ensures Arrives(CreatingAt(SHARED, CreateUnlock, {0}, {0}))
  {
    RunMakes();
    CreateTo(LIVE, CreateUnref, {0}, CreatingAt(LIVE, CreateRegister, {0}, {}));
    CreateTo(LIVE, CreateRegister, {0}, CreatingAt(SHARED, CreateUnlock, {0}, {0}));
  }

  function Calls(handle: Handle, readers: set<ActivationId>, payloads: map<PayloadId, Payload>, acts: map<ActivationId, Pc>): State {
    State(true, readers, None, {0}, map[0 := handle], payloads, acts, None, false)
  }

  const FIRST := Payload(Local, 0, 1)
  const SECOND := Payload(Local, 0, 2)

  lemma RunCreates()
    ensures Arrives(Calls(SHARED, {}, map[], map[]))
  {
    RunRegisters();
    var s := CreatingAt(SHARED, CreateUnlock, {0}, {0});
    var s' := Calls(SHARED, {}, map[], map[]);
    assert s.readers - {0} == {};
    assert s.acts - {0} == map[];
    Arrive(s, Step(0, Success), s');
  }

  const OVERLAPPING := Calls(SHARED, {}, map[0 := FIRST, 1 := SECOND], map[1 := Calling(CallLock, 0, 0), 2 := Calling(CallLock, 0, 1)])

  lemma RunOverlaps()
    ensures Arrives(OVERLAPPING)
  {
    RunCreates();
    var s := Calls(SHARED, {}, map[0 := FIRST], map[1 := Calling(CallLock, 0, 0)]);
    Arrive(Calls(SHARED, {}, map[], map[]), Call(0, 1, 0), s);
    Arrive(s, Call(0, 2, 1), OVERLAPPING);
  }

  lemma LateSomewhere(labels: seq<Label>, s: State, h: HandleId)
    requires Reaches(labels, s) && h in s.handles && s.handles[h].late && s.open
    ensures exists labels, s, h :: Reaches(labels, s) && h in s.handles && s.handles[h].late && s.open
  {
  }

  /** Some run does: two callers load the pointer, the first is answered `closing`, and the second still calls. */
  lemma OverlappingCallsCanBeLate()
    ensures exists labels, s, h :: Reaches(labels, s) && h in s.handles && s.handles[h].late && s.open
  {
    RunOverlaps();
    var labels :| Reaches(labels, OVERLAPPING);
    var more := OverlapCanBeLate(labels, OVERLAPPING, 1, 2, 0);
    LateSomewhere(labels + more, Run(OVERLAPPING, more).value, 0);
  }
}
