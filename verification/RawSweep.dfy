/**
 The sort-and-sweep overlap check of raw struct layouts, in checked machine arithmetic,
 and what it decides about the fields in unbounded integers.
 */
module RawSweep {
  import opened Wrappers

  const MAX_LIBFFI_ELEMENTS := 65536

  /** The smallest `usize` range the binding runs with. */
  const USIZE_MAX_32 := 0xFFFF_FFFF

  datatype RawError =
    | UnqualifiedName | NestingLimit | RecursiveCycle | InvalidSize | SizeLimit | MissingFields | FieldCountLimit
    | InvalidCount | CountLimit | MissingType | MissingKind | MissingName | MissingLayout | UnsupportedKind
    | ExpansionOverflow | ExpansionLimit | InvalidOffset | FieldSizeOverflow | LibffiOverflow | LibffiLimit
    | FieldsOverlap | FieldEndOverflow | FieldsExceedSize

  /** One field of a struct: where it starts, its bytes and its libffi elements, repetitions included. */
  datatype Part = Part(offset: nat, size: nat, elements: nat) {
    function End(): nat {
      offset + size
    }
  }

  function CheckedAdd(a: nat, b: nat, usizeMax: nat): Option<nat> {
    if a + b <= usizeMax then Some(a + b) else None
  }

  function CheckedMul(a: nat, b: nat, usizeMax: nat): Option<nat> {
    if a * b <= usizeMax then Some(a * b) else None
  }

  // ---- the sweep over fields sorted by offset ----

  /** One field: the cursor and the libffi count after it. */
  function SweepPart(part: Part, cursor: nat, elements: nat, usizeMax: nat): (r: Result<(nat, nat), RawError>) {
    if part.offset < cursor then Err(FieldsOverlap)
    else
      var padded := CheckedAdd(elements, part.offset - cursor, usizeMax);
      if padded.None? then Err(LibffiOverflow)
      else
        var counted := CheckedAdd(padded.value, part.elements, usizeMax);
        if counted.None? then Err(LibffiOverflow)
        else if counted.value > MAX_LIBFFI_ELEMENTS then Err(LibffiLimit)
        else
          var end := CheckedAdd(part.offset, part.size, usizeMax);
          if end.None? then Err(FieldEndOverflow) else Ok((end.value, counted.value))
  }

  function SweepFrom(parts: seq<Part>, cursor: nat, elements: nat, usizeMax: nat): (r: Result<(nat, nat), RawError>) {
    if parts == [] then Ok((cursor, elements))
    else
      var next := SweepPart(parts[0], cursor, elements, usizeMax);
      if next.Err? then next else SweepFrom(parts[1..], next.value.0, next.value.1, usizeMax)
  }

  function SweepTail(size: nat, cursor: nat, elements: nat, usizeMax: nat): (r: Result<nat, RawError>) {
    if size < cursor then Err(FieldsExceedSize)
    else
      var counted := CheckedAdd(elements, size - cursor, usizeMax);
      if counted.None? then Err(LibffiOverflow)
      else if counted.value > MAX_LIBFFI_ELEMENTS then Err(LibffiLimit)
      else Ok(counted.value)
  }

  /** The sweep over sorted fields: the libffi element count of the struct, or why it is refused. */
  function Sweep(parts: seq<Part>, size: nat, usizeMax: nat): (r: Result<nat, RawError>) {
    var end := SweepFrom(parts, 0, 0, usizeMax);
    if end.Err? then Err(end.error) else SweepTail(size, end.value.0, end.value.1, usizeMax)
  }

  method SweepFields(parts: seq<Part>, size: nat, usizeMax: nat) returns (r: Result<nat, RawError>)
    ensures r == Sweep(parts, size, usizeMax)
  {
    var cursor: nat, libffiElements: nat := 0, 0;
    for index := 0 to |parts|
      invariant SweepFrom(parts[index..], cursor, libffiElements, usizeMax) == SweepFrom(parts, 0, 0, usizeMax)
    {
      var part := parts[index];
      assert parts[index..][0] == part && parts[index..][1..] == parts[index + 1..];
      if part.offset < cursor { return Err(FieldsOverlap); }
      var padded := CheckedAdd(libffiElements, part.offset - cursor, usizeMax);
      if padded.None? { return Err(LibffiOverflow); }
      var counted := CheckedAdd(padded.value, part.elements, usizeMax);
      if counted.None? { return Err(LibffiOverflow); }
      libffiElements := counted.value;
      if libffiElements > MAX_LIBFFI_ELEMENTS { return Err(LibffiLimit); }
      var end := CheckedAdd(part.offset, part.size, usizeMax);
      if end.None? { return Err(FieldEndOverflow); }
      cursor := end.value;
    }
    r := SweepTail(size, cursor, libffiElements, usizeMax);
  }

  // ---- what the sweep decides ----

  function TotalSize(parts: seq<Part>): nat {
    if parts == [] then 0 else parts[0].size + TotalSize(parts[1..])
  }

  function TotalElements(parts: seq<Part>): nat {
    if parts == [] then 0 else parts[0].elements + TotalElements(parts[1..])
  }

  /** The number of libffi elements: one for every byte no field covers, and those of the fields. */
  function LibffiElements(parts: seq<Part>, size: nat): int {
    size - TotalSize(parts) + TotalElements(parts)
  }

  /** Every field ends before any later one starts. */
  predicate Clear(parts: seq<Part>) {
    forall i, j :: 0 <= i < j < |parts| ==> parts[i].End() <= parts[j].offset
  }

  predicate AllWithin(parts: seq<Part>, size: nat) {
    forall i :: 0 <= i < |parts| ==> parts[i].End() <= size
  }

  predicate StartsFrom(parts: seq<Part>, cursor: nat) {
    forall i :: 0 <= i < |parts| ==> cursor <= parts[i].offset
  }

  lemma ClearFirst(parts: seq<Part>)
    requires parts != []
    ensures Clear(parts) <==> StartsFrom(parts[1..], parts[0].End()) && Clear(parts[1..])
  {
    if StartsFrom(parts[1..], parts[0].End()) && Clear(parts[1..]) {
      forall i, j | 0 <= i < j < |parts| ensures parts[i].End() <= parts[j].offset {
        assert parts[j] == parts[1..][j - 1];
        if i > 0 { assert parts[i] == parts[1..][i - 1]; }
      }
    }
  }

  /** The end of the last field, or the cursor when there is none. */
  function EndFrom(parts: seq<Part>, cursor: nat): nat {
    if parts == [] then cursor else parts[|parts| - 1].End()
  }

  function CountAfter(parts: seq<Part>, cursor: nat, elements: nat): int {
    elements + EndFrom(parts, cursor) - cursor - TotalSize(parts) + TotalElements(parts)
  }

  predicate Swept(parts: seq<Part>, cursor: nat, elements: nat, cursor': nat, elements': nat) {
    && cursor <= cursor' == EndFrom(parts, cursor)
    && elements' == CountAfter(parts, cursor, elements) <= MAX_LIBFFI_ELEMENTS
  }

  lemma {:induction false} SweepFromExact(parts: seq<Part>, cursor: nat, elements: nat, usizeMax: nat)
    requires usizeMax >= MAX_LIBFFI_ELEMENTS && elements <= MAX_LIBFFI_ELEMENTS
    ensures var r := SweepFrom(parts, cursor, elements, usizeMax);
            r.Ok? ==> Clear(parts) && StartsFrom(parts, cursor) && Swept(parts, cursor, elements, r.value.0, r.value.1)
    ensures Clear(parts) && StartsFrom(parts, cursor) && EndFrom(parts, cursor) <= usizeMax
            && CountAfter(parts, cursor, elements) <= MAX_LIBFFI_ELEMENTS
            ==> SweepFrom(parts, cursor, elements, usizeMax).Ok?
    decreases |parts|
  {
    if parts != [] {
      var p := parts[0];
      ClearFirst(parts);
      CountMonotone(parts, cursor);
      assert EndFrom(parts, cursor) == EndFrom(parts[1..], p.End());
      assert forall i :: 0 <= i < |parts[1..]| ==> parts[1..][i] == parts[i + 1];
      var next := SweepPart(p, cursor, elements, usizeMax);
      if next.Ok? {
        SweepFromExact(parts[1..], p.End(), next.value.1, usizeMax);
      } else if Clear(parts) && StartsFrom(parts, cursor) {
        CountMonotone(parts[1..], p.End());
      }
    }
  }

  // Gaps are never negative, so the count only grows.
  lemma {:induction false} CountMonotone(parts: seq<Part>, cursor: nat)
    ensures Clear(parts) && StartsFrom(parts, cursor) ==> EndFrom(parts, cursor) - cursor - TotalSize(parts) >= 0
    decreases |parts|
  {
    if parts != [] {
      ClearFirst(parts);
      CountMonotone(parts[1..], parts[0].End());
      assert EndFrom(parts, cursor) == EndFrom(parts[1..], parts[0].End());
    }
  }

  /**
   In any machine width of at least 32 bits the sweep accepts sorted fields exactly when,
   in unbounded integers, each ends before the next starts, all lie inside the struct and
   the libffi count is within its limit; and it returns that count.
   */
  lemma SweepExact(parts: seq<Part>, size: nat, usizeMax: nat)
    requires size <= usizeMax && USIZE_MAX_32 <= usizeMax
    ensures var r := Sweep(parts, size, usizeMax);
      && (r.Ok? <==> Clear(parts) && AllWithin(parts, size) && LibffiElements(parts, size) <= MAX_LIBFFI_ELEMENTS)
      && (r.Ok? ==> r.value == LibffiElements(parts, size))
  {
    SweepFromExact(parts, 0, 0, usizeMax);
    CountMonotone(parts, 0);
    if Clear(parts) && EndFrom(parts, 0) <= size {
      forall i | 0 <= i < |parts| ensures parts[i].End() <= size {
        if i < |parts| - 1 { assert parts[i].End() <= parts[|parts| - 1].offset; }
      }
    }
  }

  // ---- sorting, and why the order of the fields does not matter ----

  predicate Sorted(parts: seq<Part>) {
    forall i, j :: 0 <= i < j < |parts| ==> parts[i].offset <= parts[j].offset
  }

  /** The same fields, sorted by offset; fields with equal offsets in any order. */
  predicate SortedForm(sorted: seq<Part>, parts: seq<Part>) {
    Sorted(sorted) && multiset(sorted) == multiset(parts)
  }

  /** A function that sorts by offset, breaking ties as it likes. */
  ghost predicate SortOk(sort: seq<Part> -> seq<Part>) {
    forall parts :: SortedForm(sort(parts), parts)
  }

  function Insert(part: Part, sorted: seq<Part>): (r: seq<Part>)
    requires Sorted(sorted)
    ensures Sorted(r) && multiset(r) == multiset(sorted) + multiset{part}
  {
    if sorted == [] then [part]
    else if part.offset < sorted[0].offset then
      assert [part] + sorted == [part] + sorted;
      [part] + sorted
    else
      var rest := Insert(part, sorted[1..]);
      assert sorted == [sorted[0]] + sorted[1..];
      InsertedLater(part, sorted, rest);
      [sorted[0]] + rest
  }

  lemma InsertedLater(part: Part, sorted: seq<Part>, rest: seq<Part>)
    requires Sorted(sorted) && sorted != [] && sorted[0].offset <= part.offset
    requires Sorted(rest) && multiset(rest) == multiset(sorted[1..]) + multiset{part}
    ensures Sorted([sorted[0]] + rest)
  {
    forall i | 0 <= i < |rest| ensures sorted[0].offset <= rest[i].offset {
      assert rest[i] in multiset(rest);
    }
  }

  // A stable insertion sort: fields with equal offsets stay in the order they are listed in.
  function SortByOffset(parts: seq<Part>): (r: seq<Part>)
    ensures SortedForm(r, parts)
  {
    if parts == [] then []
    else
      assert parts == parts[..|parts| - 1] + [parts[|parts| - 1]];
      Insert(parts[|parts| - 1], SortByOffset(parts[..|parts| - 1]))
  }

  lemma {:induction false} TotalSplit(a: seq<Part>, b: seq<Part>)
    ensures TotalSize(a + b) == TotalSize(a) + TotalSize(b) && TotalElements(a + b) == TotalElements(a) + TotalElements(b)
  {
    if a == [] {
      assert a + b == b;
    } else {
      assert (a + b)[1..] == a[1..] + b;
      TotalSplit(a[1..], b);
    }
  }

  function RemoveAt(s: seq<Part>, k: nat): (r: seq<Part>)
    requires k < |s|
    ensures multiset(r) == multiset(s) - multiset{s[k]}
  {
    assert s == s[..k] + [s[k]] + s[k + 1..];
    s[..k] + s[k + 1..]
  }

  lemma RemovedAt(s: seq<Part>, k: nat, m: nat)
    requires k < |s| && m < |s| - 1
    ensures RemoveAt(s, k)[m] == s[if m < k then m else m + 1] && |RemoveAt(s, k)| == |s| - 1
  {
  }

  lemma RemovedTotals(s: seq<Part>, k: nat)
    requires k < |s|
    ensures TotalSize(s) == s[k].size + TotalSize(RemoveAt(s, k)) && TotalElements(s) == s[k].elements + TotalElements(RemoveAt(s, k))
  {
    TotalSplit(s[..k], s[k + 1..]);
    assert s == s[..k] + s[k..] && s[k..][1..] == s[k + 1..];
    TotalSplit(s[..k], s[k..]);
  }

  /** The totals depend on the fields only, not on their order. */
  lemma {:induction false} TotalsPermute(a: seq<Part>, b: seq<Part>)
    requires multiset(a) == multiset(b)
    ensures TotalSize(a) == TotalSize(b) && TotalElements(a) == TotalElements(b)
    decreases |a|
  {
    if a == [] {
      assert |multiset(b)| == |b|;
    } else {
      assert a[0] in multiset(b);
      var k :| 0 <= k < |b| && b[k] == a[0];
      assert RemoveAt(a, 0) == a[1..];
      TotalsPermute(a[1..], RemoveAt(b, k));
      RemovedTotals(b, k);
    }
  }

  /** Two places of one arrangement are two places of any other. */
  lemma TwoPlaces(a: seq<Part>, b: seq<Part>, i: nat, j: nat) returns (k: nat, l: nat)
    requires multiset(a) == multiset(b) && i < j < |b|
    ensures k < |a| && l < |a| && k != l && a[k] == b[i] && a[l] == b[j]
  {
    assert b[i] in multiset(a);
    k :| 0 <= k < |a| && a[k] == b[i];
    RemovedAt(b, i, j - 1);
    assert RemoveAt(b, i)[j - 1] in multiset(RemoveAt(a, k));
    var m :| 0 <= m < |RemoveAt(a, k)| && RemoveAt(a, k)[m] == b[j];
    SameLength(a, b);
    RemovedAt(a, k, m);
    l := if m < k then m else m + 1;
  }

  lemma SameLength(a: seq<Part>, b: seq<Part>)
    requires multiset(a) == multiset(b)
    ensures |a| == |b|
  {
    assert |multiset(a)| == |a| && |multiset(b)| == |b|;
  }

  /** Ranges that share no byte; an empty field shares no byte unless it lies strictly inside another. */
  predicate Disjoint(a: Part, b: Part) {
    a.End() <= b.offset || b.End() <= a.offset
  }

  predicate PairwiseDisjoint(parts: seq<Part>) {
    forall i, j :: 0 <= i < j < |parts| ==> Disjoint(parts[i], parts[j])
  }

  /** No empty field starts where a non-empty one does. */
  predicate TieFree(parts: seq<Part>) {
    forall i, j :: 0 <= i < |parts| && 0 <= j < |parts| && parts[i].size == 0 && parts[i].offset == parts[j].offset
                   ==> parts[j].size == 0
  }

  /** Of fields at the same offset, the empty ones come first. */
  predicate EmptiesFirst(parts: seq<Part>) {
    forall i, j :: 0 <= i < j < |parts| && parts[i].offset == parts[j].offset && parts[j].size == 0 ==> parts[i].size == 0
  }

  lemma TieFreeEmptiesFirst(parts: seq<Part>, sorted: seq<Part>)
    requires SortedForm(sorted, parts) && TieFree(parts)
    ensures EmptiesFirst(sorted)
  {
    forall i, j | 0 <= i < j < |sorted| && sorted[i].offset == sorted[j].offset && sorted[j].size == 0 ensures sorted[i].size == 0 {
      assert sorted[i] in multiset(parts) && sorted[j] in multiset(parts);
    }
  }

  lemma GoesFirst(part: Part, sorted: seq<Part>)
    requires Sorted(sorted) && EmptiesFirst(sorted) && sorted != []
    requires part.offset < sorted[0].offset || (part.offset == sorted[0].offset && part.size == 0)
    ensures Sorted([part] + sorted) && EmptiesFirst([part] + sorted) && multiset([part] + sorted) == multiset(sorted) + multiset{part}
  {
  }

  function InsertEmptyFirst(part: Part, sorted: seq<Part>): (r: seq<Part>)
    requires Sorted(sorted) && EmptiesFirst(sorted)
    ensures Sorted(r) && EmptiesFirst(r) && multiset(r) == multiset(sorted) + multiset{part}
  {
    if sorted == [] then [part]
    else if part.offset < sorted[0].offset || (part.offset == sorted[0].offset && part.size == 0) then
      GoesFirst(part, sorted);
      [part] + sorted
    else
      var rest := InsertEmptyFirst(part, sorted[1..]);
      assert sorted == [sorted[0]] + sorted[1..];
      assert multiset(sorted) == multiset{sorted[0]} + multiset(sorted[1..]);
      InsertedLater(part, sorted, rest);
      EmptyStaysFirst(part, sorted, rest);
      [sorted[0]] + rest
  }

  lemma EmptyStaysFirst(part: Part, sorted: seq<Part>, rest: seq<Part>)
    requires sorted != [] && EmptiesFirst(sorted) && EmptiesFirst(rest)
    requires multiset(rest) == multiset(sorted[1..]) + multiset{part}
    requires part.offset == sorted[0].offset ==> part.size > 0
    ensures EmptiesFirst([sorted[0]] + rest)
  {
    forall j | 0 <= j < |rest| && sorted[0].offset == rest[j].offset && rest[j].size == 0 ensures sorted[0].size == 0 {
      assert rest[j] in multiset(rest);
      assert rest[j] in sorted[1..];
    }
  }

  /** The arrangement that accepts whatever any arrangement accepts. */
  function SortEmptyFirst(parts: seq<Part>): (r: seq<Part>)
    ensures SortedForm(r, parts) && EmptiesFirst(r)
  {
    if parts == [] then []
    else
      assert parts == parts[..|parts| - 1] + [parts[|parts| - 1]];
      InsertEmptyFirst(parts[|parts| - 1], SortEmptyFirst(parts[..|parts| - 1]))
  }

  lemma ClearMeansDisjoint(parts: seq<Part>, sorted: seq<Part>)
    requires multiset(parts) == multiset(sorted)
    ensures Clear(sorted) ==> PairwiseDisjoint(parts)
  {
    if Clear(sorted) {
      forall i, j | 0 <= i < j < |parts| ensures Disjoint(parts[i], parts[j]) {
        var k, l := TwoPlaces(sorted, parts, i, j);
      }
    }
  }

  lemma DisjointMeansClear(parts: seq<Part>, sorted: seq<Part>)
    requires SortedForm(sorted, parts) && PairwiseDisjoint(parts) && EmptiesFirst(sorted)
    ensures Clear(sorted)
  {
    forall i, j | 0 <= i < j < |sorted| ensures sorted[i].End() <= sorted[j].offset {
      var k, l := TwoPlaces(parts, sorted, i, j);
      if k < l { assert Disjoint(parts[k], parts[l]); } else { assert Disjoint(parts[l], parts[k]); }
    }
  }

  lemma WithinPermutes(a: seq<Part>, b: seq<Part>, size: nat)
    requires multiset(a) == multiset(b) && AllWithin(a, size)
    ensures AllWithin(b, size)
  {
    forall i | 0 <= i < |b| ensures b[i].End() <= size {
      assert b[i] in multiset(a);
    }
  }

  /**
   For fields without ties between empty and non-empty ones, in whatever order they are
   listed and however the sort arranges them: the sweep accepts exactly the fields that are
   pairwise disjoint, inside the struct and within the libffi limit.
   */
  lemma SweepDecides(parts: seq<Part>, sorted: seq<Part>, size: nat, usizeMax: nat)
    requires SortedForm(sorted, parts) && size <= usizeMax && USIZE_MAX_32 <= usizeMax && TieFree(parts)
    ensures var r := Sweep(sorted, size, usizeMax);
      && (r.Ok? <==> PairwiseDisjoint(parts) && AllWithin(parts, size) && LibffiElements(parts, size) <= MAX_LIBFFI_ELEMENTS)
      && (r.Ok? ==> r.value == LibffiElements(parts, size))
  {
    SweepExact(sorted, size, usizeMax);
    TotalsPermute(sorted, parts);
    ClearMeansDisjoint(parts, sorted);
    TieFreeEmptiesFirst(parts, sorted);
    if PairwiseDisjoint(parts) { DisjointMeansClear(parts, sorted); }
    if AllWithin(parts, size) { WithinPermutes(parts, sorted, size); }
    if AllWithin(sorted, size) { WithinPermutes(sorted, parts, size); }
  }

  // ---- with empty fields the order can matter, and exactly when it does ----

  ghost predicate OrderIrrelevant(parts: seq<Part>, size: nat, usizeMax: nat) {
    forall other :: SortedForm(other, parts) ==> Sweep(other, size, usizeMax).Ok?
  }

  // Exchanging an empty field with a later non-empty one at the same offset keeps the list sorted but not clear.
  lemma SwapBreaks(sorted: seq<Part>, i: nat, j: nat)
    requires Sorted(sorted) && Clear(sorted) && i < |sorted| && j < |sorted|
    requires sorted[i].size == 0 && sorted[j].size > 0 && sorted[i].offset == sorted[j].offset
    ensures var swapped := sorted[i := sorted[j]][j := sorted[i]]; SortedForm(swapped, sorted) && !Clear(swapped)
  {
    assert i < j;
    var swapped := sorted[i := sorted[j]][j := sorted[i]];
    assert swapped[i].End() > swapped[j].offset;
  }

  /**
   Fields that one sorted arrangement accepts are accepted by every sorted arrangement if
   and only if no empty field starts where a non-empty one does.
   */
  lemma OrderIrrelevantExactly(sorted: seq<Part>, size: nat, usizeMax: nat)
    requires size <= usizeMax && USIZE_MAX_32 <= usizeMax && Sorted(sorted) && Sweep(sorted, size, usizeMax).Ok?
    ensures OrderIrrelevant(sorted, size, usizeMax) <==> TieFree(sorted)
  {
    SweepExact(sorted, size, usizeMax);
    if TieFree(sorted) {
      forall other | SortedForm(other, sorted) ensures Sweep(other, size, usizeMax).Ok? {
        SweepDecides(sorted, sorted, size, usizeMax);
        SweepDecides(sorted, other, size, usizeMax);
      }
    } else {
      var i, j :| 0 <= i < |sorted| && 0 <= j < |sorted| && sorted[i].size == 0 && sorted[i].offset == sorted[j].offset && sorted[j].size != 0;
      SwapBreaks(sorted, i, j);
      SweepExact(sorted[i := sorted[j]][j := sorted[i]], size, usizeMax);
    }
  }

  /** An empty and a non-empty field at the same offset: one arrangement is accepted, the other refused. */
  lemma TieMatters(empty: Part, full: Part, size: nat, usizeMax: nat)
    requires empty.size == 0 < full.size && empty.offset == full.offset && full.End() <= size <= usizeMax && USIZE_MAX_32 <= usizeMax
    requires size - full.size + empty.elements + full.elements <= MAX_LIBFFI_ELEMENTS
    ensures SortedForm([full, empty], [empty, full])
    ensures Sweep([empty, full], size, usizeMax).Ok?
    ensures Sweep([full, empty], size, usizeMax).Err?
  {
    var first, second := [empty, full], [full, empty];
    SweepExact(first, size, usizeMax);
    SweepExact(second, size, usizeMax);
    assert first[1..] == [full] && [full][1..] == [];
    assert TotalSize([full]) == full.size && TotalElements([full]) == full.elements;
    assert !(second[0].End() <= second[1].offset);
  }
}
