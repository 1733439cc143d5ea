/** Deciding from NUL-framed git name-status output whether a change touches documentation only. */
module DocumentationDiff {
  import opened Wrappers

  const NUL: char := '\0'

  datatype DiffError = NotTerminated | IncompleteRecord

  // ---- the decoder ----

  function Split(text: string): (fields: seq<string>)
    ensures fields != []
  {
    if text == "" then [""]
    else
      var rest := Split(text[1..]);
      if text[0] == NUL then [""] + rest else [[text[0]] + rest[0]] + rest[1..]
  }

  predicate Digits(text: string) {
    forall i :: 0 <= i < |text| ==> '0' <= text[i] <= '9'
  }

  function Number(digits: string): nat
    requires Digits(digits)
  {
    if digits == "" then 0 else Number(digits[..|digits| - 1]) * 10 + (digits[|digits| - 1] as int - '0' as int)
  }

  /** `R` and one to three digits, a similarity of at most 100 percent. */
  predicate IsRename(status: string) {
    2 <= |status| <= 4 && status[0] == 'R' && Digits(status[1..]) && Number(status[1..]) <= 100
  }

  predicate IsPlain(status: string) {
    status == "A" || status == "M" || status == "D"
  }

  /** Ends in `.md`, in either case. */
  predicate IsMarkdown(path: string) {
    |path| >= 3
    && path[|path| - 3] == '.'
    && (path[|path| - 2] == 'm' || path[|path| - 2] == 'M')
    && (path[|path| - 1] == 'd' || path[|path| - 1] == 'D')
  }

  function PathCount(status: string): nat {
    if IsRename(status) then 2 else 1
  }

  function Scan(fields: seq<string>): (r: Result<bool, DiffError>)
    decreases |fields|
  {
    if fields == [] then Ok(true)
    else
      var status, count := fields[0], PathCount(fields[0]);
      if |fields| < 1 + count then Err(IncompleteRecord)
      else if !IsPlain(status) && !IsRename(status) then Ok(false)
      else if exists i :: 1 <= i <= count && !IsMarkdown(fields[i]) then Ok(false)
      else Scan(fields[1 + count..])
  }

  function DocumentationOnly(diff: string): (r: Result<bool, DiffError>) {
    if diff == "" then Ok(false)
    else
      var fields := Split(diff);
      if fields[|fields| - 1] != "" then Err(NotTerminated) else Scan(fields[..|fields| - 1])
  }

  method DocumentationDiff(diff: string) returns (r: Result<bool, DiffError>)
    ensures r == DocumentationOnly(diff)
  {
    if diff == "" { return Ok(false); }
    var fields := Split(diff);
    var last := fields[|fields| - 1];
    fields := fields[..|fields| - 1];
    if last != "" { return Err(NotTerminated); }
    var index := 0;
    while index < |fields|
      invariant 0 <= index <= |fields|
      invariant Scan(fields[index..]) == Scan(fields)
    {
      var status := fields[index];
      var rename := IsRename(status);
      var count := if rename then 2 else 1;
      ghost var rest := fields[index..];
      assert rest[0] == status && |rest| == |fields| - index;
      if |fields| - index - 1 < count { return Err(IncompleteRecord); }
      var paths := fields[index + 1..index + 1 + count];
      assert forall i :: 1 <= i <= count ==> rest[i] == paths[i - 1];
      if !IsPlain(status) && !rename { return Ok(false); }
      if exists i :: 0 <= i < |paths| && !IsMarkdown(paths[i]) {
        ghost var i :| 0 <= i < |paths| && !IsMarkdown(paths[i]);
        assert !IsMarkdown(rest[i + 1]);
        return Ok(false);
      }
      assert rest[1 + count..] == fields[index + 1 + count..];
      index := index + 1 + count;
    }
    r := Ok(true);
  }

  // ---- what git prints ----

  datatype Record = Record(status: string, paths: seq<string>)

  predicate NulFree(text: string) {
    forall i :: 0 <= i < |text| ==> text[i] != NUL
  }

  predicate AllNulFree(fields: seq<string>) {
    forall i :: 0 <= i < |fields| ==> NulFree(fields[i])
  }

  /** Two paths for a rename, one for an addition, change or deletion, and at least one for anything else. */
  predicate Printable(record: Record) {
    && NulFree(record.status) && AllNulFree(record.paths)
    && (IsRename(record.status) ==> |record.paths| == 2)
    && (IsPlain(record.status) ==> |record.paths| == 1)
    && |record.paths| >= 1
  }

  predicate AllPrintable(records: seq<Record>) {
    forall i :: 0 <= i < |records| ==> Printable(records[i])
  }

  /** A documentation change: added, modified, deleted or renamed Markdown. */
  predicate Accepted(record: Record) {
    (IsPlain(record.status) || IsRename(record.status)) && forall i :: 0 <= i < |record.paths| ==> IsMarkdown(record.paths[i])
  }

  predicate AllAccepted(records: seq<Record>) {
    forall i :: 0 <= i < |records| ==> Accepted(records[i])
  }

  function Fields(records: seq<Record>): seq<string> {
    if records == [] then [] else [records[0].status] + records[0].paths + Fields(records[1..])
  }

  /** Every field followed by NUL. */
  function Terminate(fields: seq<string>): string {
    if fields == [] then "" else fields[0] + [NUL] + Terminate(fields[1..])
  }

  function Print(records: seq<Record>): string {
    Terminate(Fields(records))
  }

  // ---- framing loses nothing ----

  lemma {:induction false} SplitField(field: string, rest: string)
    requires NulFree(field)
    ensures Split(field + [NUL] + rest) == [field] + Split(rest)
  {
    if field == "" {
      assert field + [NUL] + rest == [NUL] + rest;
      assert ([NUL] + rest)[1..] == rest;
    } else {
      SplitField(field[1..], rest);
      assert (field + [NUL] + rest)[1..] == field[1..] + [NUL] + rest;
      assert [field[0]] + field[1..] == field;
    }
  }

  lemma {:induction false} SplitTerminated(fields: seq<string>)
    requires AllNulFree(fields)
    ensures Split(Terminate(fields)) == fields + [""]
  {
    if fields != [] {
      SplitField(fields[0], Terminate(fields[1..]));
      SplitTerminated(fields[1..]);
      assert [fields[0]] + (fields[1..] + [""]) == fields + [""];
    }
  }

  /** The other way round: terminated text is made of its fields. */
  lemma {:induction false} TerminateSplit(text: string)
    ensures AllNulFree(Split(text))
    ensures var fields := Split(text); Terminate(fields[..|fields| - 1]) + fields[|fields| - 1] == text
  {
    if text != "" {
      TerminateSplit(text[1..]);
      var rest, fields := Split(text[1..]), Split(text);
      assert text == [text[0]] + text[1..];
      if text[0] == NUL {
        assert fields[..|fields| - 1] == [""] + rest[..|rest| - 1];
        assert "" + [NUL] == [NUL];
      } else if |rest| > 1 {
        assert fields[..|fields| - 1] == [[text[0]] + rest[0]] + rest[1..|rest| - 1];
        assert rest[..|rest| - 1] == [rest[0]] + rest[1..|rest| - 1];
      }
    }
  }

  lemma {:induction false} FieldsNulFree(records: seq<Record>)
    requires AllPrintable(records)
    ensures AllNulFree(Fields(records))
  {
    if records != [] { FieldsNulFree(records[1..]); }
  }

  lemma ScanRecord(record: Record, rest: seq<string>)
    requires Printable(record)
    ensures Scan([record.status] + record.paths + rest) == if Accepted(record) then Scan(rest) else Ok(false)
  {
    var fields, count := [record.status] + record.paths + rest, PathCount(record.status);
    assert fields[0] == record.status && forall i :: 1 <= i <= count ==> fields[i] == record.paths[i - 1];
    if IsPlain(record.status) || IsRename(record.status) {
      assert fields[1 + count..] == rest;
      if !Accepted(record) {
        var i :| 0 <= i < |record.paths| && !IsMarkdown(record.paths[i]);
        assert !IsMarkdown(fields[i + 1]);
      }
    }
  }

  lemma {:induction false} ScanPrinted(records: seq<Record>)
    requires AllPrintable(records)
    ensures Scan(Fields(records)) == Ok(AllAccepted(records))
  {
    if records != [] {
      ScanRecord(records[0], Fields(records[1..]));
      ScanPrinted(records[1..]);
      assert AllAccepted(records) <==> Accepted(records[0]) && AllAccepted(records[1..]) by {
        if Accepted(records[0]) && AllAccepted(records[1..]) {
          forall i | 0 <= i < |records| ensures Accepted(records[i]) {
            if i > 0 { assert records[i] == records[1..][i - 1]; }
          }
        }
      }
    }
  }

  /** The verdict on what git printed: true exactly for a non-empty list of documentation changes, and never an error. */
  lemma PrintedVerdict(records: seq<Record>)
    requires AllPrintable(records)
    ensures DocumentationOnly(Print(records)) == Ok(records != [] && AllAccepted(records))
  {
    var fields := Fields(records);
    FieldsNulFree(records);
    SplitTerminated(fields);
    ScanPrinted(records);
    assert (fields + [""])[..|fields|] == fields;
    if records != [] { assert Print(records) != ""; }
  }

  /** The records a scanned list of fields consists of. */
  function Records(fields: seq<string>): (records: seq<Record>)
    decreases |fields|
  {
    if fields == [] then []
    else
      var count := PathCount(fields[0]);
      if |fields| < 1 + count then [] else [Record(fields[0], fields[1..1 + count])] + Records(fields[1 + count..])
  }

  lemma {:induction false} ScannedRecords(fields: seq<string>)
    requires Scan(fields) == Ok(true) && AllNulFree(fields)
    ensures Fields(Records(fields)) == fields && AllPrintable(Records(fields)) && AllAccepted(Records(fields))
    ensures fields != [] ==> Records(fields) != []
    decreases |fields|
  {
    if fields != [] {
      var count := PathCount(fields[0]);
      var first, rest := Record(fields[0], fields[1..1 + count]), fields[1 + count..];
      ScannedRecords(rest);
      assert fields == [fields[0]] + fields[1..1 + count] + rest;
      assert Records(fields)[1..] == Records(rest);
      assert Accepted(first) by {
        forall i | 0 <= i < count ensures IsMarkdown(first.paths[i]) { assert first.paths[i] == fields[i + 1]; }
      }
      assert Printable(first) by { NotBoth(fields[0]); }
    }
  }

  lemma NotBoth(status: string)
    ensures !(IsPlain(status) && IsRename(status))
  {
  }

  /** On any text at all: the answer is true exactly for the printed form of a non-empty list of documentation changes. */
  lemma TrueExactly(diff: string)
    ensures DocumentationOnly(diff) == Ok(true)
            <==> exists records :: records != [] && AllPrintable(records) && AllAccepted(records) && Print(records) == diff
  {
    if DocumentationOnly(diff) == Ok(true) {
      var fields := Split(diff);
      TerminateSplit(diff);
      var body := fields[..|fields| - 1];
      ScannedRecords(body);
      assert Terminate(body) + "" == Terminate(body);
      assert Print(Records(body)) == diff;
    }
    if exists records :: records != [] && AllPrintable(records) && AllAccepted(records) && Print(records) == diff {
      var records :| records != [] && AllPrintable(records) && AllAccepted(records) && Print(records) == diff;
      PrintedVerdict(records);
    }
  }
}
