/** Aggregate descriptors after JSON decoding: any key may be missing, numbers are unsigned. */
module RawDescriptor {
  import opened Wrappers
  import opened RawSweep

  datatype Kind =
    | I8 | U8 | I16 | U16 | I32 | U32 | I64 | U64 | F32 | F64 | ISize | USize | Guid | Pointer
    | StructKind | UnionKind | OtherKind(name: string)

  datatype AggregateKind = AsStruct | AsUnion

  datatype Layout = Layout(size: Option<nat>, alignment: Option<nat>, fields: FieldList, complete: bool)
  datatype FieldList = NoFields | Fields(list: seq<Field>)
  datatype Field = Field(name: Option<string>, offset: Option<nat>, count: Option<nat>, typ: Option<FieldType>)
  datatype FieldType = FieldType(kind: Option<Kind>, name: Option<string>, layout: Option<Layout>)

  /**
   What the binding runs on: the largest `usize`, the bytes of a pointer, and how its
   unstable sort by offset arranges the fields of a struct.
   */
  datatype Host = Host(usizeMax: nat, pointer: nat, sort: seq<Part> -> seq<Part>)

  ghost predicate HostOk(host: Host) {
    USIZE_MAX_32 <= host.usizeMax && 0 < host.pointer <= 8 && SortOk(host.sort)
  }

  function Usize(value: Option<nat>, host: Host): Option<nat> {
    if value.Some? && value.value <= host.usizeMax then value else None
  }

  function OrZero(value: Option<nat>): nat {
    if value.Some? then value.value else 0
  }

  predicate Nested(kind: Kind) {
    kind.StructKind? || kind.UnionKind?
  }

  function Aggregate(kind: Kind): AggregateKind {
    if kind.UnionKind? then AsUnion else AsStruct
  }

  // ---- qualified names ----

  predicate WhiteSpace(c: char) {
    var code := c as int;
    || 0x9 <= code <= 0xD || code == 0x20 || code == 0x85 || code == 0xA0 || code == 0x1680
    || 0x2000 <= code <= 0x200A || code == 0x2028 || code == 0x2029 || code == 0x202F || code == 0x205F || code == 0x3000
  }

  function Split(name: string): (segments: seq<string>)
    ensures segments != []
  {
    if name == "" then [""]
    else
      var rest := Split(name[1..]);
      if name[0] == '.' then [""] + rest else [[name[0]] + rest[0]] + rest[1..]
  }

  predicate SegmentOk(segment: string) {
    segment != "" && !WhiteSpace(segment[0]) && !WhiteSpace(segment[|segment| - 1])
  }

  /** At least two dot-separated segments, each non-empty and without surrounding white space. */
  predicate QualifiedName(name: string) {
    |Split(name)| >= 2 && forall i :: 0 <= i < |Split(name)| ==> SegmentOk(Split(name)[i])
  }

  predicate Plain(c: char) {
    c != '.' && !WhiteSpace(c)
  }

  /** Every dot has a plain character on both sides. */
  predicate DotsInside(name: string) {
    forall i :: 0 <= i < |name| && name[i] == '.' ==> 0 < i < |name| - 1 && Plain(name[i - 1]) && Plain(name[i + 1])
  }

  /** The first segment is not empty and ends without white space; the others are proper segments. */
  predicate TailOk(segments: seq<string>)
    requires segments != []
  {
    && segments[0] != "" && !WhiteSpace(segments[0][|segments[0]| - 1])
    && forall i :: 1 <= i < |segments| ==> SegmentOk(segments[i])
  }

  predicate TailForm(name: string) {
    name != "" && name[0] != '.' && Plain(name[|name| - 1]) && DotsInside(name)
  }

  // A longer first segment, and a first segment of one character.
  lemma TailFormSame(c: char, rest: string)
    requires c != '.' && rest != "" && rest[0] != '.'
    ensures TailForm([c] + rest) <==> TailForm(rest)
  {
    var name := [c] + rest;
    if DotsInside(name) { DotsShift(name, rest, 1); }
    if DotsInside(rest) { DotsUnshift(name, rest, 1); }
  }

  lemma TailFormDot(c: char, rest: string)
    requires c != '.'
    ensures TailForm([c, '.'] + rest) <==> !WhiteSpace(c) && TailForm(rest) && Plain(rest[0])
  {
    var name := [c, '.'] + rest;
    if DotsInside(name) {
      assert name[1] == '.' && name[1 + 1] == rest[0];
      DotsShift(name, rest, 2);
    }
    if rest != "" && Plain(c) && Plain(rest[0]) && DotsInside(rest) { DotsUnshift(name, rest, 2); }
  }

  lemma DotsUnshift(name: string, rest: string, k: nat)
    requires DotsInside(rest) && k <= |name| && rest == name[k..] && rest != "" && rest[0] != '.'
    requires forall i :: 0 <= i < k && name[i] == '.' ==> 0 < i && Plain(name[i - 1]) && Plain(name[i + 1])
    ensures DotsInside(name)
  {
    forall i | 0 <= i < |name| && name[i] == '.' ensures 0 < i < |name| - 1 && Plain(name[i - 1]) && Plain(name[i + 1]) {
      if i >= k { assert rest[i - k] == '.' && rest[i - k - 1] == name[i - 1] && rest[i - k + 1] == name[i + 1]; }
    }
  }

  lemma DotsShift(name: string, rest: string, k: nat)
    requires DotsInside(name) && k <= |name| && rest == name[k..] && (rest != "" ==> rest[0] != '.')
    ensures DotsInside(rest)
  {
    forall i | 0 <= i < |rest| && rest[i] == '.' ensures 0 < i < |rest| - 1 && Plain(rest[i - 1]) && Plain(rest[i + 1]) {
      assert name[i + k] == '.' && name[i + k - 1] == rest[i - 1] && name[i + k + 1] == rest[i + 1];
    }
  }

  // What splitting does to a first segment of one character, and to a longer one.
  lemma SplitDot(c: char, rest: string)
    requires c != '.'
    ensures Split([c, '.'] + rest) == [[c]] + Split(rest)
  {
    var name := [c, '.'] + rest;
    assert name[1..] == ['.'] + rest && name[1..][1..] == rest;
    assert Split(name[1..]) == [""] + Split(rest) && [c] + "" == [c];
  }

  lemma SplitSame(c: char, rest: string)
    requires c != '.'
    ensures Split([c] + rest) == [[c] + Split(rest)[0]] + Split(rest)[1..]
  {
    assert ([c] + rest)[1..] == rest;
  }

  lemma TailLonger(c: char, segments: seq<string>)
    requires segments != [] && segments[0] != ""
    ensures TailOk([[c] + segments[0]] + segments[1..]) <==> TailOk(segments)
  {
    var all := [[c] + segments[0]] + segments[1..];
    assert all[0][|all[0]| - 1] == segments[0][|segments[0]| - 1];
    assert forall i :: 1 <= i < |all| ==> all[i] == segments[i];
  }

  lemma {:induction false} SplitTail(name: string)
    ensures |Split(name)| >= 2 <==> '.' in name
    ensures name != "" ==> (Split(name)[0] == "" <==> name[0] == '.') && (name[0] != '.' ==> Split(name)[0][0] == name[0])
    ensures TailOk(Split(name)) <==> TailForm(name)
    decreases |name|
  {
    if name != "" {
      var c, rest := name[0], name[1..];
      assert name == [c] + rest;
      SplitTail(rest);
      if c != '.' && rest != "" {
        SplitSame(c, rest);
        if rest[0] == '.' {
          assert name == [c, '.'] + name[2..];
          SplitTail(name[2..]);
          SplitDot(c, name[2..]);
          TailFormDot(c, name[2..]);
          TailAfter([c], Split(name[2..]));
        } else {
          TailFormSame(c, rest);
          TailLonger(c, Split(rest));
        }
      }
    }
  }

  lemma TailAfter(first: string, segments: seq<string>)
    requires first != "" && segments != []
    ensures TailOk([first] + segments) <==> !WhiteSpace(first[|first| - 1]) && TailOk(segments) && !WhiteSpace(segments[0][0])
  {
    var all := [first] + segments;
    assert forall i :: 1 <= i < |all| ==> all[i] == segments[i - 1];
    if TailOk(all) {
      assert SegmentOk(all[1]);
      forall i | 1 <= i < |segments| ensures SegmentOk(segments[i]) { assert all[i + 1] == segments[i]; }
    }
  }

  /** A qualified name has a dot, and plain characters at both ends and on both sides of every dot. */
  lemma QualifiedExactly(name: string)
    ensures QualifiedName(name) <==> '.' in name && Plain(name[0]) && Plain(name[|name| - 1]) && DotsInside(name)
  {
    SplitTail(name);
  }
}
