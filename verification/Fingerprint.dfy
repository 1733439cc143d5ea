/**
 The byte stream of the native fingerprint: two sorted maps, each entry framed by a kind
 tag and two 64-bit lengths. The digest of the stream is not part of this model.
 */
module Fingerprint {
  import opened Wrappers
  import opened LittleEndian

  type Bytes = seq<byte>

  datatype Entry = Entry(name: Bytes, value: Bytes)

  const SOURCE: Bytes := [0x73, 0x6F, 0x75, 0x72, 0x63, 0x65]
  const CONFIGURATION: Bytes := [0x63, 0x6F, 0x6E, 0x66, 0x69, 0x67, 0x75, 0x72, 0x61, 0x74, 0x69, 0x6F, 0x6E]

  /** A `u64` length. */
  const LENGTH_BYTES := 8

  // ---- sorted maps ----

  predicate Less(a: Bytes, b: Bytes) {
    b != [] && (a == [] || a[0] < b[0] || (a[0] == b[0] && Less(a[1..], b[1..])))
  }

  lemma {:induction false} LessTotal(a: Bytes, b: Bytes)
    ensures Less(a, b) || a == b || Less(b, a)
    ensures !(Less(a, b) && Less(b, a)) && !Less(a, a)
  {
    if a != [] { LessTotal(a[1..], a[1..]); }
    if a != [] && b != [] && a[0] == b[0] {
      LessTotal(a[1..], b[1..]);
      assert a == [a[0]] + a[1..] && b == [b[0]] + b[1..];
    }
  }

  lemma {:induction false} LessTransitive(a: Bytes, b: Bytes, c: Bytes)
    requires Less(a, b) && Less(b, c)
    ensures Less(a, c)
  {
    if a != [] && a[0] == b[0] && b[0] == c[0] { LessTransitive(a[1..], b[1..], c[1..]); }
  }

  /** Entries in the order a sorted map iterates over them. */
  predicate Sorted(entries: seq<Entry>) {
    forall i, j :: 0 <= i < j < |entries| ==> Less(entries[i].name, entries[j].name)
  }

  function AsMap(entries: seq<Entry>): map<Bytes, Bytes> {
    if entries == [] then map[] else AsMap(entries[1..])[entries[0].name := entries[0].value]
  }

  function Insert(entries: seq<Entry>, name: Bytes, value: Bytes): (r: seq<Entry>) {
    if entries == [] then [Entry(name, value)]
    else if name == entries[0].name then [Entry(name, value)] + entries[1..]
    else if Less(name, entries[0].name) then [Entry(name, value)] + entries
    else [entries[0]] + Insert(entries[1..], name, value)
  }

  lemma {:induction false} MapNames(entries: seq<Entry>)
    ensures forall name :: name in AsMap(entries) <==> exists i :: 0 <= i < |entries| && entries[i].name == name
  {
    if entries != [] {
      MapNames(entries[1..]);
      forall name ensures name in AsMap(entries) <==> exists i :: 0 <= i < |entries| && entries[i].name == name {
        if name in AsMap(entries[1..]) {
          var i :| 0 <= i < |entries[1..]| && entries[1..][i].name == name;
          assert entries[i + 1].name == name;
        }
        if exists i :: 0 <= i < |entries| && entries[i].name == name {
          var i :| 0 <= i < |entries| && entries[i].name == name;
          if i > 0 { assert entries[1..][i - 1].name == name; }
        }
      }
    }
  }

  lemma {:induction false} InsertExact(entries: seq<Entry>, name: Bytes, value: Bytes)
    requires Sorted(entries)
    ensures Sorted(Insert(entries, name, value))
    ensures forall i :: 0 <= i < |Insert(entries, name, value)| ==>
              Insert(entries, name, value)[i].name == name || Insert(entries, name, value)[i] in entries
  {
    if entries != [] && name != entries[0].name && !Less(name, entries[0].name) {
      LessTotal(name, entries[0].name);
      InsertExact(entries[1..], name, value);
    } else if entries != [] && Less(name, entries[0].name) {
      forall i | 1 <= i < |entries| ensures Less(name, entries[i].name) { LessTransitive(name, entries[0].name, entries[i].name); }
    }
  }

  lemma {:induction false} InsertMaps(entries: seq<Entry>, name: Bytes, value: Bytes)
    requires Sorted(entries)
    ensures AsMap(Insert(entries, name, value)) == AsMap(entries)[name := value]
  {
    if entries != [] {
      if name == entries[0].name {
        assert Insert(entries, name, value)[1..] == entries[1..];
      } else if Less(name, entries[0].name) {
        assert Insert(entries, name, value)[1..] == entries;
      } else {
        assert Insert(entries, name, value)[1..] == Insert(entries[1..], name, value);
        InsertMaps(entries[1..], name, value);
      }
    }
  }

  /** The sorted map that a sequence of insertions builds. */
  function Inserted(insertions: seq<Entry>): (r: seq<Entry>) {
    if insertions == [] then []
    else
      var last := insertions[|insertions| - 1];
      Insert(Inserted(insertions[..|insertions| - 1]), last.name, last.value)
  }

  lemma {:induction false} InsertedSorted(insertions: seq<Entry>)
    ensures Sorted(Inserted(insertions))
  {
    if insertions != [] {
      var last := insertions[|insertions| - 1];
      InsertedSorted(insertions[..|insertions| - 1]);
      InsertExact(Inserted(insertions[..|insertions| - 1]), last.name, last.value);
    }
  }

  lemma NameOf(a: seq<Entry>, b: seq<Entry>) returns (i: nat)
    requires a != [] && AsMap(a) == AsMap(b)
    ensures i < |b| && b[i].name == a[0].name
  {
    MapNames(b);
    assert a[0].name in AsMap(a);
    i :| 0 <= i < |b| && b[i].name == a[0].name;
  }

  /** The smallest name comes first. */
  lemma SameHead(a: seq<Entry>, b: seq<Entry>)
    requires a != [] && b != [] && Sorted(a) && Sorted(b) && AsMap(a) == AsMap(b)
    ensures a[0] == b[0] && AsMap(a[1..]) == AsMap(b[1..])
  {
    var j := NameOf(a, b);
    var i := NameOf(b, a);
    LessTotal(a[0].name, b[0].name);
    HeadOnly(a);
    HeadOnly(b);
    assert AsMap(a)[a[0].name] == a[0].value && AsMap(b)[b[0].name] == b[0].value;
    assert AsMap(a[1..]) == AsMap(a) - {a[0].name} && AsMap(b[1..]) == AsMap(b) - {b[0].name};
  }

  /** Sorted maps with the same contents are the same list of entries. */
  lemma {:induction false} Canonical(a: seq<Entry>, b: seq<Entry>)
    requires Sorted(a) && Sorted(b) && AsMap(a) == AsMap(b)
    ensures a == b
  {
    if a != [] {
      var j := NameOf(a, b);
      SameHead(a, b);
      Canonical(a[1..], b[1..]);
      assert a == [a[0]] + a[1..] && b == [b[0]] + b[1..];
    } else {
      NamesEmpty(b);
    }
  }

  lemma NamesEmpty(b: seq<Entry>)
    ensures AsMap(b) == map[] <==> b == []
  {
    MapNames(b);
    if b != [] { assert b[0].name in AsMap(b); }
  }

  lemma HeadOnly(a: seq<Entry>)
    requires Sorted(a) && a != []
    ensures a[0].name !in AsMap(a[1..])
  {
    MapNames(a[1..]);
    LessTotal(a[0].name, a[0].name);
    forall i | 0 <= i < |a[1..]| ensures a[1..][i].name != a[0].name { assert a[1..][i] == a[i + 1]; }
  }

  // ---- framing ----

  datatype Kind = Source | Configuration

  function Tag(kind: Kind): Bytes {
    if kind.Source? then SOURCE else CONFIGURATION
  }

  function Frame(kind: Kind, entry: Entry): Bytes {
    Tag(kind) + Encode(|entry.name|, LENGTH_BYTES) + entry.name + Encode(|entry.value|, LENGTH_BYTES) + entry.value
  }

  function Frames(kind: Kind, entries: seq<Entry>): Bytes {
    if entries == [] then [] else Frame(kind, entries[0]) + Frames(kind, entries[1..])
  }

  function Stream(inputs: seq<Entry>, configuration: seq<Entry>): Bytes {
    Frames(Source, inputs) + Frames(Configuration, configuration)
  }

  /** Lengths are 64-bit numbers, as those of every string and buffer in memory are. */
  predicate Representable(entries: seq<Entry>) {
    forall i :: 0 <= i < |entries| ==> |entries[i].name| < Pow256(LENGTH_BYTES) && |entries[i].value| < Pow256(LENGTH_BYTES)
  }

  // ---- reading the stream back ----

  /** A length-prefixed string and what follows it. */
  function ReadString(bytes: Bytes): (r: Option<(Bytes, Bytes)>)
    ensures r.Some? ==> |r.value.1| < |bytes|
  {
    if |bytes| < LENGTH_BYTES then None
    else
      var length := Decode(bytes[..LENGTH_BYTES]);
      if |bytes| < LENGTH_BYTES + length then None else Some((bytes[LENGTH_BYTES..LENGTH_BYTES + length], bytes[LENGTH_BYTES + length..]))
  }

  function StartsWith(bytes: Bytes, tag: Bytes): bool {
    |tag| <= |bytes| && bytes[..|tag|] == tag
  }

  function ReadKind(bytes: Bytes): (kind: Option<Kind>)
    ensures kind.Some? ==> 0 < |Tag(kind.value)| <= |bytes|
  {
    if StartsWith(bytes, SOURCE) then Some(Source) else if StartsWith(bytes, CONFIGURATION) then Some(Configuration) else None
  }

  function ReadEntry(bytes: Bytes): (r: Option<((Kind, Entry), Bytes)>)
    ensures r.Some? ==> |r.value.1| < |bytes|
  {
    var kind := ReadKind(bytes);
    if kind.None? then None
    else
      var name := ReadString(bytes[|Tag(kind.value)|..]);
      if name.None? then None
      else
        var value := ReadString(name.value.1);
        if value.None? then None else Some(((kind.value, Entry(name.value.0, value.value.0)), value.value.1))
  }

  function ReadStream(bytes: Bytes): (r: Option<seq<(Kind, Entry)>>)
    decreases |bytes|
  {
    if bytes == [] then Some([])
    else
      var first := ReadEntry(bytes);
      if first.None? then None
      else
        var rest := ReadStream(first.value.1);
        if rest.None? then None else Some([first.value.0] + rest.value)
  }

  lemma ReadStringBack(s: Bytes, rest: Bytes)
    requires |s| < Pow256(LENGTH_BYTES)
    ensures ReadString(Encode(|s|, LENGTH_BYTES) + s + rest) == Some((s, rest))
  {
    var bytes := Encode(|s|, LENGTH_BYTES) + s + rest;
    DecodeEncode(|s|, LENGTH_BYTES);
    assert bytes[..LENGTH_BYTES] == Encode(|s|, LENGTH_BYTES);
    assert bytes[LENGTH_BYTES..LENGTH_BYTES + |s|] == s && bytes[LENGTH_BYTES + |s|..] == rest;
  }

  lemma ReadKindBack(kind: Kind, rest: Bytes)
    ensures ReadKind(Tag(kind) + rest) == Some(kind)
    ensures (Tag(kind) + rest)[|Tag(kind)|..] == rest
  {
    var bytes := Tag(kind) + rest;
    assert bytes[..|Tag(kind)|] == Tag(kind);
    if kind.Configuration? {
      assert bytes[..|SOURCE|][0] == CONFIGURATION[0] != SOURCE[0];
    }
  }

  lemma ReadEntryBack(kind: Kind, entry: Entry, rest: Bytes)
    requires |entry.name| < Pow256(LENGTH_BYTES) && |entry.value| < Pow256(LENGTH_BYTES)
    ensures ReadEntry(Frame(kind, entry) + rest) == Some(((kind, entry), rest))
  {
    var afterName := Encode(|entry.value|, LENGTH_BYTES) + entry.value + rest;
    var afterTag := Encode(|entry.name|, LENGTH_BYTES) + entry.name + afterName;
    FrameSplits(kind, entry, rest);
    ReadKindBack(kind, afterTag);
    ReadStringBack(entry.name, afterName);
    ReadStringBack(entry.value, rest);
  }

  lemma FrameSplits(kind: Kind, entry: Entry, rest: Bytes)
    ensures Frame(kind, entry) + rest
            == Tag(kind) + (Encode(|entry.name|, LENGTH_BYTES) + entry.name + (Encode(|entry.value|, LENGTH_BYTES) + entry.value + rest))
  {
    Associates(Tag(kind), Encode(|entry.name|, LENGTH_BYTES), entry.name, Encode(|entry.value|, LENGTH_BYTES), entry.value, rest);
  }

  lemma Regroup(a: Bytes, b: Bytes, c: Bytes)
    ensures (a + b) + c == a + (b + c)
  {
  }

  lemma Associates(a: Bytes, b: Bytes, c: Bytes, d: Bytes, e: Bytes, f: Bytes)
    ensures a + b + c + d + e + f == a + (b + c + (d + e + f))
  {
  }

  function Tagged(kind: Kind, entries: seq<Entry>): (r: seq<(Kind, Entry)>)
    ensures |r| == |entries| && forall i :: 0 <= i < |r| ==> r[i] == (kind, entries[i])
  {
    seq(|entries|, i requires 0 <= i < |entries| => (kind, entries[i]))
  }

  lemma ReadStreamStep(bytes: Bytes, kind: Kind, entry: Entry, rest: Bytes)
    requires bytes != [] && ReadEntry(bytes) == Some(((kind, entry), rest)) && ReadStream(rest).Some?
    ensures ReadStream(bytes) == Some([(kind, entry)] + ReadStream(rest).value)
  {
  }

  lemma {:induction false} ReadFramesBack(kind: Kind, entries: seq<Entry>, rest: Bytes)
    requires Representable(entries) && ReadStream(rest).Some?
    ensures ReadStream(Frames(kind, entries) + rest) == Some(Tagged(kind, entries) + ReadStream(rest).value)
    decreases |entries|
  {
    var tail := ReadStream(rest).value;
    if entries == [] {
      assert Frames(kind, entries) + rest == rest;
      assert Tagged(kind, entries) + tail == tail;
    } else {
      var more := Frames(kind, entries[1..]) + rest;
      Regroup(Frame(kind, entries[0]), Frames(kind, entries[1..]), rest);
      ReadEntryBack(kind, entries[0], more);
      ReadFramesBack(kind, entries[1..], rest);
      ReadStreamStep(Frame(kind, entries[0]) + more, kind, entries[0], more);
      TaggedStep(kind, entries, tail);
    }
  }

  lemma TaggedStep(kind: Kind, entries: seq<Entry>, tail: seq<(Kind, Entry)>)
    requires entries != []
    ensures Tagged(kind, entries) + tail == [(kind, entries[0])] + (Tagged(kind, entries[1..]) + tail)
  {
    assert Tagged(kind, entries) == [(kind, entries[0])] + Tagged(kind, entries[1..]);
  }

  /** The stream can be read back: which entries were fed, in which order, and of which kind. */
  lemma StreamReadsBack(inputs: seq<Entry>, configuration: seq<Entry>)
    requires Representable(inputs) && Representable(configuration)
    ensures ReadStream(Stream(inputs, configuration)) == Some(Tagged(Source, inputs) + Tagged(Configuration, configuration))
  {
    assert ReadStream([]) == Some([]);
    ReadFramesBack(Configuration, configuration, []);
    assert Frames(Configuration, configuration) + [] == Frames(Configuration, configuration);
    assert Tagged(Configuration, configuration) + [] == Tagged(Configuration, configuration);
    ReadFramesBack(Source, inputs, Frames(Configuration, configuration));
  }

  /** The entries of one kind. */
  function Select(kind: Kind, list: seq<(Kind, Entry)>): seq<Entry> {
    if list == [] then []
    else if list[0].0 == kind then [list[0].1] + Select(kind, list[1..])
    else Select(kind, list[1..])
  }

  lemma {:induction false} SelectAppend(kind: Kind, a: seq<(Kind, Entry)>, b: seq<(Kind, Entry)>)
    ensures Select(kind, a + b) == Select(kind, a) + Select(kind, b)
  {
    if a == [] {
      assert a + b == b;
    } else {
      assert (a + b)[1..] == a[1..] + b;
      SelectAppend(kind, a[1..], b);
    }
  }

  lemma {:induction false} SelectTagged(kind: Kind, tag: Kind, entries: seq<Entry>)
    ensures Select(kind, Tagged(tag, entries)) == if kind == tag then entries else []
    decreases |entries|
  {
    if entries != [] {
      assert Tagged(tag, entries)[1..] == Tagged(tag, entries[1..]);
      SelectTagged(kind, tag, entries[1..]);
      assert entries == [entries[0]] + entries[1..];
    }
  }

  /** What was fed can be told apart again by kind. */
  lemma TaggedSplits(inputs: seq<Entry>, configuration: seq<Entry>)
    ensures Select(Source, Tagged(Source, inputs) + Tagged(Configuration, configuration)) == inputs
    ensures Select(Configuration, Tagged(Source, inputs) + Tagged(Configuration, configuration)) == configuration
  {
    forall kind: Kind ensures Select(kind, Tagged(Source, inputs) + Tagged(Configuration, configuration))
                              == Select(kind, Tagged(Source, inputs)) + Select(kind, Tagged(Configuration, configuration)) {
      SelectAppend(kind, Tagged(Source, inputs), Tagged(Configuration, configuration));
    }
    SelectTagged(Source, Source, inputs);
    SelectTagged(Source, Configuration, configuration);
    SelectTagged(Configuration, Source, inputs);
    SelectTagged(Configuration, Configuration, configuration);
  }

  /**
   Two builds feed the digest the same stream if and only if their inputs and their
   configurations are the same maps, in whatever order the entries were inserted.
   */
  lemma StreamInjective(inputs: seq<Entry>, configuration: seq<Entry>, inputs': seq<Entry>, configuration': seq<Entry>)
    requires Representable(Inserted(inputs)) && Representable(Inserted(configuration))
    requires Representable(Inserted(inputs')) && Representable(Inserted(configuration'))
    ensures Stream(Inserted(inputs), Inserted(configuration)) == Stream(Inserted(inputs'), Inserted(configuration'))
            <==> AsMap(Inserted(inputs)) == AsMap(Inserted(inputs')) && AsMap(Inserted(configuration)) == AsMap(Inserted(configuration'))
  {
    var a, b, c, d := Inserted(inputs), Inserted(configuration), Inserted(inputs'), Inserted(configuration');
    if Stream(a, b) == Stream(c, d) {
      StreamReadsBack(a, b);
      StreamReadsBack(c, d);
      TaggedSplits(a, b);
      TaggedSplits(c, d);
    }
    if AsMap(a) == AsMap(c) && AsMap(b) == AsMap(d) {
      InsertedSorted(inputs);
      InsertedSorted(inputs');
      InsertedSorted(configuration);
      InsertedSorted(configuration');
      Canonical(a, c);
      Canonical(b, d);
    }
  }

  // ---- the nested loops that feed the digest ----

  class Digest {
    var stream: Bytes

    constructor ()
      ensures stream == []
    {
      stream := [];
    }

    method Update(bytes: Bytes)
      modifies this
      ensures stream == old(stream) + bytes
    {
      stream := stream + bytes;
    }
  }

  method FeedEntry(digest: Digest, kind: Kind, entry: Entry)
    modifies digest
    ensures digest.stream == old(digest.stream) + Frame(kind, entry)
  {
    ghost var before := digest.stream;
    digest.Update(Tag(kind));
    digest.Update(Encode(|entry.name|, LENGTH_BYTES));
    digest.Update(entry.name);
    digest.Update(Encode(|entry.value|, LENGTH_BYTES));
    digest.Update(entry.value);
    Associates(before, Tag(kind), Encode(|entry.name|, LENGTH_BYTES), entry.name, Encode(|entry.value|, LENGTH_BYTES), entry.value);
    Associates([], Tag(kind), Encode(|entry.name|, LENGTH_BYTES), entry.name, Encode(|entry.value|, LENGTH_BYTES), entry.value);
  }

  lemma FramesAppend(kind: Kind, entries: seq<Entry>, index: nat)
    requires index < |entries|
    ensures Frames(kind, entries[..index + 1]) == Frames(kind, entries[..index]) + Frame(kind, entries[index])
  {
    FramesSplit(kind, entries[..index], [entries[index]]);
    assert entries[..index + 1] == entries[..index] + [entries[index]];
    assert Frames(kind, [entries[index]]) == Frame(kind, entries[index]) + [];
  }

  lemma {:induction false} FramesSplit(kind: Kind, a: seq<Entry>, b: seq<Entry>)
    ensures Frames(kind, a + b) == Frames(kind, a) + Frames(kind, b)
  {
    if a == [] {
      assert a + b == b;
    } else {
      assert (a + b)[1..] == a[1..] + b;
      FramesSplit(kind, a[1..], b);
    }
  }

  method FeedEntries(digest: Digest, kind: Kind, entries: seq<Entry>)
    modifies digest
    ensures digest.stream == old(digest.stream) + Frames(kind, entries)
  {
    ghost var start := digest.stream;
    assert start + Frames(kind, entries[..0]) == start;
    for index := 0 to |entries|
      invariant digest.stream == start + Frames(kind, entries[..index])
    {
      FeedEntry(digest, kind, entries[index]);
      FramesAppend(kind, entries, index);
      Regroup(start, Frames(kind, entries[..index]), Frame(kind, entries[index]));
    }
    assert entries[..|entries|] == entries;
  }

  /** `fingerprint` up to the digest of the stream. */
  method Feed(inputs: seq<Entry>, configuration: seq<Entry>) returns (digest: Digest)
    ensures fresh(digest) && digest.stream == Stream(inputs, configuration)
  {
    digest := new Digest();
    FeedEntries(digest, Source, inputs);
    FeedEntries(digest, Configuration, configuration);
    assert [] + Frames(Source, inputs) == Frames(Source, inputs);
  }
}
