/**
 Descriptors whose verdict depends on how the unstable sort breaks ties. An empty aggregate
 field that starts where a non-empty field does is the only cause.
 */
module RawTies {
  import opened Wrappers
  import opened RawSweep
  import opened RawDescriptor
  import opened RawValidator
  import opened RawLimits

  // ---- ties anywhere in a descriptor ----

  /** In no struct of the descriptor does an empty field start where a non-empty one does. */
  predicate LayoutTieFree(layout: Layout, kind: AggregateKind, host: Host)
    decreases layout
  {
    layout.fields.Fields? ==>
      && (kind.AsStruct? ==> TieFree(Parts(layout.fields.list, host)))
      && FieldsTieFree(layout.fields.list, host)
  }

  predicate FieldsTieFree(fields: seq<Field>, host: Host)
    decreases fields
  {
    fields == [] || (FieldTieFree(fields[0], host) && FieldsTieFree(fields[1..], host))
  }

  predicate FieldTieFree(field: Field, host: Host)
    decreases field
  {
    field.typ.Some? ==> TypeTieFree(field.typ.value, host)
  }

  predicate TypeTieFree(typ: FieldType, host: Host)
    decreases typ
  {
    typ.kind.Some? && Nested(typ.kind.value) && typ.layout.Some? ==>
      LayoutTieFree(typ.layout.value, Aggregate(typ.kind.value), host)
  }

  // ---- without ties, or with the empty fields first, the sort leaves every struct clear ----

  /** The sort of the host puts empty fields first wherever it matters. */
  ghost predicate PutsEmptyFirst(host: Host) {
    forall parts :: EmptiesFirst(host.sort(parts))
  }

  lemma {:induction false} LayoutClear(name: string, layout: Layout, kind: AggregateKind, path: seq<string>, host: Host)
    requires HostOk(host) && LayoutLimits(name, layout, kind, path, host)
    requires LayoutTieFree(layout, kind, host) || PutsEmptyFirst(host)
    ensures LayoutArranged(layout, kind, host)
    decreases layout
  {
    var parts := Parts(layout.fields.list, host);
    if kind.AsStruct? {
      if TieFree(parts) { TieFreeEmptiesFirst(parts, host.sort(parts)); }
      DisjointMeansClear(parts, host.sort(parts));
    }
    FieldsClear(layout.fields.list, kind, path + [name], host);
  }

  lemma {:induction false} FieldsClear(fields: seq<Field>, kind: AggregateKind, path: seq<string>, host: Host)
    requires HostOk(host) && FieldsLimits(fields, kind, path, host) && (FieldsTieFree(fields, host) || PutsEmptyFirst(host))
    ensures FieldsArranged(fields, host)
    decreases fields
  {
    if fields != [] {
      FieldClear(fields[0], kind, path, host);
      FieldsClear(fields[1..], kind, path, host);
    }
  }

  lemma {:induction false} FieldClear(field: Field, kind: AggregateKind, path: seq<string>, host: Host)
    requires HostOk(host) && FieldLimits(field, kind, path, host) && (FieldTieFree(field, host) || PutsEmptyFirst(host))
    ensures FieldArranged(field, host)
    decreases field
  {
    TypeClear(field.typ.value, path, host);
  }

  lemma {:induction false} TypeClear(typ: FieldType, path: seq<string>, host: Host)
    requires HostOk(host) && TypeLimits(typ, path, host) && (TypeTieFree(typ, host) || PutsEmptyFirst(host))
    ensures TypeArranged(typ, host)
    decreases typ
  {
    if Nested(typ.kind.value) { LayoutClear(typ.name.value, typ.layout.value, Aggregate(typ.kind.value), path, host); }
  }

  // ---- with a tie some sort does not ----

  function Sorting(host: Host, sort: seq<Part> -> seq<Part>): Host {
    host.(sort := sort)
  }

  /** A sort that arranges one list of fields as given. */
  lemma SortAs(parts: seq<Part>, sorted: seq<Part>) returns (sort: seq<Part> -> seq<Part>)
    requires SortedForm(sorted, parts)
    ensures SortOk(sort) && sort(parts) == sorted
  {
    sort := (list: seq<Part>) => if list == parts then sorted else SortByOffset(list);
  }

  lemma TieIn(parts: seq<Part>, sorted: seq<Part>) returns (k: nat, l: nat)
    requires multiset(sorted) == multiset(parts) && !TieFree(parts)
    ensures k < |sorted| && l < |sorted| && sorted[k].size == 0 < sorted[l].size && sorted[k].offset == sorted[l].offset
  {
    var i, j :| 0 <= i < |parts| && 0 <= j < |parts| && parts[i].size == 0 && parts[i].offset == parts[j].offset && parts[j].size != 0;
    assert parts[i] in multiset(sorted) && parts[j] in multiset(sorted);
    k :| 0 <= k < |sorted| && sorted[k] == parts[i];
    l :| 0 <= l < |sorted| && sorted[l] == parts[j];
  }

  lemma PartsBreak(parts: seq<Part>) returns (sort: seq<Part> -> seq<Part>)
    requires PairwiseDisjoint(parts) && !TieFree(parts)
    ensures SortOk(sort) && !Clear(sort(parts))
  {
    var sorted := SortEmptyFirst(parts);
    DisjointMeansClear(parts, sorted);
    var k, l := TieIn(parts, sorted);
    SwapBreaks(sorted, k, l);
    sort := SortAs(parts, sorted[k := sorted[l]][l := sorted[k]]);
  }

  lemma {:induction false} LayoutBreaks(name: string, layout: Layout, kind: AggregateKind, path: seq<string>, host: Host)
    returns (sort: seq<Part> -> seq<Part>)
    requires LayoutLimits(name, layout, kind, path, host) && !LayoutTieFree(layout, kind, host)
    ensures SortOk(sort) && !LayoutArranged(layout, kind, Sorting(host, sort))
    decreases layout
  {
    var fields := layout.fields.list;
    if kind.AsStruct? && !TieFree(Parts(fields, host)) {
      sort := PartsBreak(Parts(fields, host));
      FieldsSame(fields, kind, path, host, Sorting(host, sort));
    } else {
      sort := FieldsBreak(fields, kind, path + [name], host);
    }
  }

  lemma {:induction false} FieldsBreak(fields: seq<Field>, kind: AggregateKind, path: seq<string>, host: Host)
    returns (sort: seq<Part> -> seq<Part>)
    requires FieldsLimits(fields, kind, path, host) && !FieldsTieFree(fields, host)
    ensures SortOk(sort) && !FieldsArranged(fields, Sorting(host, sort))
    decreases fields
  {
    if FieldTieFree(fields[0], host) {
      sort := FieldsBreak(fields[1..], kind, path, host);
    } else {
      sort := FieldBreaks(fields[0], kind, path, host);
    }
  }

  lemma {:induction false} FieldBreaks(field: Field, kind: AggregateKind, path: seq<string>, host: Host)
    returns (sort: seq<Part> -> seq<Part>)
    requires FieldLimits(field, kind, path, host) && !FieldTieFree(field, host)
    ensures SortOk(sort) && !FieldArranged(field, Sorting(host, sort))
    decreases field
  {
    sort := TypeBreaks(field.typ.value, path, host);
  }

  lemma {:induction false} TypeBreaks(typ: FieldType, path: seq<string>, host: Host) returns (sort: seq<Part> -> seq<Part>)
    requires TypeLimits(typ, path, host) && !TypeTieFree(typ, host)
    ensures SortOk(sort) && !TypeArranged(typ, Sorting(host, sort))
    decreases typ
  {
    sort := LayoutBreaks(typ.name.value, typ.layout.value, Aggregate(typ.kind.value), path, host);
  }

  // ---- main results ----

  /** The check accepts the descriptor, sorting as given. */
  predicate AcceptedBy(name: string, layout: Layout, kind: AggregateKind, path: seq<string>, host: Host, sort: seq<Part> -> seq<Part>) {
    ValidateLayout(name, layout, kind, path, Sorting(host, sort)).Ok?
  }

  lemma AcceptedExactly(name: string, layout: Layout, kind: AggregateKind, path: seq<string>, host: Host, sort: seq<Part> -> seq<Part>)
    requires HostOk(host) && SortOk(sort)
    ensures AcceptedBy(name, layout, kind, path, host, sort)
            <==> LayoutLimits(name, layout, kind, path, host) && LayoutArranged(layout, kind, Sorting(host, sort))
  {
    ValidateExact(name, layout, kind, path, Sorting(host, sort));
    LimitsSame(name, layout, kind, path, host, Sorting(host, sort));
  }

  /** Some sort accepts a descriptor if and only if it is within the limits, and then the one that puts empty fields first does. */
  lemma SomeSortAccepts(name: string, layout: Layout, kind: AggregateKind, path: seq<string>, host: Host)
    requires HostOk(host)
    ensures (exists sort :: SortOk(sort) && AcceptedBy(name, layout, kind, path, host, sort))
            <==> LayoutLimits(name, layout, kind, path, host)
    ensures LayoutLimits(name, layout, kind, path, host) <==> AcceptedBy(name, layout, kind, path, host, SortEmptyFirst)
  {
    assert SortOk(SortEmptyFirst);
    AcceptedExactly(name, layout, kind, path, host, SortEmptyFirst);
    LimitsSame(name, layout, kind, path, host, Sorting(host, SortEmptyFirst));
    if LayoutLimits(name, layout, kind, path, host) { LayoutClear(name, layout, kind, path, Sorting(host, SortEmptyFirst)); }
    if sort :| SortOk(sort) && AcceptedBy(name, layout, kind, path, host, sort) {
      AcceptedExactly(name, layout, kind, path, host, sort);
    }
  }

  /**
   Every sort accepts a descriptor if and only if it is within the limits and no struct in
   it has an empty field starting where a non-empty one does.
   */
  lemma EverySortAccepts(name: string, layout: Layout, kind: AggregateKind, path: seq<string>, host: Host)
    requires HostOk(host)
    ensures (forall sort :: SortOk(sort) ==> AcceptedBy(name, layout, kind, path, host, sort))
            <==> LayoutLimits(name, layout, kind, path, host) && LayoutTieFree(layout, kind, host)
  {
    SomeSortAccepts(name, layout, kind, path, host);
    assert SortOk(SortEmptyFirst);
    if LayoutLimits(name, layout, kind, path, host) {
      if LayoutTieFree(layout, kind, host) {
        forall sort | SortOk(sort) ensures AcceptedBy(name, layout, kind, path, host, sort) {
          TieFreeAccepted(name, layout, kind, path, host, sort);
        }
      } else {
        var sort := LayoutBreaks(name, layout, kind, path, host);
        AcceptedExactly(name, layout, kind, path, host, sort);
      }
    }
  }

  lemma TieFreeAccepted(name: string, layout: Layout, kind: AggregateKind, path: seq<string>, host: Host, sort: seq<Part> -> seq<Part>)
    requires HostOk(host) && SortOk(sort) && LayoutLimits(name, layout, kind, path, host) && LayoutTieFree(layout, kind, host)
    ensures AcceptedBy(name, layout, kind, path, host, sort)
  {
    AcceptedExactly(name, layout, kind, path, host, sort);
    LimitsSame(name, layout, kind, path, host, Sorting(host, sort));
    TieFreeSame(layout, kind, host, Sorting(host, sort));
    LayoutClear(name, layout, kind, path, Sorting(host, sort));
  }

  lemma {:induction false} TieFreeSame(layout: Layout, kind: AggregateKind, host: Host, other: Host)
    requires host.pointer == other.pointer
    ensures LayoutTieFree(layout, kind, host) <==> LayoutTieFree(layout, kind, other)
    decreases layout
  {
    if layout.fields.Fields? {
      FieldsSame(layout.fields.list, kind, [], host, other);
      FieldsTieFreeSame(layout.fields.list, host, other);
    }
  }

  lemma {:induction false} FieldsTieFreeSame(fields: seq<Field>, host: Host, other: Host)
    requires host.pointer == other.pointer
    ensures FieldsTieFree(fields, host) <==> FieldsTieFree(fields, other)
    decreases fields
  {
    if fields != [] {
      FieldTieFreeSame(fields[0], host, other);
      FieldsTieFreeSame(fields[1..], host, other);
    }
  }

  lemma {:induction false} FieldTieFreeSame(field: Field, host: Host, other: Host)
    requires host.pointer == other.pointer
    ensures FieldTieFree(field, host) <==> FieldTieFree(field, other)
    decreases field
  {
    if field.typ.Some? { TypeTieFreeSame(field.typ.value, host, other); }
  }

  lemma {:induction false} TypeTieFreeSame(typ: FieldType, host: Host, other: Host)
    requires host.pointer == other.pointer
    ensures TypeTieFree(typ, host) <==> TypeTieFree(typ, other)
    decreases typ
  {
    if typ.kind.Some? && typ.layout.Some? { TieFreeSame(typ.layout.value, Aggregate(typ.kind.value), host, other); }
  }

  // ---- descriptors with a tie ----

  /** A field that is one struct without fields, of size 0, at offset 0. */
  predicate EmptyField(field: Field, inner: string) {
    && field.offset == Some(0) && field.count == Some(1) && field.typ.Some?
    && field.typ.value.kind == Some(StructKind) && field.typ.value.name == Some(inner) && field.typ.value.layout.Some?
    && field.typ.value.layout.value.size == Some(0) && field.typ.value.layout.value.fields == Fields([])
  }

  /** A field that is one signed byte at offset 0. */
  predicate ByteField(field: Field) {
    field.offset == Some(0) && field.count == Some(1) && field.typ.Some? && field.typ.value.kind == Some(I8)
  }

  predicate OneByteStruct(layout: Layout, x: Field, y: Field) {
    layout.size == Some(1) && layout.fields == Fields([x, y])
  }

  lemma NoFieldsMetrics(layout: Layout, path: seq<string>, host: Host)
    requires HostOk(host) && layout.size == Some(0) && layout.fields == Fields([])
    ensures LayoutMetrics(layout, AsStruct, host) == Metrics(0, 0, 0)
    ensures BodyLimits(layout, AsStruct, path, host) && LayoutArranged(layout, AsStruct, host)
  {
    var fields := layout.fields.list;
    assert Parts(fields, host) == [] && TotalSize(Parts(fields, host)) == 0 && TotalElements(Parts(fields, host)) == 0;
    SameLength(host.sort(Parts(fields, host)), Parts(fields, host));
  }

  lemma EmptyType(typ: FieldType, inner: string, path: seq<string>, host: Host)
    requires HostOk(host) && typ.kind == Some(StructKind) && typ.name == Some(inner) && typ.layout.Some?
    requires typ.layout.value.size == Some(0) && typ.layout.value.fields == Fields([])
    requires QualifiedName(inner) && inner !in path && |path| < MAX_NESTING_DEPTH
    ensures TypeMetrics(typ, host) == Metrics(0, 0, 0) && TypeLimits(typ, path, host) && TypeArranged(typ, host)
  {
    NoFieldsMetrics(typ.layout.value, path + [inner], host);
    NestedType(typ, path, host);
  }

  // A struct type is as good as its layout.
  lemma NestedType(typ: FieldType, path: seq<string>, host: Host)
    requires typ.kind == Some(StructKind) && typ.name.Some? && typ.layout.Some?
    ensures TypeMetrics(typ, host) == LayoutMetrics(typ.layout.value, AsStruct, host)
    ensures TypeLimits(typ, path, host) <==> LayoutLimits(typ.name.value, typ.layout.value, AsStruct, path, host)
    ensures TypeArranged(typ, host) <==> LayoutArranged(typ.layout.value, AsStruct, host)
  {
  }

  lemma EmptyPart(field: Field, inner: string, path: seq<string>, host: Host)
    requires HostOk(host) && EmptyField(field, inner) && QualifiedName(inner) && inner !in path && |path| < MAX_NESTING_DEPTH
    ensures FieldMetrics(field, host).expanded == 0
    ensures var p := PartOf(field, host); p.offset == 0 && p.size == 0 && p.elements == 0
    ensures FieldLimits(field, AsStruct, path, host) && FieldArranged(field, host)
  {
    EmptyType(field.typ.value, inner, path, host);
  }

  lemma BytePart(field: Field, path: seq<string>, host: Host)
    requires ByteField(field)
    ensures FieldMetrics(field, host).expanded == 1
    ensures var p := PartOf(field, host); p.offset == 0 && p.size == 1 && p.elements == 1
    ensures FieldLimits(field, AsStruct, path, host) && FieldArranged(field, host)
  {
    assert TypeMetrics(field.typ.value, host) == Metrics(1, 1, 1);
    assert TypeLimits(field.typ.value, path, host);
  }

  lemma PairTotals(p: Part, q: Part)
    ensures TotalSize([p, q]) == p.size + q.size && TotalElements([p, q]) == p.elements + q.elements
  {
    assert [p, q][1..] == [q] && [q][1..] == [];
    assert TotalSize([q]) == q.size && TotalElements([q]) == q.elements;
  }

  /** Two ranges that fit into one byte without overlapping. */
  predicate Tiny(p: Part, q: Part) {
    Disjoint(p, q) && p.End() <= 1 && q.End() <= 1 && 1 + p.elements + q.elements <= MAX_LIBFFI_ELEMENTS
  }

  lemma PairPlaced(p: Part, q: Part)
    requires Tiny(p, q)
    ensures FieldsPlaced([p, q], 1)
  {
    PairTotals(p, q);
  }

  lemma PairParts(x: Field, y: Field, host: Host)
    requires x.count == Some(1) && y.count == Some(1)
    ensures Parts([x, y], host) == [PartOf(x, host), PartOf(y, host)]
    ensures Expanded([x, y], host) == FieldMetrics(x, host).expanded + FieldMetrics(y, host).expanded
  {
    assert [x, y][1..] == [y] && [y][1..] == [];
    assert Parts([y], host) == [PartOf(y, host)];
    assert Expanded([y], host) == FieldMetrics(y, host).expanded;
  }

  /** Such a field of a one-byte struct is itself in order. */
  predicate FieldFits(name: string, field: Field, host: Host) {
    FieldLimits(field, AsStruct, [name], host) && FieldArranged(field, host) && field.count == Some(1) && PartOf(field, host).offset == 0
  }

  lemma PairFields(name: string, x: Field, y: Field, host: Host)
    requires FieldFits(name, x, host) && FieldFits(name, y, host)
    ensures FieldsLimits([x, y], AsStruct, [name], host) && FieldsArranged([x, y], host)
  {
    assert [x, y][1..] == [y] && [y][1..] == [];
    assert FieldsLimits([y], AsStruct, [name], host) && FieldsArranged([y], host);
  }

  lemma PairLimits(name: string, layout: Layout, x: Field, y: Field, host: Host)
    requires QualifiedName(name) && FieldFits(name, x, host) && FieldFits(name, y, host) && OneByteStruct(layout, x, y)
    requires FieldMetrics(x, host).expanded + FieldMetrics(y, host).expanded <= 1
    requires FieldsPlaced([PartOf(x, host), PartOf(y, host)], 1)
    ensures LayoutLimits(name, layout, AsStruct, [], host)
  {
    PairFitsBody(name, layout, x, y, host);
    OutermostLimits(name, layout, host);
  }

  lemma PairFitsBody(name: string, layout: Layout, x: Field, y: Field, host: Host)
    requires FieldFits(name, x, host) && FieldFits(name, y, host) && OneByteStruct(layout, x, y)
    requires FieldMetrics(x, host).expanded + FieldMetrics(y, host).expanded <= 1
    requires FieldsPlaced([PartOf(x, host), PartOf(y, host)], 1)
    ensures BodyLimits(layout, AsStruct, [name], host)
  {
    PairParts(x, y, host);
    PairFields(name, x, y, host);
    PairBody(layout, [name], host);
  }

  lemma OutermostLimits(name: string, layout: Layout, host: Host)
    requires QualifiedName(name) && BodyLimits(layout, AsStruct, [name], host)
    ensures LayoutLimits(name, layout, AsStruct, [], host)
  {
    assert [] + [name] == [name];
  }

  lemma PairArranged(name: string, layout: Layout, x: Field, y: Field, host: Host)
    requires FieldFits(name, x, host) && FieldFits(name, y, host) && OneByteStruct(layout, x, y)
    ensures LayoutArranged(layout, AsStruct, host) <==> Clear(host.sort([PartOf(x, host), PartOf(y, host)]))
  {
    PairParts(x, y, host);
    PairFields(name, x, y, host);
  }

  lemma PairTieFree(layout: Layout, x: Field, y: Field, host: Host)
    requires x.count == Some(1) && y.count == Some(1) && OneByteStruct(layout, x, y)
    ensures LayoutTieFree(layout, AsStruct, host) ==> TieFree([PartOf(x, host), PartOf(y, host)])
  {
    PairParts(x, y, host);
  }

  lemma PairBody(layout: Layout, path: seq<string>, host: Host)
    requires layout.size == Some(1) && layout.fields.Fields? && |layout.fields.list| == 2
    requires FieldsLimits(layout.fields.list, AsStruct, path, host) && Expanded(layout.fields.list, host) <= 1
    requires FieldsPlaced(Parts(layout.fields.list, host), 1)
    ensures BodyLimits(layout, AsStruct, path, host)
  {
  }

  lemma SortOne(p: Part)
    ensures SortByOffset([p]) == [p]
  {
    assert [p][..0] == [] && SortByOffset([]) == [];
  }

  lemma SortPair(p: Part, q: Part)
    requires p.offset == q.offset
    ensures SortByOffset([p, q]) == [p, q]
  {
    SortOne(p);
    assert [p, q][..1] == [p];
    InsertSecond(p, q);
  }

  lemma InsertSecond(p: Part, q: Part)
    requires p.offset == q.offset
    ensures Insert(q, [p]) == [p, q]
  {
    assert [p][1..] == [] && Insert(q, []) == [q];
  }

  lemma PairClear(p: Part, q: Part)
    ensures Clear([p, q]) <==> p.End() <= q.offset
  {
    assert [p, q][0] == p && [p, q][1] == q;
  }

  lemma PairTies(p: Part, q: Part)
    requires p.offset == q.offset && (p.size == 0 < q.size || q.size == 0 < p.size)
    ensures !TieFree([p, q])
  {
    var parts := [p, q];
    if parts[0].size == 0 { assert parts[0].offset == parts[1].offset; } else { assert parts[1].offset == parts[0].offset; }
  }

  /** What the check says of one order, keeping ties as listed: it accepts unless the non-empty field comes first. */
  lemma StableVerdict(name: string, layout: Layout, x: Field, y: Field, host: Host)
    requires HostOk(host) && QualifiedName(name) && FieldFits(name, x, host) && FieldFits(name, y, host)
    requires OneByteStruct(layout, x, y) && FieldMetrics(x, host).expanded + FieldMetrics(y, host).expanded <= 1
    requires FieldsPlaced([PartOf(x, host), PartOf(y, host)], 1) && host.sort == SortByOffset
    ensures ValidateLayout(name, layout, AsStruct, [], host).Ok? <==> PartOf(x, host).End() <= PartOf(y, host).offset
  {
    PairLimits(name, layout, x, y, host);
    PairArranged(name, layout, x, y, host);
    SortPair(PartOf(x, host), PartOf(y, host));
    PairClear(PartOf(x, host), PartOf(y, host));
    ValidateExact(name, layout, AsStruct, [], host);
  }

  lemma TieFits(outer: string, inner: string, empty: Field, byte: Field, host: Host)
    requires HostOk(host) && QualifiedName(inner) && outer != inner && EmptyField(empty, inner) && ByteField(byte)
    ensures FieldFits(outer, empty, host) && FieldFits(outer, byte, host)
    ensures FieldMetrics(empty, host).expanded + FieldMetrics(byte, host).expanded == 1
    ensures Tied(PartOf(empty, host), PartOf(byte, host))
  {
    EmptyFits(outer, inner, empty, host);
    ByteFits(outer, byte, host);
    TiedParts(inner, empty, byte, [outer], host);
  }

  lemma TiedParts(inner: string, empty: Field, byte: Field, path: seq<string>, host: Host)
    requires HostOk(host) && QualifiedName(inner) && inner !in path && |path| < MAX_NESTING_DEPTH
    requires EmptyField(empty, inner) && ByteField(byte)
    ensures Tied(PartOf(empty, host), PartOf(byte, host))
  {
    EmptyPart(empty, inner, path, host);
    BytePart(byte, path, host);
    TiedRanges(PartOf(empty, host), PartOf(byte, host));
  }

  lemma EmptyFits(outer: string, inner: string, field: Field, host: Host)
    requires HostOk(host) && QualifiedName(inner) && outer != inner && EmptyField(field, inner)
    ensures FieldFits(outer, field, host) && FieldMetrics(field, host).expanded == 0
  {
    EmptyPart(field, inner, [outer], host);
  }

  lemma ByteFits(outer: string, field: Field, host: Host)
    requires ByteField(field)
    ensures FieldFits(outer, field, host) && FieldMetrics(field, host).expanded == 1
  {
    BytePart(field, [outer], host);
  }

  lemma TiedRanges(p: Part, q: Part)
    requires p.offset == 0 && p.size == 0 && p.elements == 0 && q.offset == 0 && q.size == 1 && q.elements == 1
    ensures Tied(p, q)
  {
  }

  /** An empty range, and a non-empty one that starts where it does; either order is well placed. */
  predicate Tied(p: Part, q: Part) {
    Tiny(p, q) && Tiny(q, p) && p.offset == q.offset && p.size == 0 < q.size
  }

  /**
   A descriptor of a one-byte struct with an empty struct and a byte, both at offset 0. A
   sort that keeps ties in the order listed accepts it with the empty field first and
   refuses it with the byte first.
   */
  lemma TieDescriptor(outer: string, inner: string, empty: Field, byte: Field, layout: Layout, host: Host)
    requires HostOk(host) && QualifiedName(outer) && QualifiedName(inner) && outer != inner && EmptyField(empty, inner) && ByteField(byte)
    ensures OneByteStruct(layout, empty, byte) ==> AcceptedBy(outer, layout, AsStruct, [], host, SortByOffset)
    ensures OneByteStruct(layout, byte, empty) ==> !AcceptedBy(outer, layout, AsStruct, [], host, SortByOffset)
  {
    assert SortOk(SortByOffset);
    var stable := Sorting(host, SortByOffset);
    TieFits(outer, inner, empty, byte, stable);
    if OneByteStruct(layout, empty, byte) {
      PairVerdict(outer, layout, empty, byte, stable);
    } else if OneByteStruct(layout, byte, empty) {
      PairVerdict(outer, layout, byte, empty, stable);
    }
  }

  lemma PairVerdict(name: string, layout: Layout, x: Field, y: Field, host: Host)
    requires HostOk(host) && QualifiedName(name) && FieldFits(name, x, host) && FieldFits(name, y, host)
    requires OneByteStruct(layout, x, y) && FieldMetrics(x, host).expanded + FieldMetrics(y, host).expanded == 1
    requires Tied(PartOf(x, host), PartOf(y, host)) || Tied(PartOf(y, host), PartOf(x, host))
    ensures LayoutLimits(name, layout, AsStruct, [], host) && !LayoutTieFree(layout, AsStruct, host)
    ensures host.sort == SortByOffset ==>
              (ValidateLayout(name, layout, AsStruct, [], host).Ok? <==> Tied(PartOf(x, host), PartOf(y, host)))
  {
    PairPlaced(PartOf(x, host), PartOf(y, host));
    PairLimits(name, layout, x, y, host);
    PairTieFree(layout, x, y, host);
    PairTies(PartOf(x, host), PartOf(y, host));
    if host.sort == SortByOffset { StableVerdict(name, layout, x, y, host); }
  }

  /** Neither order is accepted by every sort, and both by some. */
  lemma TieUndecided(outer: string, inner: string, empty: Field, byte: Field, layout: Layout, host: Host)
    requires HostOk(host) && QualifiedName(outer) && QualifiedName(inner) && outer != inner
    requires EmptyField(empty, inner) && ByteField(byte) && (OneByteStruct(layout, empty, byte) || OneByteStruct(layout, byte, empty))
    ensures exists sort :: SortOk(sort) && AcceptedBy(outer, layout, AsStruct, [], host, sort)
    ensures exists sort :: SortOk(sort) && !AcceptedBy(outer, layout, AsStruct, [], host, sort)
  {
    TieFits(outer, inner, empty, byte, host);
    if OneByteStruct(layout, empty, byte) {
      PairVerdict(outer, layout, empty, byte, host);
    } else {
      PairVerdict(outer, layout, byte, empty, host);
    }
    SomeSortAccepts(outer, layout, AsStruct, [], host);
    EverySortAccepts(outer, layout, AsStruct, [], host);
  }
}
