/** What the raw limits check accepts, stated in unbounded integers over the descriptor tree. */
module RawLimits {
  import opened Wrappers
  import opened RawSweep
  import opened RawDescriptor
  import opened RawValidator

  // ---- the metrics a descriptor describes ----

  function TypeMetrics(typ: FieldType, host: Host): Metrics
    decreases typ
  {
    if typ.kind.None? || typ.kind.value.OtherKind? then Metrics(0, 0, 0)
    else if !Nested(typ.kind.value) then ScalarMetrics(typ.kind.value, host)
    else if typ.layout.None? then Metrics(0, 0, 0)
    else
      var m := LayoutMetrics(typ.layout.value, Aggregate(typ.kind.value), host);
      if typ.kind.value.UnionKind? then m.(elements := m.size) else m
  }

  function LayoutMetrics(layout: Layout, kind: AggregateKind, host: Host): Metrics
    decreases layout
  {
    var size := OrZero(layout.size);
    if layout.fields.NoFields? then Metrics(size, 0, 0)
    else
      var count := LibffiElements(Parts(layout.fields.list, host), size);
      Metrics(size, Expanded(layout.fields.list, host), if kind.AsStruct? && count >= 0 then count else 0)
  }

  /** How many fields remain when every repetition and every nesting is written out. */
  function Expanded(fields: seq<Field>, host: Host): nat
    decreases fields
  {
    if fields == [] then 0 else FieldMetrics(fields[0], host).expanded * OrZero(fields[0].count) + Expanded(fields[1..], host)
  }

  function FieldMetrics(field: Field, host: Host): Metrics
    decreases field, 0
  {
    if field.typ.None? then Metrics(0, 0, 0) else TypeMetrics(field.typ.value, host)
  }

  function PartOf(field: Field, host: Host): Part
    decreases field, 1
  {
    var m, count := FieldMetrics(field, host), OrZero(field.count);
    Part(OrZero(field.offset), m.size * count, m.elements * count)
  }

  function Parts(fields: seq<Field>, host: Host): (r: seq<Part>)
    ensures |r| == |fields|
    decreases fields
  {
    if fields == [] then [] else [PartOf(fields[0], host)] + Parts(fields[1..], host)
  }

  // ---- the limits ----

  /** No two fields share a byte, all lie inside the struct, and libffi can hold it. */
  predicate FieldsPlaced(parts: seq<Part>, size: nat) {
    PairwiseDisjoint(parts) && AllWithin(parts, size) && LibffiElements(parts, size) <= MAX_LIBFFI_ELEMENTS
  }

  predicate LayoutLimits(name: string, layout: Layout, kind: AggregateKind, path: seq<string>, host: Host)
    decreases layout, 1
  {
    QualifiedName(name) && |path| < MAX_NESTING_DEPTH && name !in path && BodyLimits(layout, kind, path + [name], host)
  }

  predicate BodyLimits(layout: Layout, kind: AggregateKind, path: seq<string>, host: Host)
    decreases layout, 0
  {
    && layout.size.Some? && layout.size.value <= MAX_BYTE_SIZE
    && layout.fields.Fields? && |layout.fields.list| <= MAX_FIELD_EXPANSION
    && FieldsLimits(layout.fields.list, kind, path, host)
    && Expanded(layout.fields.list, host) <= MAX_FIELD_EXPANSION
    && (kind.AsStruct? ==> FieldsPlaced(Parts(layout.fields.list, host), layout.size.value))
  }

  predicate FieldsLimits(fields: seq<Field>, kind: AggregateKind, path: seq<string>, host: Host)
    decreases fields
  {
    fields == [] || (FieldLimits(fields[0], kind, path, host) && FieldsLimits(fields[1..], kind, path, host))
  }

  predicate FieldLimits(field: Field, kind: AggregateKind, path: seq<string>, host: Host)
    decreases field
  {
    && field.count.Some? && 1 <= field.count.value <= MAX_FIELD_EXPANSION
    && field.typ.Some? && TypeLimits(field.typ.value, path, host)
    && (kind.AsStruct? ==> field.offset.Some?)
  }

  predicate TypeLimits(typ: FieldType, path: seq<string>, host: Host)
    decreases typ
  {
    && typ.kind.Some? && !typ.kind.value.OtherKind?
    && (Nested(typ.kind.value) ==>
          typ.name.Some? && typ.layout.Some? && LayoutLimits(typ.name.value, typ.layout.value, Aggregate(typ.kind.value), path, host))
  }

  // ---- how the sort arranges the fields of each struct ----

  /** In every struct of the descriptor each field, as the sort of the host arranges them, ends before the next starts. */
  predicate LayoutArranged(layout: Layout, kind: AggregateKind, host: Host)
    decreases layout
  {
    layout.fields.Fields? ==>
      && (kind.AsStruct? ==> Clear(host.sort(Parts(layout.fields.list, host))))
      && FieldsArranged(layout.fields.list, host)
  }

  predicate FieldsArranged(fields: seq<Field>, host: Host)
    decreases fields
  {
    fields == [] || (FieldArranged(fields[0], host) && FieldsArranged(fields[1..], host))
  }

  predicate FieldArranged(field: Field, host: Host)
    decreases field
  {
    field.typ.Some? ==> TypeArranged(field.typ.value, host)
  }

  predicate TypeArranged(typ: FieldType, host: Host)
    decreases typ
  {
    typ.kind.Some? && Nested(typ.kind.value) && typ.layout.Some? ==>
      LayoutArranged(typ.layout.value, Aggregate(typ.kind.value), host)
  }

  // ---- the sweep of one struct ----

  /** However the fields are arranged: what is accepted is well placed and clear, and nothing else is refused. */
  lemma AcceptedPlaced(parts: seq<Part>, sorted: seq<Part>, size: nat, usizeMax: nat)
    requires SortedForm(sorted, parts) && size <= usizeMax && USIZE_MAX_32 <= usizeMax
    ensures var r := Sweep(sorted, size, usizeMax);
      && (r.Ok? <==> FieldsPlaced(parts, size) && Clear(sorted))
      && (r.Ok? ==> r.value == LibffiElements(parts, size) && TotalElements(parts) <= MAX_LIBFFI_ELEMENTS)
  {
    SweepExact(sorted, size, usizeMax);
    TotalsPermute(sorted, parts);
    ClearMeansDisjoint(parts, sorted);
    if AllWithin(sorted, size) { WithinPermutes(sorted, parts, size); }
    if AllWithin(parts, size) { WithinPermutes(parts, sorted, size); }
    if Clear(sorted) { CountMonotone(sorted, 0); }
  }

  lemma {:induction false} ElementsBelowTotal(parts: seq<Part>, i: nat)
    requires i < |parts|
    ensures parts[i].elements <= TotalElements(parts)
  {
    if i > 0 { ElementsBelowTotal(parts[1..], i - 1); }
  }

  // ---- the check and the limits agree ----

  predicate PartFits(part: Part) {
    part.End() <= MAX_BYTE_SIZE && part.elements <= MAX_LIBFFI_ELEMENTS
  }

  /** What measuring one field decides, given the metrics of its type. */
  lemma MeasureExact(field: Field, kind: AggregateKind, m: Metrics, host: Host, expanded: nat)
    requires HostOk(host) && field.count.Some? && 1 <= field.count.value <= MAX_FIELD_EXPANSION && m == FieldMetrics(field, host)
    ensures var r := Measure(field, kind, m, field.count.value, host, expanded);
            var total := expanded + m.expanded * field.count.value;
      && (r.Ok? ==> r.value.0 == total <= MAX_FIELD_EXPANSION)
      && (r.Ok? && kind.AsStruct? ==> field.offset.Some? && r.value.1 == PartOf(field, host))
      && (total <= MAX_FIELD_EXPANSION && (kind.AsStruct? ==> field.offset.Some? && PartFits(PartOf(field, host))) ==> r.Ok?)
  {
  }

  ghost predicate TypeAgrees(typ: FieldType, path: seq<string>, host: Host) {
    var r := ValidateType(typ, path, host);
    && (r.Ok? <==> TypeLimits(typ, path, host) && TypeArranged(typ, host))
    && (r.Ok? ==> r.value == TypeMetrics(typ, host))
  }

  ghost predicate LayoutAgrees(name: string, layout: Layout, kind: AggregateKind, path: seq<string>, host: Host) {
    var r := ValidateLayout(name, layout, kind, path, host);
    && (r.Ok? <==> LayoutLimits(name, layout, kind, path, host) && LayoutArranged(layout, kind, host))
    && (r.Ok? ==> r.value == LayoutMetrics(layout, kind, host))
  }

  predicate AllFit(parts: seq<Part>) {
    forall i :: 0 <= i < |parts| ==> PartFits(parts[i])
  }

  lemma {:induction false} ScanSound(fields: seq<Field>, kind: AggregateKind, path: seq<string>, host: Host, expanded: nat, parts: seq<Part>)
    requires HostOk(host) && expanded <= MAX_FIELD_EXPANSION && ScanFields(fields, kind, path, host, expanded, parts).Ok?
    ensures var r := ScanFields(fields, kind, path, host, expanded, parts).value;
      && FieldsLimits(fields, kind, path, host) && FieldsArranged(fields, host)
      && r.0 == expanded + Expanded(fields, host) <= MAX_FIELD_EXPANSION
      && (kind.AsStruct? ==> r.1 == parts + Parts(fields, host))
    decreases fields, 0
  {
    if fields != [] {
      FieldExact(fields[0], path, host);
      var one := ScanField(fields[0], kind, path, host, expanded).value;
      MeasureExact(fields[0], kind, FieldMetrics(fields[0], host), host, expanded);
      var parts' := if kind.AsStruct? then parts + [one.1] else parts;
      ScanSound(fields[1..], kind, path, host, one.0, parts');
      if kind.AsStruct? { assert parts + [one.1] + Parts(fields[1..], host) == parts + Parts(fields, host); }
    }
  }

  lemma {:induction false} ScanComplete(fields: seq<Field>, kind: AggregateKind, path: seq<string>, host: Host, expanded: nat, parts: seq<Part>)
    requires HostOk(host) && FieldsLimits(fields, kind, path, host) && FieldsArranged(fields, host)
    requires expanded + Expanded(fields, host) <= MAX_FIELD_EXPANSION && (kind.AsStruct? ==> AllFit(Parts(fields, host)))
    ensures ScanFields(fields, kind, path, host, expanded, parts).Ok?
    decreases fields
  {
    if fields != [] {
      FieldExact(fields[0], path, host);
      MeasureExact(fields[0], kind, FieldMetrics(fields[0], host), host, expanded);
      var one := ScanField(fields[0], kind, path, host, expanded);
      assert kind.AsStruct? ==> Parts(fields, host)[0] == PartOf(fields[0], host) && Parts(fields, host)[1..] == Parts(fields[1..], host);
      ScanComplete(fields[1..], kind, path, host, one.value.0, if kind.AsStruct? then parts + [one.value.1] else parts);
    }
  }

  lemma {:induction false} TypeExact(typ: FieldType, path: seq<string>, host: Host)
    requires HostOk(host)
    ensures TypeAgrees(typ, path, host)
    decreases typ
  {
    if typ.kind.Some? && Nested(typ.kind.value) && typ.name.Some? && typ.layout.Some? {
      ValidateExact(typ.name.value, typ.layout.value, Aggregate(typ.kind.value), path, host);
    }
  }

  lemma {:induction false} FieldExact(field: Field, path: seq<string>, host: Host)
    requires HostOk(host)
    ensures field.typ.Some? ==> TypeAgrees(field.typ.value, path, host)
    decreases field
  {
    if field.typ.Some? { TypeExact(field.typ.value, path, host); }
  }

  lemma FinishSound(size: nat, kind: AggregateKind, expanded: nat, parts: seq<Part>, host: Host)
    requires HostOk(host) && size <= MAX_BYTE_SIZE
    ensures var r := Finish(size, kind, expanded, parts, host);
      r.Ok? ==>
        && r.value.size == size && r.value.expanded == expanded
        && (kind.AsStruct? ==> FieldsPlaced(parts, size) && Clear(host.sort(parts)) && r.value.elements == LibffiElements(parts, size))
        && (kind.AsUnion? ==> r.value.elements == 0)
  {
    if kind.AsStruct? { AcceptedPlaced(parts, host.sort(parts), size, host.usizeMax); }
  }

  lemma MetricsOf(layout: Layout, kind: AggregateKind, host: Host, r: Metrics)
    requires layout.size.Some? && layout.fields.Fields?
    requires r.size == layout.size.value && r.expanded == Expanded(layout.fields.list, host)
    requires kind.AsStruct? ==> r.elements == LibffiElements(Parts(layout.fields.list, host), r.size)
    requires kind.AsUnion? ==> r.elements == 0
    ensures r == LayoutMetrics(layout, kind, host)
  {
  }

  lemma {:induction false} ScannedWhole(fields: seq<Field>, kind: AggregateKind, path: seq<string>, host: Host, expanded: nat, parts: seq<Part>)
    requires HostOk(host) && ScanFields(fields, kind, path, host, 0, []) == Ok((expanded, parts))
    ensures FieldsLimits(fields, kind, path, host) && FieldsArranged(fields, host)
    ensures expanded == Expanded(fields, host) <= MAX_FIELD_EXPANSION && (kind.AsStruct? ==> parts == Parts(fields, host))
    decreases fields, 1
  {
    ScanSound(fields, kind, path, host, 0, []);
    assert [] + Parts(fields, host) == Parts(fields, host);
  }

  lemma {:induction false} BodySound(layout: Layout, kind: AggregateKind, path: seq<string>, host: Host, r: Metrics)
    requires HostOk(host) && ValidateBody(layout, kind, path, host) == Ok(r)
    ensures BodyLimits(layout, kind, path, host) && LayoutArranged(layout, kind, host)
    ensures r == LayoutMetrics(layout, kind, host)
    decreases layout, 0
  {
    var scanned := ScanFields(layout.fields.list, kind, path, host, 0, []).value;
    ScannedWhole(layout.fields.list, kind, path, host, scanned.0, scanned.1);
    FinishSound(layout.size.value, kind, scanned.0, scanned.1, host);
    MetricsOf(layout, kind, host, r);
  }

  lemma {:induction false} BodyComplete(layout: Layout, kind: AggregateKind, path: seq<string>, host: Host)
    requires HostOk(host) && BodyLimits(layout, kind, path, host) && LayoutArranged(layout, kind, host)
    ensures ValidateBody(layout, kind, path, host).Ok?
    decreases layout, 0
  {
    var fields := layout.fields.list;
    var parts := Parts(fields, host);
    if kind.AsStruct? {
      AcceptedPlaced(parts, host.sort(parts), layout.size.value, host.usizeMax);
      AllPartsFit(parts, layout.size.value);
    }
    ScanComplete(fields, kind, path, host, 0, []);
    ScanSound(fields, kind, path, host, 0, []);
    assert [] + parts == parts;
  }

  lemma AllPartsFit(parts: seq<Part>, size: nat)
    requires AllWithin(parts, size) && size <= MAX_BYTE_SIZE && TotalElements(parts) <= MAX_LIBFFI_ELEMENTS
    ensures AllFit(parts)
  {
    forall i | 0 <= i < |parts| ensures PartFits(parts[i]) {
      ElementsBelowTotal(parts, i);
    }
  }

  /**
   However its sort breaks ties, the check accepts exactly the descriptors that are within
   the limits and that the sort leaves clear, and returns the metrics they describe.
   */
  lemma {:induction false} ValidateExact(name: string, layout: Layout, kind: AggregateKind, path: seq<string>, host: Host)
    requires HostOk(host)
    ensures LayoutAgrees(name, layout, kind, path, host)
    decreases layout, 1
  {
    var body := ValidateBody(layout, kind, path + [name], host);
    if body.Ok? { BodySound(layout, kind, path + [name], host, body.value); }
    if BodyLimits(layout, kind, path + [name], host) && LayoutArranged(layout, kind, host) { BodyComplete(layout, kind, path + [name], host); }
  }

  /** Verdict and metrics are the same whatever the width of `usize`, empty fields or not. */
  lemma WidthIrrelevant(name: string, layout: Layout, kind: AggregateKind, path: seq<string>, host: Host, usizeMax: nat)
    requires HostOk(host) && USIZE_MAX_32 <= usizeMax
    ensures var other := host.(usizeMax := usizeMax);
      && (ValidateLayout(name, layout, kind, path, host).Ok? <==> ValidateLayout(name, layout, kind, path, other).Ok?)
      && (ValidateLayout(name, layout, kind, path, host).Ok? ==>
            ValidateLayout(name, layout, kind, path, host) == ValidateLayout(name, layout, kind, path, other))
  {
    var other := host.(usizeMax := usizeMax);
    ValidateExact(name, layout, kind, path, host);
    ValidateExact(name, layout, kind, path, other);
    LimitsSame(name, layout, kind, path, host, other);
    ArrangedSame(layout, kind, host, other);
  }

  lemma {:induction false} ArrangedSame(layout: Layout, kind: AggregateKind, host: Host, other: Host)
    requires host.pointer == other.pointer && host.sort == other.sort
    ensures LayoutArranged(layout, kind, host) <==> LayoutArranged(layout, kind, other)
    decreases layout
  {
    if layout.fields.Fields? {
      FieldsSame(layout.fields.list, kind, [], host, other);
      FieldsArrangedSame(layout.fields.list, host, other);
    }
  }

  lemma {:induction false} FieldsArrangedSame(fields: seq<Field>, host: Host, other: Host)
    requires host.pointer == other.pointer && host.sort == other.sort
    ensures FieldsArranged(fields, host) <==> FieldsArranged(fields, other)
    decreases fields
  {
    if fields != [] {
      FieldArrangedSame(fields[0], host, other);
      FieldsArrangedSame(fields[1..], host, other);
    }
  }

  lemma {:induction false} FieldArrangedSame(field: Field, host: Host, other: Host)
    requires host.pointer == other.pointer && host.sort == other.sort
    ensures FieldArranged(field, host) <==> FieldArranged(field, other)
    decreases field
  {
    if field.typ.Some? { TypeArrangedSame(field.typ.value, host, other); }
  }

  lemma {:induction false} TypeArrangedSame(typ: FieldType, host: Host, other: Host)
    requires host.pointer == other.pointer && host.sort == other.sort
    ensures TypeArranged(typ, host) <==> TypeArranged(typ, other)
    decreases typ
  {
    if typ.kind.Some? && typ.layout.Some? { ArrangedSame(typ.layout.value, Aggregate(typ.kind.value), host, other); }
  }

  // The limits and the metrics mention only the pointer size of the host.
  lemma {:induction false} TypeSame(typ: FieldType, path: seq<string>, host: Host, other: Host)
    requires host.pointer == other.pointer
    ensures TypeMetrics(typ, host) == TypeMetrics(typ, other)
    ensures TypeLimits(typ, path, host) <==> TypeLimits(typ, path, other)
    decreases typ
  {
    if typ.kind.Some? && typ.layout.Some? {
      BodySame(typ.layout.value, Aggregate(typ.kind.value), path + [OrEmpty(typ.name)], host, other);
    }
  }

  function OrEmpty(name: Option<string>): string {
    if name.Some? then name.value else ""
  }

  lemma {:induction false} FieldsSame(fields: seq<Field>, kind: AggregateKind, path: seq<string>, host: Host, other: Host)
    requires host.pointer == other.pointer
    ensures Expanded(fields, host) == Expanded(fields, other) && Parts(fields, host) == Parts(fields, other)
    ensures FieldsLimits(fields, kind, path, host) <==> FieldsLimits(fields, kind, path, other)
    decreases fields
  {
    if fields != [] {
      FieldSame(fields[0], path, host, other);
      FieldsSame(fields[1..], kind, path, host, other);
    }
  }

  lemma {:induction false} FieldSame(field: Field, path: seq<string>, host: Host, other: Host)
    requires host.pointer == other.pointer
    ensures FieldMetrics(field, host) == FieldMetrics(field, other)
    ensures field.typ.Some? ==> (TypeLimits(field.typ.value, path, host) <==> TypeLimits(field.typ.value, path, other))
    decreases field
  {
    if field.typ.Some? { TypeSame(field.typ.value, path, host, other); }
  }

  lemma {:induction false} BodySame(layout: Layout, kind: AggregateKind, path: seq<string>, host: Host, other: Host)
    requires host.pointer == other.pointer
    ensures LayoutMetrics(layout, kind, host) == LayoutMetrics(layout, kind, other)
    ensures BodyLimits(layout, kind, path, host) <==> BodyLimits(layout, kind, path, other)
    decreases layout
  {
    if layout.fields.Fields? { FieldsSame(layout.fields.list, kind, path, host, other); }
  }

  lemma LimitsSame(name: string, layout: Layout, kind: AggregateKind, path: seq<string>, host: Host, other: Host)
    requires host.pointer == other.pointer
    ensures LayoutMetrics(layout, kind, host) == LayoutMetrics(layout, kind, other)
    ensures LayoutLimits(name, layout, kind, path, host) <==> LayoutLimits(name, layout, kind, path, other)
  {
    BodySame(layout, kind, path + [name], host, other);
  }

  // ---- depth and names ----

  /** How many aggregates are nested in one another, this one included. */
  function Depth(layout: Layout): nat
    decreases layout
  {
    1 + (if layout.fields.Fields? then FieldsDepth(layout.fields.list) else 0)
  }

  function FieldsDepth(fields: seq<Field>): nat
    decreases fields
  {
    if fields == [] then 0 else Max(FieldDepth(fields[0]), FieldsDepth(fields[1..]))
  }

  function FieldDepth(field: Field): nat
    decreases field
  {
    if field.typ.Some? then TypeDepth(field.typ.value) else 0
  }

  function TypeDepth(typ: FieldType): nat
    decreases typ
  {
    if typ.kind.Some? && Nested(typ.kind.value) && typ.layout.Some? then Depth(typ.layout.value) else 0
  }

  function Max(a: nat, b: nat): nat {
    if a < b then b else a
  }

  lemma {:induction false} LimitsBoundDepth(name: string, layout: Layout, kind: AggregateKind, path: seq<string>, host: Host)
    requires LayoutLimits(name, layout, kind, path, host)
    ensures |path| + Depth(layout) <= MAX_NESTING_DEPTH
    decreases layout
  {
    FieldsBoundDepth(layout.fields.list, kind, path + [name], host);
  }

  lemma {:induction false} FieldsBoundDepth(fields: seq<Field>, kind: AggregateKind, path: seq<string>, host: Host)
    requires FieldsLimits(fields, kind, path, host) && |path| <= MAX_NESTING_DEPTH
    ensures |path| + FieldsDepth(fields) <= MAX_NESTING_DEPTH
    decreases fields
  {
    if fields != [] {
      FieldBoundDepth(fields[0], kind, path, host);
      FieldsBoundDepth(fields[1..], kind, path, host);
    }
  }

  lemma {:induction false} FieldBoundDepth(field: Field, kind: AggregateKind, path: seq<string>, host: Host)
    requires FieldLimits(field, kind, path, host) && |path| <= MAX_NESTING_DEPTH
    ensures |path| + FieldDepth(field) <= MAX_NESTING_DEPTH
    decreases field
  {
    TypeBoundDepth(field.typ.value, path, host);
  }

  lemma {:induction false} TypeBoundDepth(typ: FieldType, path: seq<string>, host: Host)
    requires TypeLimits(typ, path, host) && |path| <= MAX_NESTING_DEPTH
    ensures |path| + TypeDepth(typ) <= MAX_NESTING_DEPTH
    decreases typ
  {
    if Nested(typ.kind.value) { LimitsBoundDepth(typ.name.value, typ.layout.value, Aggregate(typ.kind.value), path, host); }
  }

  /** An accepted descriptor nests at most 32 deep and expands to at most 65536 fixed fields. */
  lemma AcceptedBounded(name: string, layout: Layout, kind: AggregateKind, host: Host)
    requires HostOk(host) && ValidateLayout(name, layout, kind, [], host).Ok?
    ensures Depth(layout) <= MAX_NESTING_DEPTH
    ensures LayoutMetrics(layout, kind, host).expanded <= MAX_FIELD_EXPANSION
    ensures LayoutLimits(name, layout, kind, [], host)
  {
    ValidateExact(name, layout, kind, [], host);
    assert BodyLimits(layout, kind, [] + [name], host);
    LimitsBoundDepth(name, layout, kind, [], host);
  }

  // ---- scalars ----

  /** The numbers a scalar is passed to libffi as, by their bits; the GUID as the structure it is. */
  function AbiNumbers(kind: Kind, host: Host): (bits: seq<nat>)
    requires !Nested(kind) && !kind.OtherKind?
  {
    if kind.I8? || kind.U8? then [8]
    else if kind.I16? || kind.U16? then [16]
    else if kind.I32? || kind.U32? || kind.F32? then [32]
    else if kind.I64? || kind.U64? || kind.F64? then [64]
    else if kind.Guid? then [32, 16, 16] + [8, 8, 8, 8, 8, 8, 8, 8]
    else [8 * host.pointer]
  }

  function Total(bits: seq<nat>): nat {
    if bits == [] then 0 else bits[0] + Total(bits[1..])
  }

  /** A scalar field counts as one, measures what the numbers it consists of measure, and needs one libffi element for each. */
  lemma ScalarsMeasured(kind: Kind, host: Host)
    requires !Nested(kind) && !kind.OtherKind?
    ensures var m := ScalarMetrics(kind, host);
      m.expanded == 1 && 8 * m.size == Total(AbiNumbers(kind, host)) && m.elements == |AbiNumbers(kind, host)|
  {
    var bits := AbiNumbers(kind, host);
    assert |bits| == 1 ==> Total(bits) == bits[0] + Total(bits[1..]) && bits[1..] == [];
    if kind.Guid? {
      assert Total(bits) == 32 + Total(bits[1..]) && Total(bits[1..]) == 16 + Total(bits[2..]) && Total(bits[2..]) == 16 + Total(bits[3..]);
      assert Total(bits[3..]) == 8 + Total(bits[4..]) && Total(bits[4..]) == 8 + Total(bits[5..]) && Total(bits[5..]) == 8 + Total(bits[6..]);
      assert Total(bits[6..]) == 8 + Total(bits[7..]) && Total(bits[7..]) == 8 + Total(bits[8..]) && Total(bits[8..]) == 8 + Total(bits[9..]);
      assert Total(bits[9..]) == 8 + Total(bits[10..]) && Total(bits[10..]) == 8 + Total(bits[11..]);
    }
  }
}
