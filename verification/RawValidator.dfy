/** The recursive limits check of raw aggregate descriptors. */
module RawValidator {
  import opened Wrappers
  import opened RawSweep
  import opened RawDescriptor

  const MAX_BYTE_SIZE := 1024 * 1024
  const MAX_NESTING_DEPTH := 32
  const MAX_FIELD_EXPANSION := 65536

  datatype Metrics = Metrics(size: nat, expanded: nat, elements: nat)

  // ---- the check as the binding performs it ----

  function ScalarMetrics(kind: Kind, host: Host): Metrics
    requires !Nested(kind) && !kind.OtherKind?
  {
    match kind
    case I8 | U8 => Metrics(1, 1, 1)
    case I16 | U16 => Metrics(2, 1, 1)
    case I32 | U32 | F32 => Metrics(4, 1, 1)
    case I64 | U64 | F64 => Metrics(8, 1, 1)
    case ISize | USize | Pointer => Metrics(host.pointer, 1, 1)
    case Guid => Metrics(16, 1, 11)
  }

  function ValidateType(typ: FieldType, path: seq<string>, host: Host): (r: Result<Metrics, RawError>)
    decreases typ
  {
    if typ.kind.None? then Err(MissingKind)
    else
      var kind := typ.kind.value;
      if kind.OtherKind? then Err(UnsupportedKind)
      else if !Nested(kind) then Ok(ScalarMetrics(kind, host))
      else if typ.name.None? then Err(MissingName)
      else if typ.layout.None? then Err(MissingLayout)
      else
        var m := ValidateLayout(typ.name.value, typ.layout.value, Aggregate(kind), path, host);
        // A union may expand to one libffi element per byte.
        if m.Ok? && kind.UnionKind? then Ok(m.value.(elements := m.value.size)) else m
  }

  function ValidateLayout(name: string, layout: Layout, kind: AggregateKind, path: seq<string>, host: Host): (r: Result<Metrics, RawError>)
    decreases layout, 1
  {
    if !QualifiedName(name) then Err(UnqualifiedName)
    else if |path| >= MAX_NESTING_DEPTH then Err(NestingLimit)
    else if name in path then Err(RecursiveCycle)
    else ValidateBody(layout, kind, path + [name], host)
  }

  function ValidateBody(layout: Layout, kind: AggregateKind, path: seq<string>, host: Host): (r: Result<Metrics, RawError>)
    decreases layout, 0
  {
    var size := Usize(layout.size, host);
    if size.None? then Err(InvalidSize)
    else if size.value > MAX_BYTE_SIZE then Err(SizeLimit)
    else if layout.fields.NoFields? then Err(MissingFields)
    else if |layout.fields.list| > MAX_FIELD_EXPANSION then Err(FieldCountLimit)
    else
      var scanned := ScanFields(layout.fields.list, kind, path, host, 0, []);
      if scanned.Err? then Err(scanned.error) else Finish(size.value, kind, scanned.value.0, scanned.value.1, host)
  }

  function Finish(size: nat, kind: AggregateKind, expanded: nat, parts: seq<Part>, host: Host): (r: Result<Metrics, RawError>) {
    if kind.AsUnion? then Ok(Metrics(size, expanded, 0))
    else
      var swept := Sweep(host.sort(parts), size, host.usizeMax);
      if swept.Err? then Err(swept.error) else Ok(Metrics(size, expanded, swept.value))
  }

  function ScanFields(fields: seq<Field>, kind: AggregateKind, path: seq<string>, host: Host, expanded: nat, parts: seq<Part>)
    : (r: Result<(nat, seq<Part>), RawError>)
    decreases fields
  {
    if fields == [] then Ok((expanded, parts))
    else
      var one := ScanField(fields[0], kind, path, host, expanded);
      if one.Err? then Err(one.error)
      else ScanFields(fields[1..], kind, path, host, one.value.0, if kind.AsStruct? then parts + [one.value.1] else parts)
  }

  /** One field: the expansion count including it and, in a struct, its range. */
  function ScanField(field: Field, kind: AggregateKind, path: seq<string>, host: Host, expanded: nat): (r: Result<(nat, Part), RawError>)
    decreases field
  {
    var count := Usize(field.count, host);
    if count.None? then Err(InvalidCount)
    else if count.value == 0 || count.value > MAX_FIELD_EXPANSION then Err(CountLimit)
    else if field.typ.None? then Err(MissingType)
    else
      var metrics := ValidateType(field.typ.value, path, host);
      if metrics.Err? then Err(metrics.error) else Measure(field, kind, metrics.value, count.value, host, expanded)
  }

  function Measure(field: Field, kind: AggregateKind, m: Metrics, count: nat, host: Host, expanded: nat): (r: Result<(nat, Part), RawError>) {
    var expansion := CheckedMul(m.expanded, count, host.usizeMax);
    if expansion.None? then Err(ExpansionOverflow)
    else
      var total := CheckedAdd(expanded, expansion.value, host.usizeMax);
      if total.None? then Err(ExpansionOverflow)
      else if total.value > MAX_FIELD_EXPANSION then Err(ExpansionLimit)
      else if kind.AsUnion? then Ok((total.value, Part(0, 0, 0)))
      else
        var offset := Usize(field.offset, host);
        if offset.None? then Err(InvalidOffset)
        else
          var size := CheckedMul(m.size, count, host.usizeMax);
          if size.None? then Err(FieldSizeOverflow)
          else
            var elements := CheckedMul(m.elements, count, host.usizeMax);
            if elements.None? then Err(LibffiOverflow) else Ok((total.value, Part(offset.value, size.value, elements.value)))
  }

  // ---- the same in place, over the stack of active names ----

  class NameStack {
    var names: seq<string>

    constructor ()
      ensures names == []
    {
      names := [];
    }

    method Push(name: string)
      modifies this
      ensures names == old(names) + [name]
    {
      names := names + [name];
    }

    method Pop()
      requires names != []
      modifies this
      ensures names == old(names)[..|old(names)| - 1]
    {
      names := names[..|names| - 1];
    }
  }

  method CheckType(typ: FieldType, stack: NameStack, host: Host) returns (r: Result<Metrics, RawError>)
    modifies stack
    ensures stack.names == old(stack.names)
    ensures r == ValidateType(typ, old(stack.names), host)
    decreases typ
  {
    if typ.kind.None? { return Err(MissingKind); }
    var kind := typ.kind.value;
    if kind.OtherKind? { return Err(UnsupportedKind); }
    if !Nested(kind) { return Ok(ScalarMetrics(kind, host)); }
    if typ.name.None? { return Err(MissingName); }
    if typ.layout.None? { return Err(MissingLayout); }
    r := CheckLayout(typ.name.value, typ.layout.value, Aggregate(kind), stack, host);
    if r.Ok? && kind.UnionKind? {
      r := Ok(r.value.(elements := r.value.size));
    }
  }

  /** `validate_raw_layout_limits`: the stack is as it was on every exit. */
  method CheckLayout(name: string, layout: Layout, kind: AggregateKind, stack: NameStack, host: Host) returns (r: Result<Metrics, RawError>)
    modifies stack
    ensures stack.names == old(stack.names)
    ensures r == ValidateLayout(name, layout, kind, old(stack.names), host)
    decreases layout, 1
  {
    if !QualifiedName(name) { return Err(UnqualifiedName); }
    if |stack.names| >= MAX_NESTING_DEPTH { return Err(NestingLimit); }
    if name in stack.names { return Err(RecursiveCycle); }
    stack.Push(name);
    r := CheckBody(layout, kind, stack, host);
    stack.Pop();
  }

  method CheckBody(layout: Layout, kind: AggregateKind, stack: NameStack, host: Host) returns (r: Result<Metrics, RawError>)
    modifies stack
    ensures stack.names == old(stack.names)
    ensures r == ValidateBody(layout, kind, old(stack.names), host)
    decreases layout, 0
  {
    var size := Usize(layout.size, host);
    if size.None? { return Err(InvalidSize); }
    if size.value > MAX_BYTE_SIZE { return Err(SizeLimit); }
    if layout.fields.NoFields? { return Err(MissingFields); }
    var fields := layout.fields.list;
    if |fields| > MAX_FIELD_EXPANSION { return Err(FieldCountLimit); }
    var expandedFields: nat, structFields: seq<Part> := 0, [];
    for index := 0 to |fields|
      invariant stack.names == old(stack.names)
      invariant ScanFields(fields[index..], kind, stack.names, host, expandedFields, structFields)
                == ScanFields(fields, kind, stack.names, host, 0, [])
    {
      assert fields[index..][0] == fields[index] && fields[index..][1..] == fields[index + 1..];
      var one := CheckField(fields[index], kind, stack, host, expandedFields);
      if one.Err? { return Err(one.error); }
      expandedFields := one.value.0;
      if kind.AsStruct? {
        structFields := structFields + [one.value.1];
      }
    }
    if kind.AsUnion? { return Ok(Metrics(size.value, expandedFields, 0)); }
    var swept := SweepFields(host.sort(structFields), size.value, host.usizeMax);
    r := if swept.Err? then Err(swept.error) else Ok(Metrics(size.value, expandedFields, swept.value));
  }

  method CheckField(field: Field, kind: AggregateKind, stack: NameStack, host: Host, expanded: nat) returns (r: Result<(nat, Part), RawError>)
    modifies stack
    ensures stack.names == old(stack.names)
    ensures r == ScanField(field, kind, old(stack.names), host, expanded)
    decreases field
  {
    var count := Usize(field.count, host);
    if count.None? { return Err(InvalidCount); }
    if count.value == 0 || count.value > MAX_FIELD_EXPANSION { return Err(CountLimit); }
    if field.typ.None? { return Err(MissingType); }
    var metrics := CheckType(field.typ.value, stack, host);
    if metrics.Err? { return Err(metrics.error); }
    r := Measure(field, kind, metrics.value, count.value, host, expanded);
  }
}
