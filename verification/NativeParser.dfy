/** The parser that builds native layouts from descriptors the limits check accepted. */
module NativeParser {
  import opened Wrappers
  import opened RawSweep
  import opened RawDescriptor
  import opened RawValidator
  import opened RawLimits

  const MAX_NATIVE_DEPTH := 64
  const U32_MAX := 0xFFFF_FFFF

  datatype ParseError =
    | TooDeep | Cyclic | BadSize | BadAlignment | NoFieldList | NoFieldName | BadOffset | BadCount | CountExceedsU32
    | NoType | NoKind | NoNestedName | NoNestedLayout | UnknownKind | Rejected

  datatype Native =
    | NativeStruct(name: string, size: nat, alignment: nat, fields: seq<NativeField>)
    | NativeUnion(name: string, size: nat, alignment: nat, fields: seq<NativeField>, complete: bool)
  datatype NativeField = NativeField(name: string, offset: nat, count: nat, typ: NativeType)
  datatype NativeType = ScalarType(kind: Kind) | AggregateType(native: Native)

  /** Which fields and layouts the native layout constructors accept; they are not part of this model. */
  datatype Builder = Builder(field: NativeField -> bool, layout: Native -> bool)

  function ParseVariant(name: string, layout: Layout, kind: AggregateKind, path: seq<string>, host: Host, builder: Builder)
    : (r: Result<Native, ParseError>)
    decreases layout, 1
  {
    if |path| >= MAX_NATIVE_DEPTH then Err(TooDeep)
    else if name in path then Err(Cyclic)
    else ParseBody(name, layout, kind, path + [name], host, builder)
  }

  function ParseBody(name: string, layout: Layout, kind: AggregateKind, path: seq<string>, host: Host, builder: Builder)
    : (r: Result<Native, ParseError>)
    decreases layout, 0
  {
    var size, alignment := Usize(layout.size, host), Usize(layout.alignment, host);
    if size.None? then Err(BadSize)
    else if alignment.None? then Err(BadAlignment)
    else if layout.fields.NoFields? then Err(NoFieldList)
    else
      var fields := ParseFields(layout.fields.list, kind, path, host, builder, []);
      if fields.Err? then Err(fields.error) else Build(name, kind, size.value, alignment.value, fields.value, layout.complete, builder)
  }

  function Build(name: string, kind: AggregateKind, size: nat, alignment: nat, fields: seq<NativeField>, complete: bool, builder: Builder)
    : (r: Result<Native, ParseError>)
  {
    var native := if kind.AsStruct? then NativeStruct(name, size, alignment, fields) else NativeUnion(name, size, alignment, fields, complete);
    if builder.layout(native) then Ok(native) else Err(Rejected)
  }

  function ParseFields(fields: seq<Field>, kind: AggregateKind, path: seq<string>, host: Host, builder: Builder, parsed: seq<NativeField>)
    : (r: Result<seq<NativeField>, ParseError>)
    decreases fields
  {
    if fields == [] then Ok(parsed)
    else
      var one := ParseField(fields[0], kind, path, host, builder);
      if one.Err? then Err(one.error) else ParseFields(fields[1..], kind, path, host, builder, parsed + [one.value])
  }

  // Union fields have no offset.
  function ParseField(field: Field, kind: AggregateKind, path: seq<string>, host: Host, builder: Builder): (r: Result<NativeField, ParseError>)
    decreases field
  {
    if field.name.None? then Err(NoFieldName)
    else
      var offset := if kind.AsStruct? then Usize(field.offset, host) else Some(0);
      var count := Usize(field.count, host);
      if offset.None? then Err(BadOffset)
      else if count.None? then Err(BadCount)
      else if count.value > U32_MAX then Err(CountExceedsU32)
      else if field.typ.None? then Err(NoType)
      else
        var typ := ParseType(field.typ.value, path, host, builder);
        if typ.Err? then Err(typ.error)
        else
          var native := NativeField(field.name.value, offset.value, count.value, typ.value);
          if builder.field(native) then Ok(native) else Err(Rejected)
  }

  function ParseType(typ: FieldType, path: seq<string>, host: Host, builder: Builder): (r: Result<NativeType, ParseError>)
    decreases typ
  {
    if typ.kind.None? then Err(NoKind)
    else
      var kind := typ.kind.value;
      if kind.OtherKind? then Err(UnknownKind)
      else if !Nested(kind) then Ok(ScalarType(kind))
      else if typ.name.None? then Err(NoNestedName)
      else if typ.layout.None? then Err(NoNestedLayout)
      else
        var native := ParseVariant(typ.name.value, typ.layout.value, Aggregate(kind), path, host, builder);
        if native.Err? then Err(native.error) else Ok(AggregateType(native.value))
  }

  // ---- the same in place, over the stack of active names ----

  /** `parse_native_struct_variant_with_stack` and its union twin: the stack is as it was on every exit. */
  method Parse(name: string, layout: Layout, kind: AggregateKind, stack: NameStack, host: Host, builder: Builder)
    returns (r: Result<Native, ParseError>)
    modifies stack
    ensures stack.names == old(stack.names)
    ensures r == ParseVariant(name, layout, kind, old(stack.names), host, builder)
    decreases layout
  {
    var entered := EnterAggregate(name, stack);
    if entered.Err? { return Err(entered.error); }
    r := ParseAggregate(name, layout, kind, stack, host, builder);
    stack.Pop();
  }

  method EnterAggregate(name: string, stack: NameStack) returns (r: Result<(), ParseError>)
    modifies stack
    ensures r.Ok? <==> |old(stack.names)| < MAX_NATIVE_DEPTH && name !in old(stack.names)
    ensures stack.names == if r.Ok? then old(stack.names) + [name] else old(stack.names)
    ensures r.Err? ==> r.error == if |old(stack.names)| >= MAX_NATIVE_DEPTH then TooDeep else Cyclic
  {
    if |stack.names| >= MAX_NATIVE_DEPTH { return Err(TooDeep); }
    if name in stack.names { return Err(Cyclic); }
    stack.Push(name);
    r := Ok(());
  }

  method ParseAggregate(name: string, layout: Layout, kind: AggregateKind, stack: NameStack, host: Host, builder: Builder)
    returns (r: Result<Native, ParseError>)
    modifies stack
    ensures stack.names == old(stack.names)
    ensures r == ParseBody(name, layout, kind, old(stack.names), host, builder)
    decreases layout, 0
  {
    var size, alignment := Usize(layout.size, host), Usize(layout.alignment, host);
    if size.None? { return Err(BadSize); }
    if alignment.None? { return Err(BadAlignment); }
    if layout.fields.NoFields? { return Err(NoFieldList); }
    var fields := layout.fields.list;
    var parsed := [];
    for index := 0 to |fields|
      invariant stack.names == old(stack.names)
      invariant ParseFields(fields[index..], kind, stack.names, host, builder, parsed)
                == ParseFields(fields, kind, stack.names, host, builder, [])
    {
      assert fields[index..][0] == fields[index] && fields[index..][1..] == fields[index + 1..];
      var one := ParseOne(fields[index], kind, stack, host, builder);
      if one.Err? { return Err(one.error); }
      parsed := parsed + [one.value];
    }
    r := Build(name, kind, size.value, alignment.value, parsed, layout.complete, builder);
  }

  method ParseOne(field: Field, kind: AggregateKind, stack: NameStack, host: Host, builder: Builder) returns (r: Result<NativeField, ParseError>)
    modifies stack
    ensures stack.names == old(stack.names)
    ensures r == ParseField(field, kind, old(stack.names), host, builder)
    decreases field
  {
    if field.name.None? { return Err(NoFieldName); }
    var offset := if kind.AsStruct? then Usize(field.offset, host) else Some(0);
    if offset.None? { return Err(BadOffset); }
    var count := Usize(field.count, host);
    if count.None? { return Err(BadCount); }
    if count.value > U32_MAX { return Err(CountExceedsU32); }
    if field.typ.None? { return Err(NoType); }
    var typ := ParseKind(field.typ.value, stack, host, builder);
    if typ.Err? { return Err(typ.error); }
    var native := NativeField(field.name.value, offset.value, count.value, typ.value);
    r := if builder.field(native) then Ok(native) else Err(Rejected);
  }

  method ParseKind(typ: FieldType, stack: NameStack, host: Host, builder: Builder) returns (r: Result<NativeType, ParseError>)
    modifies stack
    ensures stack.names == old(stack.names)
    ensures r == ParseType(typ, old(stack.names), host, builder)
    decreases typ
  {
    if typ.kind.None? { return Err(NoKind); }
    var kind := typ.kind.value;
    if kind.OtherKind? { return Err(UnknownKind); }
    if !Nested(kind) { return Ok(ScalarType(kind)); }
    if typ.name.None? { return Err(NoNestedName); }
    if typ.layout.None? { return Err(NoNestedLayout); }
    var native := Parse(typ.name.value, typ.layout.value, Aggregate(kind), stack, host, builder);
    r := if native.Err? then Err(native.error) else Ok(AggregateType(native.value));
  }

  // ---- after the limits check, only names, alignments and the native constructors can fail ----

  /** The errors the limits check does not rule out. */
  predicate StillPossible(error: ParseError) {
    error.BadAlignment? || error.NoFieldName? || error.Rejected?
  }

  /** Every field is named and every alignment is a machine number. */
  predicate LayoutComplete(layout: Layout, host: Host)
    decreases layout
  {
    && Usize(layout.alignment, host).Some?
    && (layout.fields.Fields? ==> FieldsComplete(layout.fields.list, host))
  }

  predicate FieldsComplete(fields: seq<Field>, host: Host)
    decreases fields
  {
    fields == [] || (FieldComplete(fields[0], host) && FieldsComplete(fields[1..], host))
  }

  predicate FieldComplete(field: Field, host: Host)
    decreases field
  {
    field.name.Some? && (field.typ.Some? ==> TypeComplete(field.typ.value, host))
  }

  predicate TypeComplete(typ: FieldType, host: Host)
    decreases typ
  {
    typ.kind.Some? && Nested(typ.kind.value) && typ.layout.Some? ==> LayoutComplete(typ.layout.value, host)
  }

  ghost predicate AcceptsAll(builder: Builder) {
    (forall field :: builder.field(field)) && (forall native :: builder.layout(native))
  }

  predicate PathFits(path: seq<string>) {
    |path| <= MAX_NESTING_DEPTH
  }

  // A number within the limits is a machine number on every host.
  lemma OffsetsFit(fields: seq<Field>, host: Host)
    requires fields != [] && Parts(fields, host) != [] && AllWithin(Parts(fields, host), MAX_BYTE_SIZE)
    ensures OrZero(fields[0].offset) <= MAX_BYTE_SIZE && AllWithin(Parts(fields[1..], host), MAX_BYTE_SIZE)
  {
    var parts := Parts(fields, host);
    assert parts[0] == PartOf(fields[0], host);
    assert forall i :: 0 <= i < |parts[1..]| ==> parts[1..][i] == parts[i + 1];
  }

  /** What holds of any parse within the limits. */
  ghost predicate ParsesTo<T>(r: Result<T, ParseError>, complete: bool, builder: Builder) {
    && (r.Err? ==> StillPossible(r.error))
    && (r.Ok? ==> complete)
    && (complete && AcceptsAll(builder) ==> r.Ok?)
  }

  lemma {:induction false} ParseTypeWithin(typ: FieldType, path: seq<string>, host: Host, builder: Builder)
    requires HostOk(host) && TypeLimits(typ, path, host) && PathFits(path)
    ensures ParsesTo(ParseType(typ, path, host, builder), TypeComplete(typ, host), builder)
    decreases typ
  {
    if Nested(typ.kind.value) {
      ParseVariantWithin(typ.name.value, typ.layout.value, Aggregate(typ.kind.value), path, host, builder);
    }
  }

  lemma {:induction false} ParseFieldWithin(field: Field, kind: AggregateKind, path: seq<string>, host: Host, builder: Builder)
    requires HostOk(host) && FieldLimits(field, kind, path, host) && PathFits(path)
    requires kind.AsStruct? ==> OrZero(field.offset) <= MAX_BYTE_SIZE
    ensures ParsesTo(ParseField(field, kind, path, host, builder), FieldComplete(field, host), builder)
    decreases field
  {
    ParseTypeWithin(field.typ.value, path, host, builder);
  }

  lemma {:induction false} ParseFieldsWithin(fields: seq<Field>, kind: AggregateKind, path: seq<string>, host: Host, builder: Builder, parsed: seq<NativeField>)
    requires HostOk(host) && FieldsLimits(fields, kind, path, host) && PathFits(path)
    requires kind.AsStruct? ==> AllWithin(Parts(fields, host), MAX_BYTE_SIZE)
    ensures ParsesTo(ParseFields(fields, kind, path, host, builder, parsed), FieldsComplete(fields, host), builder)
    decreases fields
  {
    if fields != [] {
      if kind.AsStruct? { OffsetsFit(fields, host); }
      ParseFieldWithin(fields[0], kind, path, host, builder);
      var one := ParseField(fields[0], kind, path, host, builder);
      if one.Ok? { ParseFieldsWithin(fields[1..], kind, path, host, builder, parsed + [one.value]); }
    }
  }

  lemma {:induction false} ParseVariantWithin(name: string, layout: Layout, kind: AggregateKind, path: seq<string>, host: Host, builder: Builder)
    requires HostOk(host) && LayoutLimits(name, layout, kind, path, host)
    ensures ParsesTo(ParseVariant(name, layout, kind, path, host, builder), LayoutComplete(layout, host), builder)
    decreases layout
  {
    var fields := layout.fields.list;
    assert BodyLimits(layout, kind, path + [name], host);
    if kind.AsStruct? {
      assert AllWithin(Parts(fields, host), layout.size.value);
    }
    ParseFieldsWithin(fields, kind, path + [name], host, builder, []);
    assert ParseVariant(name, layout, kind, path, host, builder) == ParseBody(name, layout, kind, path + [name], host, builder);
    var parsed := ParseFields(fields, kind, path + [name], host, builder, []);
    assert ParsesTo(parsed, FieldsComplete(fields, host), builder);
  }

  /**
   A descriptor the limits check accepted never makes the parser fail on nesting, cycles,
   counts, kinds or missing parts; it can only fail on an unnamed field, an alignment that
   is no machine number, or a refusal by the native constructors.
   */
  lemma ParserTrustsValidator(name: string, layout: Layout, kind: AggregateKind, host: Host, builder: Builder)
    requires HostOk(host) && ValidateLayout(name, layout, kind, [], host).Ok?
    ensures var r := ParseVariant(name, layout, kind, [], host, builder);
      && (r.Err? ==> StillPossible(r.error))
      && (AcceptsAll(builder) ==> (r.Ok? <==> LayoutComplete(layout, host)))
  {
    ValidateExact(name, layout, kind, [], host);
    ParseVariantWithin(name, layout, kind, [], host, builder);
  }

  // ---- the parsed layout is the one that was measured ----

  function NativeExpanded(native: Native): nat
    decreases native
  {
    FieldsExpanded(native.fields)
  }

  function FieldsExpanded(fields: seq<NativeField>): nat
    decreases fields
  {
    if fields == [] then 0 else FieldExpanded(fields[0]) * fields[0].count + FieldsExpanded(fields[1..])
  }

  function FieldExpanded(field: NativeField): nat
    decreases field
  {
    if field.typ.ScalarType? then 1 else NativeExpanded(field.typ.native)
  }

  lemma {:induction false} ExpandedAppend(fields: seq<NativeField>, last: NativeField)
    ensures FieldsExpanded(fields + [last]) == FieldsExpanded(fields) + FieldExpanded(last) * last.count
  {
    if fields == [] {
      assert fields + [last] == [last];
    } else {
      assert (fields + [last])[1..] == fields[1..] + [last];
      ExpandedAppend(fields[1..], last);
    }
  }

  lemma {:induction false} ParsedField(field: Field, kind: AggregateKind, path: seq<string>, host: Host, builder: Builder, native: NativeField)
    requires ParseField(field, kind, path, host, builder) == Ok(native)
    ensures native.count == OrZero(field.count) && FieldExpanded(native) == FieldMetrics(field, host).expanded
    decreases field
  {
    ParsedType(field.typ.value, path, host, builder, native.typ, native);
  }

  lemma {:induction false} ParsedType(typ: FieldType, path: seq<string>, host: Host, builder: Builder, native: NativeType, field: NativeField)
    requires ParseType(typ, path, host, builder) == Ok(native) && field.typ == native
    ensures FieldExpanded(field) == TypeMetrics(typ, host).expanded
    decreases typ
  {
    if Nested(typ.kind.value) {
      ParsedLayout(typ.name.value, typ.layout.value, Aggregate(typ.kind.value), path, host, builder, native.native);
    }
  }

  lemma {:induction false} ParsedFields(fields: seq<Field>, kind: AggregateKind, path: seq<string>, host: Host, builder: Builder,
                                        parsed: seq<NativeField>, natives: seq<NativeField>)
    requires ParseFields(fields, kind, path, host, builder, parsed) == Ok(natives)
    ensures FieldsExpanded(natives) == FieldsExpanded(parsed) + Expanded(fields, host)
    decreases fields
  {
    if fields != [] {
      var one := ParseField(fields[0], kind, path, host, builder).value;
      ParsedField(fields[0], kind, path, host, builder, one);
      ExpandedAppend(parsed, one);
      ParsedFields(fields[1..], kind, path, host, builder, parsed + [one], natives);
    }
  }

  /** Whatever the parser builds has the size and the expanded field count the validator computed. */
  lemma {:induction false} ParsedLayout(name: string, layout: Layout, kind: AggregateKind, path: seq<string>, host: Host, builder: Builder, native: Native)
    requires ParseVariant(name, layout, kind, path, host, builder) == Ok(native)
    ensures native.name == name && native.size == LayoutMetrics(layout, kind, host).size
    ensures NativeExpanded(native) == LayoutMetrics(layout, kind, host).expanded
    decreases layout
  {
    ParsedFields(layout.fields.list, kind, path + [name], host, builder, [], native.fields);
  }

  // ---- the parsed tree is the descriptor's ----

  /** The native layout says of the aggregate, and of every field at every depth, what the descriptor says. */
  predicate Mirrors(name: string, layout: Layout, kind: AggregateKind, native: Native)
    decreases layout
  {
    && native.name == name && layout.size == Some(native.size) && layout.alignment == Some(native.alignment)
    && (native.NativeStruct? <==> kind.AsStruct?)
    && (native.NativeUnion? ==> native.complete == layout.complete)
    && layout.fields.Fields? && FieldsMirror(layout.fields.list, kind, native.fields)
  }

  predicate FieldsMirror(fields: seq<Field>, kind: AggregateKind, natives: seq<NativeField>)
    decreases fields
  {
    && |natives| == |fields|
    && (fields == [] || (FieldMirrors(fields[0], kind, natives[0]) && FieldsMirror(fields[1..], kind, natives[1..])))
  }

  predicate FieldMirrors(field: Field, kind: AggregateKind, native: NativeField)
    decreases field
  {
    && field.name == Some(native.name) && field.count == Some(native.count)
    && (if kind.AsStruct? then field.offset == Some(native.offset) else native.offset == 0)
    && field.typ.Some? && TypeMirrors(field.typ.value, native.typ)
  }

  predicate TypeMirrors(typ: FieldType, native: NativeType)
    decreases typ
  {
    && typ.kind.Some?
    && if !Nested(typ.kind.value) then native == ScalarType(typ.kind.value)
       else native.AggregateType? && typ.name.Some? && typ.layout.Some?
            && Mirrors(typ.name.value, typ.layout.value, Aggregate(typ.kind.value), native.native)
  }

  lemma {:induction false} TypeIsMirrored(typ: FieldType, path: seq<string>, host: Host, builder: Builder, native: NativeType)
    requires ParseType(typ, path, host, builder) == Ok(native)
    ensures TypeMirrors(typ, native)
    decreases typ
  {
    if Nested(typ.kind.value) {
      ParsedMirrors(typ.name.value, typ.layout.value, Aggregate(typ.kind.value), path, host, builder, native.native);
    }
  }

  lemma {:induction false} FieldIsMirrored(field: Field, kind: AggregateKind, path: seq<string>, host: Host, builder: Builder, native: NativeField)
    requires ParseField(field, kind, path, host, builder) == Ok(native)
    ensures FieldMirrors(field, kind, native)
    decreases field
  {
    TypeIsMirrored(field.typ.value, path, host, builder, native.typ);
  }

  lemma {:induction false} FieldsAreMirrored(fields: seq<Field>, kind: AggregateKind, path: seq<string>, host: Host, builder: Builder,
                                             parsed: seq<NativeField>, natives: seq<NativeField>)
    requires ParseFields(fields, kind, path, host, builder, parsed) == Ok(natives)
    ensures |natives| == |parsed| + |fields| && natives[..|parsed|] == parsed
    ensures FieldsMirror(fields, kind, natives[|parsed|..])
    decreases fields
  {
    if fields != [] {
      var one := ParseField(fields[0], kind, path, host, builder).value;
      FieldIsMirrored(fields[0], kind, path, host, builder, one);
      FieldsAreMirrored(fields[1..], kind, path, host, builder, parsed + [one], natives);
      assert natives[..|parsed| + 1] == parsed + [one];
      assert natives[|parsed|] == natives[..|parsed| + 1][|parsed|];
      assert natives[..|parsed|] == natives[..|parsed| + 1][..|parsed|];
      assert natives[|parsed|..][1..] == natives[|parsed| + 1..];
    }
  }

  /** Whatever the parser builds has the name, size, alignment and kind of its descriptor, and field for field the same names, offsets, counts and types. */
  lemma {:induction false} ParsedMirrors(name: string, layout: Layout, kind: AggregateKind, path: seq<string>, host: Host, builder: Builder, native: Native)
    requires ParseVariant(name, layout, kind, path, host, builder) == Ok(native)
    ensures Mirrors(name, layout, kind, native)
    decreases layout
  {
    FieldsAreMirrored(layout.fields.list, kind, path + [name], host, builder, [], native.fields);
  }
}
