/**
 Where a struct keeps its COM pointers, read off the layout tree alone: a path of field
 indices leads through nested structs to a pointer field. The slots the capture visits are
 exactly these places, so what is said here of a captured struct does not depend on how
 the slots are listed.
 */
module StructPointers {
  import opened Wrappers
  import opened LittleEndian
  import opened ByteRange
  import opened ComObjects
  import opened StoredStruct
  import opened StoredValue

  /** The path leads to a pointer field at offset `x` of the struct with these fields. */
  predicate Leads(fields: seq<Field>, path: seq<nat>, x: int)
    decreases path
  {
    && path != [] && path[0] < |fields|
    && var f := fields[path[0]];
       if |path| == 1 then f.handle.ComPointer? && x == f.offset
       else f.handle.StructType? && Leads(f.handle.fields, path[1..], x - f.offset)
  }

  ghost predicate PointerIn(fields: seq<Field>, x: int) {
    exists path: seq<nat> :: Leads(fields, path, x)
  }

  /** A COM pointer lies at offset `x` of a value of this layout. */
  ghost predicate PointerAt(handle: TypeHandle, x: nat) {
    handle.StructType? && PointerIn(handle.fields, x)
  }

  // ---- the listed slots are the pointers of the tree ----

  /** Every listed slot is reached by a path. */
  lemma {:induction false} SlotHasPath(fields: seq<Field>, base: nat, x: nat) returns (path: seq<nat>)
    requires x in FieldSlots(fields, base)
    ensures Leads(fields, path, x - base)
    decreases fields
  {
    if x in OneFieldSlots(fields[0], base) {
      var rest := OneSlotHasPath(fields[0], base, x);
      path := [0] + rest;
      assert path[1..] == rest;
    } else {
      var rest := SlotHasPath(fields[1..], base, x);
      path := [rest[0] + 1] + rest[1..];
      assert fields[1..][rest[0]] == fields[rest[0] + 1] && path[1..] == rest[1..];
    }
  }

  lemma {:induction false} OneSlotHasPath(field: Field, base: nat, x: nat) returns (rest: seq<nat>)
    requires x in OneFieldSlots(field, base)
    ensures field.handle.ComPointer? ==> rest == [] && x == base + field.offset
    ensures !field.handle.ComPointer? ==> field.handle.StructType? && Leads(field.handle.fields, rest, x - base - field.offset)
    decreases field
  {
    rest := [];
    if field.handle.StructType? { rest := SlotHasPath(field.handle.fields, base + field.offset, x); }
  }

  lemma {:induction false} SlotOfField(fields: seq<Field>, base: nat, i: nat, x: nat)
    requires i < |fields| && x in OneFieldSlots(fields[i], base)
    ensures x in FieldSlots(fields, base)
  {
    if i > 0 { SlotOfField(fields[1..], base, i - 1, x); }
  }

  /** Every path ends at a listed slot. */
  lemma {:induction false} PathHasSlot(fields: seq<Field>, base: nat, path: seq<nat>, x: int)
    requires Leads(fields, path, x)
    ensures x >= 0 && base + x in FieldSlots(fields, base)
    decreases path
  {
    var f := fields[path[0]];
    if |path| > 1 { PathHasSlot(f.handle.fields, base + f.offset, path[1..], x - f.offset); }
    SlotOfField(fields, base, path[0], base + x);
  }

  /** The capture visits exactly the COM pointers of the layout, at every depth. */
  lemma SlotsArePointers(handle: TypeHandle, x: nat)
    ensures x in Slots(handle) <==> PointerAt(handle, x)
  {
    if handle.StructType? {
      if x in FieldSlots(handle.fields, 0) { var path := SlotHasPath(handle.fields, 0, x); }
      if path: seq<nat> :| Leads(handle.fields, path, x) { PathHasSlot(handle.fields, 0, path, x); }
    }
  }

  // ---- what is carried ----

  /** Position and object of a non-null COM pointer in a struct. */
  ghost predicate Holds(handle: TypeHandle, bytes: seq<byte>, width: nat, entry: (nat, ObjectId)) {
    PointerAt(handle, entry.0) && Fits(entry.0, width, |bytes|) && ReadSlot(bytes, width, entry.0) == entry.1 && entry.1 != 0
  }

  lemma {:induction false} CarriedExactly(bytes: seq<byte>, width: nat, slots: seq<nat>, entry: (nat, ObjectId))
    requires Within(slots, width, 0, |bytes|)
    ensures entry in Carried(bytes, width, slots) <==>
              entry.0 in slots && Fits(entry.0, width, |bytes|) && ReadSlot(bytes, width, entry.0) == entry.1 && entry.1 != 0
  {
    if slots != [] {
      CarriedExactly(bytes, width, slots[1..], entry);
      assert entry.0 in slots <==> entry.0 == slots[0] || entry.0 in slots[1..];
      if ReadSlot(bytes, width, slots[0]) != 0 {
        assert Carried(bytes, width, slots)[1..] == Carried(bytes, width, slots[1..]);
        assert entry in Carried(bytes, width, slots) <==> entry == Carried(bytes, width, slots)[0] || entry in Carried(bytes, width, slots[1..]);
      }
    }
  }

  ghost predicate OutsidePointers(handle: TypeHandle, width: nat, i: nat) {
    forall x: nat :: PointerAt(handle, x) ==> !(x <= i < x + width)
  }

  /**
   A struct that was captured keeps none of its pointers: each reads null, and no other byte
   differs from the original. It carries each non-null pointer once, under its offset, and
   carries nothing else.
   */
  lemma CapturedExactly(handle: TypeHandle, bytes: seq<byte>, width: nat, w: World)
    requires ValueOk(Struct(handle, bytes), width)
    requires Capture(Struct(handle, bytes), width, w).0.Ok?
    ensures var s := Capture(Struct(handle, bytes), width, w).0.value;
      && s.StoredBuffer? && s.handle == handle && |s.bytes| == |bytes|
      && (forall x: nat :: PointerAt(handle, x) ==> Fits(x, width, |bytes|) && ReadSlot(s.bytes, width, x) == 0)
      && (forall i :: 0 <= i < |bytes| && OutsidePointers(handle, width, i) ==> s.bytes[i] == bytes[i])
      && (forall entry :: entry in s.objects <==> Holds(handle, bytes, width, entry))
      && (forall i, j :: 0 <= i < j < |s.objects| ==> s.objects[i].0 != s.objects[j].0)
  {
    var slots := Slots(handle);
    CaptureNulls(bytes, width, slots, [], w);
    CaptureCarries(bytes, width, slots, [], w);
    NullSlotsExact(bytes, width, slots);
    CarriedAwaited(bytes, width, slots);
    var r := NullSlots(bytes, width, slots);
    forall x: nat | PointerAt(handle, x) ensures Fits(x, width, |bytes|) && ReadSlot(r, width, x) == 0 {
      SlotsArePointers(handle, x);
    }
    forall i | 0 <= i < |bytes| && OutsidePointers(handle, width, i) ensures r[i] == bytes[i] {
      forall k | 0 <= k < |slots| ensures !(slots[k] <= i < slots[k] + width) { SlotsArePointers(handle, slots[k]); }
      assert OutsideSlots(slots, width, i);
    }
    forall entry ensures entry in Carried(bytes, width, slots) <==> Holds(handle, bytes, width, entry) {
      CarriedExactly(bytes, width, slots, entry);
      SlotsArePointers(handle, entry.0);
    }
    var objects := Carried(bytes, width, slots);
    forall i, j | 0 <= i < j < |objects| ensures objects[i].0 != objects[j].0 {
      assert objects[i] in objects && Holds(handle, bytes, width, objects[i]);
    }
  }

  // ---- what a struct holds ----

  /** The offsets at which a struct holds a pointer to `o`. */
  ghost function PointersTo(handle: TypeHandle, bytes: seq<byte>, width: nat, o: ObjectId): set<nat> {
    set x: nat | 0 <= x <= |bytes| && Fits(x, width, |bytes|) && PointerAt(handle, x) && ReadSlot(bytes, width, x) == o
  }

  function SlotsTo(bytes: seq<byte>, width: nat, slots: seq<nat>, o: ObjectId): set<nat> {
    set x | x in slots && Fits(x, width, |bytes|) && ReadSlot(bytes, width, x) == o
  }

  lemma {:induction false} RefsAreSlots(bytes: seq<byte>, width: nat, slots: seq<nat>, o: ObjectId)
    requires Within(slots, width, 0, |bytes|) && Separate(slots, width) && width > 0
    ensures SlotRefs(bytes, width, slots, o) == |SlotsTo(bytes, width, slots, o)|
  {
    if slots != [] {
      RefsAreSlots(bytes, width, slots[1..], o);
      var rest, all := SlotsTo(bytes, width, slots[1..], o), SlotsTo(bytes, width, slots, o);
      assert forall x :: x in slots <==> x == slots[0] || x in slots[1..];
      assert slots[0] !in slots[1..];
      assert all == if ReadSlot(bytes, width, slots[0]) == o then rest + {slots[0]} else rest;
    }
  }

  /** A struct value holds as many references to an object as its layout has pointers to it. */
  lemma StructRefs(handle: TypeHandle, bytes: seq<byte>, width: nat, o: ObjectId)
    requires ValueOk(Struct(handle, bytes), width) && width > 0
    ensures ValueRefs(Struct(handle, bytes), width, o) == |PointersTo(handle, bytes, width, o)|
  {
    RefsAreSlots(bytes, width, Slots(handle), o);
    forall x: nat ensures x in Slots(handle) <==> PointerAt(handle, x) { SlotsArePointers(handle, x); }
    assert SlotsTo(bytes, width, Slots(handle), o) == PointersTo(handle, bytes, width, o);
  }
}
