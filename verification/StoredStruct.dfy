/**
 Carrying the COM references of a struct buffer between apartments: each non-null COM
 slot is taken out, nulled and replaced by an agile reference, and written back when the
 value is resolved on the JavaScript thread.
 */
module StoredStruct {
  import opened LittleEndian
  import opened ByteRange
  import opened ComObjects
  import opened Tally

  /**
   The native side as one object sees it: how many COM references and how many agile
   references to `o` are outstanding, and the answers marshalling calls will give, in
   order. Whatever is proved of every world is proved of every object.
   */
  datatype World = World(o: ObjectId, native: int, agile: int, answers: seq<bool>) {
    predicate Grants() {
      answers != [] && answers[0]
    }

    function Next(): World {
      if answers == [] then this else this.(answers := answers[1..])
    }
  }

  function Acquire(w: World, count: int): World {
    w.(native := w.native + count)
  }

  function Release(w: World, count: int): World {
    w.(native := w.native - count)
  }

  /** The reference to `x` is marshalled: its agile reference counts, the COM reference is given up. */
  function Marshal(w: World, x: nat): World {
    w.(agile := w.agile + One(x == w.o), native := w.native - One(x == w.o))
  }

  function DropAgile(w: World, count: int): World {
    w.(agile := w.agile - count)
  }

  // ---- layouts ----

  datatype TypeHandle = Plain(bytes: nat) | ComPointer | StructType(bytes: nat, fields: seq<Field>)
  datatype Field = Field(offset: nat, handle: TypeHandle)

  function SizeOf(handle: TypeHandle, width: nat): nat {
    if handle.ComPointer? then width else handle.bytes
  }

  /** Every field lies inside its struct and no two fields overlap, at every level. */
  predicate LayoutOk(handle: TypeHandle, width: nat) {
    handle.StructType? ==> FieldsOk(handle.fields, width, handle.bytes)
  }

  predicate FieldOk(field: Field, width: nat)
    decreases field
  {
    field.handle.StructType? ==> FieldsOk(field.handle.fields, width, field.handle.bytes)
  }

  predicate FieldsOk(fields: seq<Field>, width: nat, size: nat)
    decreases fields
  {
    && (forall i :: 0 <= i < |fields| ==> FieldOk(fields[i], width))
    && (forall i :: 0 <= i < |fields| ==> Fits(fields[i].offset, SizeOf(fields[i].handle, width), size))
    && (forall i, j :: 0 <= i < j < |fields| ==> FieldsApart(fields[i], fields[j], width))
  }

  predicate FieldsApart(a: Field, b: Field, width: nat) {
    Apart(a.offset, SizeOf(a.handle, width), b.offset, SizeOf(b.handle, width))
  }

  /** Offsets of the COM slots of some fields, in the order `capture_fields` visits them. */
  function FieldSlots(fields: seq<Field>, base: nat): (slots: seq<nat>) {
    if fields == [] then [] else OneFieldSlots(fields[0], base) + FieldSlots(fields[1..], base)
  }

  function OneFieldSlots(field: Field, base: nat): (slots: seq<nat>) {
    match field.handle
    case Plain(_) => []
    case ComPointer => [base + field.offset]
    case StructType(_, fields) => FieldSlots(fields, base + field.offset)
  }

  function Slots(handle: TypeHandle): seq<nat> {
    if handle.StructType? then FieldSlots(handle.fields, 0) else []
  }

  predicate Within(slots: seq<nat>, width: nat, lo: nat, hi: nat) {
    forall i :: 0 <= i < |slots| ==> lo <= slots[i] && slots[i] + width <= hi
  }

  predicate Separate(slots: seq<nat>, width: nat) {
    forall i, j :: 0 <= i < j < |slots| ==> Apart(slots[i], width, slots[j], width)
  }

  predicate SlotsMiss(slots: seq<nat>, width: nat, offset: nat, length: nat) {
    forall i :: 0 <= i < |slots| ==> Apart(slots[i], width, offset, length)
  }

  lemma {:induction false} OneFieldWithin(field: Field, width: nat, base: nat)
    requires FieldOk(field, width)
    ensures Within(OneFieldSlots(field, base), width, base + field.offset, base + field.offset + SizeOf(field.handle, width))
    decreases field
  {
    if field.handle.StructType? {
      FieldSlotsWithin(field.handle.fields, width, base + field.offset, field.handle.bytes);
    }
  }

  lemma {:induction false} FieldSlotsWithin(fields: seq<Field>, width: nat, base: nat, size: nat)
    requires FieldsOk(fields, width, size)
    ensures Within(FieldSlots(fields, base), width, base, base + size)
    decreases fields
  {
    if fields != [] {
      OneFieldWithin(fields[0], width, base);
      FieldSlotsWithin(fields[1..], width, base, size);
    }
  }

  /** A range that misses every field misses their slots. */
  lemma {:induction false} FieldSlotsMiss(fields: seq<Field>, width: nat, base: nat, size: nat, f: Field)
    requires FieldsOk(fields, width, size) && forall j :: 0 <= j < |fields| ==> FieldsApart(f, fields[j], width)
    ensures SlotsMiss(FieldSlots(fields, base), width, base + f.offset, SizeOf(f.handle, width))
    decreases |fields|
  {
    if fields != [] {
      OneFieldWithin(fields[0], width, base);
      FieldSlotsMiss(fields[1..], width, base, size, f);
    }
  }

  lemma {:induction false} OneFieldSeparate(field: Field, width: nat, base: nat)
    requires FieldOk(field, width)
    ensures Separate(OneFieldSlots(field, base), width)
    decreases field
  {
    if field.handle.StructType? {
      FieldSlotsSeparate(field.handle.fields, width, base + field.offset, field.handle.bytes);
    }
  }

  /** The COM slots of a well-formed layout do not overlap, across all levels of nesting. */
  lemma {:induction false} FieldSlotsSeparate(fields: seq<Field>, width: nat, base: nat, size: nat)
    requires FieldsOk(fields, width, size)
    ensures Separate(FieldSlots(fields, base), width)
    decreases fields
  {
    if fields != [] {
      OneFieldSeparate(fields[0], width, base);
      OneFieldWithin(fields[0], width, base);
      FieldSlotsSeparate(fields[1..], width, base, size);
      FieldSlotsMiss(fields[1..], width, base, size, fields[0]);
    }
  }

  // ---- capture and resolve, slot by slot ----

  function ReadSlot(bytes: seq<byte>, width: nat, slot: nat): nat
    requires Fits(slot, width, |bytes|)
  {
    Decode(bytes[slot..slot + width])
  }

  function WriteSlot(bytes: seq<byte>, width: nat, slot: nat, pointer: nat): (r: seq<byte>)
    requires Fits(slot, width, |bytes|)
    ensures |r| == |bytes|
  {
    Patch(bytes, slot, Encode(pointer, width))
  }

  /** A struct part way through being captured: its buffer and the slots taken out of it. */
  datatype Capturing = Capturing(bytes: seq<byte>, objects: seq<(nat, ObjectId)>, world: World, ok: bool)

  function CaptureSlots(bytes: seq<byte>, width: nat, slots: seq<nat>, objects: seq<(nat, ObjectId)>, w: World): (r: Capturing)
    requires Within(slots, width, 0, |bytes|)
    ensures |r.bytes| == |bytes|
    decreases |slots|
  {
    if slots == [] then Capturing(bytes, objects, w, true)
    else
      var raw := ReadSlot(bytes, width, slots[0]);
      if raw == 0 then CaptureSlots(bytes, width, slots[1..], objects, w)
      else
        var nulled := WriteSlot(bytes, width, slots[0], 0);
        if w.Grants()
        then CaptureSlots(nulled, width, slots[1..], objects + [(slots[0], raw)], Marshal(w.Next(), raw))
        else Capturing(nulled, objects, Release(w.Next(), One(raw == w.o)), false)
  }

  /** How many references to `o` a buffer holds in its slots; dropping the buffer releases them. */
  function SlotRefs(bytes: seq<byte>, width: nat, slots: seq<nat>, o: ObjectId): nat
    requires Within(slots, width, 0, |bytes|)
  {
    if slots == [] then 0
    else (if ReadSlot(bytes, width, slots[0]) == o then 1 else 0) + SlotRefs(bytes, width, slots[1..], o)
  }

  function ObjectRefs(objects: seq<(nat, ObjectId)>, o: ObjectId): nat {
    if objects == [] then 0 else (if objects[0].1 == o then 1 else 0) + ObjectRefs(objects[1..], o)
  }

  // What capture leaves in the buffer, and what it carries.

  function NullSlots(bytes: seq<byte>, width: nat, slots: seq<nat>): (r: seq<byte>)
    requires Within(slots, width, 0, |bytes|)
    ensures |r| == |bytes|
    decreases |slots|
  {
    if slots == [] then bytes else NullSlots(WriteSlot(bytes, width, slots[0], 0), width, slots[1..])
  }

  function Carried(bytes: seq<byte>, width: nat, slots: seq<nat>): (objects: seq<(nat, ObjectId)>)
    requires Within(slots, width, 0, |bytes|)
  {
    if slots == [] then []
    else
      var raw := ReadSlot(bytes, width, slots[0]);
      if raw == 0 then Carried(bytes, width, slots[1..]) else [(slots[0], raw)] + Carried(bytes, width, slots[1..])
  }

  predicate ObjectsFit(objects: seq<(nat, ObjectId)>, width: nat, size: nat) {
    forall i :: 0 <= i < |objects| ==> Fits(objects[i].0, width, size)
  }

  function Restore(bytes: seq<byte>, width: nat, objects: seq<(nat, ObjectId)>): (r: seq<byte>)
    requires ObjectsFit(objects, width, |bytes|)
    ensures |r| == |bytes|
    decreases |objects|
  {
    if objects == [] then bytes
    else Restore(WriteSlot(bytes, width, objects[0].0, objects[0].1), width, objects[1..])
  }

  // ---- one slot does not disturb the others ----

  lemma NullSlot(bytes: seq<byte>, width: nat, slot: nat)
    requires Fits(slot, width, |bytes|) && ReadSlot(bytes, width, slot) == 0
    ensures WriteSlot(bytes, width, slot, 0) == bytes
  {
    EncodeDecode(bytes[slot..slot + width]);
    assert Encode(0, width) == bytes[slot..slot + width];
  }

  lemma WriteRead(bytes: seq<byte>, width: nat, slot: nat, pointer: nat)
    requires Fits(slot, width, |bytes|) && pointer < Pow256(width)
    ensures ReadSlot(WriteSlot(bytes, width, slot, pointer), width, slot) == pointer
  {
    DecodeEncode(pointer, width);
  }

  lemma WriteBack(bytes: seq<byte>, width: nat, slot: nat, pointer: nat)
    requires Fits(slot, width, |bytes|)
    ensures WriteSlot(WriteSlot(bytes, width, slot, pointer), width, slot, ReadSlot(bytes, width, slot)) == bytes
  {
    EncodeDecode(bytes[slot..slot + width]);
    PatchBack(bytes, slot, Encode(pointer, width));
  }

  lemma {:induction false} OtherSlots(bytes: seq<byte>, width: nat, slots: seq<nat>, slot: nat, pointer: nat)
    requires Fits(slot, width, |bytes|) && Within(slots, width, 0, |bytes|) && SlotsMiss(slots, width, slot, width)
    ensures Carried(WriteSlot(bytes, width, slot, pointer), width, slots) == Carried(bytes, width, slots)
  {
    if slots != [] {
      PatchElsewhere(bytes, slot, Encode(pointer, width), slots[0], width);
      assert ReadSlot(WriteSlot(bytes, width, slot, pointer), width, slots[0]) == ReadSlot(bytes, width, slots[0]);
      OtherSlots(bytes, width, slots[1..], slot, pointer);
    }
  }

  lemma {:induction false} OtherRefs(bytes: seq<byte>, width: nat, slots: seq<nat>, slot: nat, pointer: nat, o: ObjectId)
    requires Fits(slot, width, |bytes|) && Within(slots, width, 0, |bytes|) && SlotsMiss(slots, width, slot, width)
    ensures SlotRefs(WriteSlot(bytes, width, slot, pointer), width, slots, o) == SlotRefs(bytes, width, slots, o)
  {
    if slots != [] {
      PatchElsewhere(bytes, slot, Encode(pointer, width), slots[0], width);
      OtherRefs(bytes, width, slots[1..], slot, pointer, o);
    }
  }

  predicate ObjectsMiss(objects: seq<(nat, ObjectId)>, width: nat, slot: nat) {
    forall i :: 0 <= i < |objects| ==> Apart(objects[i].0, width, slot, width)
  }

  lemma {:induction false} RestoreElsewhere(bytes: seq<byte>, width: nat, objects: seq<(nat, ObjectId)>, slot: nat, pointer: nat)
    requires ObjectsFit(objects, width, |bytes|) && Fits(slot, width, |bytes|) && ObjectsMiss(objects, width, slot)
    ensures Restore(WriteSlot(bytes, width, slot, pointer), width, objects) == WriteSlot(Restore(bytes, width, objects), width, slot, pointer)
    decreases |objects|
  {
    if objects != [] {
      var o := objects[0];
      PatchesCommute(bytes, slot, Encode(pointer, width), o.0, Encode(o.1, width));
      RestoreElsewhere(WriteSlot(bytes, width, o.0, o.1), width, objects[1..], slot, pointer);
    }
  }

  // ---- capture succeeds: every slot null, every other byte as it was ----

  lemma {:induction false} CaptureNulls(bytes: seq<byte>, width: nat, slots: seq<nat>, objects: seq<(nat, ObjectId)>, w: World)
    requires Within(slots, width, 0, |bytes|) && CaptureSlots(bytes, width, slots, objects, w).ok
    ensures CaptureSlots(bytes, width, slots, objects, w).bytes == NullSlots(bytes, width, slots)
    decreases |slots|
  {
    if slots != [] {
      var raw := ReadSlot(bytes, width, slots[0]);
      if raw == 0 {
        NullSlot(bytes, width, slots[0]);
        CaptureNulls(bytes, width, slots[1..], objects, w);
      } else {
        CaptureNulls(WriteSlot(bytes, width, slots[0], 0), width, slots[1..], objects + [(slots[0], raw)],
                     Marshal(w.Next(), raw));
      }
    }
  }

  lemma {:induction false} CaptureCarries(bytes: seq<byte>, width: nat, slots: seq<nat>, objects: seq<(nat, ObjectId)>, w: World)
    requires Within(slots, width, 0, |bytes|) && Separate(slots, width) && CaptureSlots(bytes, width, slots, objects, w).ok
    ensures CaptureSlots(bytes, width, slots, objects, w).objects == objects + Carried(bytes, width, slots)
    decreases |slots|
  {
    if slots != [] {
      var raw := ReadSlot(bytes, width, slots[0]);
      if raw == 0 {
        CaptureCarries(bytes, width, slots[1..], objects, w);
      } else {
        OtherSlots(bytes, width, slots[1..], slots[0], 0);
        CaptureCarries(WriteSlot(bytes, width, slots[0], 0), width, slots[1..], objects + [(slots[0], raw)],
                       Marshal(w.Next(), raw));
      }
    }
  }

  predicate OutsideSlots(slots: seq<nat>, width: nat, i: nat) {
    forall k :: 0 <= k < |slots| ==> !(slots[k] <= i < slots[k] + width)
  }

  lemma {:induction false} NullSlotsExact(bytes: seq<byte>, width: nat, slots: seq<nat>)
    requires Within(slots, width, 0, |bytes|) && Separate(slots, width)
    ensures var r := NullSlots(bytes, width, slots);
      && (forall k :: 0 <= k < |slots| ==> ReadSlot(r, width, slots[k]) == 0)
      && (forall i :: 0 <= i < |bytes| && OutsideSlots(slots, width, i) ==> r[i] == bytes[i])
    decreases |slots|
  {
    if slots != [] {
      var nulled := WriteSlot(bytes, width, slots[0], 0);
      WriteRead(bytes, width, slots[0], 0);
      NullSlotsExact(nulled, width, slots[1..]);
      NullSlotsElsewhere(nulled, width, slots[1..], slots[0]);
      forall i | 0 <= i < |bytes| && OutsideSlots(slots, width, i) ensures NullSlots(bytes, width, slots)[i] == bytes[i] {
        assert OutsideSlots(slots[1..], width, i);
      }
    }
  }

  lemma {:induction false} NullSlotsElsewhere(bytes: seq<byte>, width: nat, slots: seq<nat>, slot: nat)
    requires Within(slots, width, 0, |bytes|) && Fits(slot, width, |bytes|) && SlotsMiss(slots, width, slot, width)
    ensures ReadSlot(NullSlots(bytes, width, slots), width, slot) == ReadSlot(bytes, width, slot)
    decreases |slots|
  {
    if slots != [] {
      PatchElsewhere(bytes, slots[0], Encode(0, width), slot, width);
      NullSlotsElsewhere(WriteSlot(bytes, width, slots[0], 0), width, slots[1..], slot);
    }
  }

  lemma RestoreFirst(bytes: seq<byte>, width: nat, slot: nat, rest: seq<(nat, ObjectId)>, raw: ObjectId)
    requires Fits(slot, width, |bytes|) && ObjectsFit(rest, width, |bytes|) && ObjectsMiss(rest, width, slot)
    ensures ObjectsFit([(slot, raw)] + rest, width, |bytes|)
    ensures Restore(bytes, width, [(slot, raw)] + rest) == WriteSlot(Restore(bytes, width, rest), width, slot, raw)
  {
    assert ([(slot, raw)] + rest)[1..] == rest;
    RestoreElsewhere(bytes, width, rest, slot, raw);
  }

  lemma {:induction false} CarriedFits(bytes: seq<byte>, width: nat, slots: seq<nat>)
    requires Within(slots, width, 0, |bytes|)
    ensures ObjectsFit(Carried(bytes, width, slots), width, |bytes|)
  {
    if slots != [] { CarriedFits(bytes, width, slots[1..]); }
  }

  lemma {:induction false} CarriedMiss(bytes: seq<byte>, width: nat, slots: seq<nat>, slot: nat)
    requires Within(slots, width, 0, |bytes|) && SlotsMiss(slots, width, slot, width)
    ensures ObjectsMiss(Carried(bytes, width, slots), width, slot)
  {
    if slots != [] { CarriedMiss(bytes, width, slots[1..], slot); }
  }

  /** Writing the carried references back undoes the capture. */
  lemma {:induction false} RestoreNull(bytes: seq<byte>, width: nat, slots: seq<nat>)
    requires Within(slots, width, 0, |bytes|) && Separate(slots, width)
    ensures ObjectsFit(Carried(bytes, width, slots), width, |bytes|)
    ensures Restore(NullSlots(bytes, width, slots), width, Carried(bytes, width, slots)) == bytes
    decreases |slots|
  {
    if slots != [] {
      var raw := ReadSlot(bytes, width, slots[0]);
      var nulled := WriteSlot(bytes, width, slots[0], 0);
      var rest := Carried(bytes, width, slots[1..]);
      OtherSlots(bytes, width, slots[1..], slots[0], 0);
      RestoreNull(nulled, width, slots[1..]);
      if raw == 0 {
        NullSlot(bytes, width, slots[0]);
      } else {
        CarriedFits(bytes, width, slots[1..]);
        CarriedMiss(bytes, width, slots[1..], slots[0]);
        RestoreFirst(NullSlots(nulled, width, slots[1..]), width, slots[0], rest, raw);
        WriteBack(bytes, width, slots[0], 0);
      }
    }
  }

  // ---- references are conserved at every step, also when a call fails ----

  /** Overwriting one slot changes what the buffer holds by that slot alone. */
  lemma {:induction false} SlotRefsWrite(bytes: seq<byte>, width: nat, slots: seq<nat>, k: nat, pointer: nat, o: ObjectId)
    requires Within(slots, width, 0, |bytes|) && Separate(slots, width) && k < |slots| && pointer < Pow256(width)
    ensures SlotRefs(WriteSlot(bytes, width, slots[k], pointer), width, slots, o)
            == SlotRefs(bytes, width, slots, o) - One(ReadSlot(bytes, width, slots[k]) == o) + One(pointer == o)
    decreases |slots|
  {
    if k == 0 {
      WriteRead(bytes, width, slots[0], pointer);
      OtherRefs(bytes, width, slots[1..], slots[0], pointer, o);
    } else {
      PatchElsewhere(bytes, slots[k], Encode(pointer, width), slots[0], width);
      assert slots[1..][k - 1] == slots[k];
      SlotRefsWrite(bytes, width, slots[1..], k - 1, pointer, o);
    }
  }

  lemma {:induction false} ObjectRefsAppend(objects: seq<(nat, ObjectId)>, last: (nat, ObjectId), o: ObjectId)
    ensures ObjectRefs(objects + [last], o) == ObjectRefs(objects, o) + One(last.1 == o)
  {
    if objects == [] {
      assert objects + [last] == [last];
    } else {
      assert (objects + [last])[1..] == objects[1..] + [last];
      ObjectRefsAppend(objects[1..], last, o);
    }
  }

  /** What the native side has outstanding beyond what the buffer and the carried objects account for does not change. */
  predicate Balanced(w: World, bytes: seq<byte>, objects: seq<(nat, ObjectId)>, w': World, bytes': seq<byte>, objects': seq<(nat, ObjectId)>,
                     width: nat, slots: seq<nat>)
    requires Within(slots, width, 0, |bytes|) && |bytes'| == |bytes|
  {
    && w'.o == w.o
    && w'.native - SlotRefs(bytes', width, slots, w.o) == w.native - SlotRefs(bytes, width, slots, w.o)
    && w'.agile - ObjectRefs(objects', w.o) == w.agile - ObjectRefs(objects, w.o)
  }

  lemma CaptureStepBalanced(bytes: seq<byte>, width: nat, slots: seq<nat>, i: nat, objects: seq<(nat, ObjectId)>, w: World)
    requires Within(slots, width, 0, |bytes|) && Separate(slots, width) && i < |slots| && ReadSlot(bytes, width, slots[i]) != 0
    ensures var raw := ReadSlot(bytes, width, slots[i]);
      var nulled := WriteSlot(bytes, width, slots[i], 0);
      && Balanced(w, bytes, objects, Marshal(w.Next(), raw), nulled, objects + [(slots[i], raw)], width, slots)
      && Balanced(w, bytes, objects, Release(w.Next(), One(raw == w.o)), nulled, objects, width, slots)
  {
    SlotRefsWrite(bytes, width, slots, i, 0, w.o);
    ObjectRefsAppend(objects, (slots[i], ReadSlot(bytes, width, slots[i])), w.o);
  }

  lemma {:induction false} CaptureBalanced(bytes: seq<byte>, width: nat, slots: seq<nat>, i: nat, objects: seq<(nat, ObjectId)>, w: World)
    requires Within(slots, width, 0, |bytes|) && Separate(slots, width) && i <= |slots|
    ensures var r := CaptureSlots(bytes, width, slots[i..], objects, w);
            Balanced(w, bytes, objects, r.world, r.bytes, r.objects, width, slots)
    decreases |slots| - i
  {
    if i < |slots| {
      assert slots[i..][1..] == slots[i + 1..];
      var raw := ReadSlot(bytes, width, slots[i]);
      if raw == 0 {
        CaptureBalanced(bytes, width, slots, i + 1, objects, w);
      } else {
        CaptureStepBalanced(bytes, width, slots, i, objects, w);
        if w.Grants() {
          CaptureBalanced(WriteSlot(bytes, width, slots[i], 0), width, slots, i + 1, objects + [(slots[i], raw)], Marshal(w.Next(), raw));
        }
      }
    }
  }

  // ---- resolve ----

  /** One marshalling call that gives the reference to `x` back. */
  function Resolved(w: World, x: ObjectId): World {
    Acquire(DropAgile(w.Next(), One(x == w.o)), One(x == w.o))
  }

  datatype Resolving = Resolving(bytes: seq<byte>, rest: seq<(nat, ObjectId)>, world: World, ok: bool)

  function ResolveSlots(bytes: seq<byte>, width: nat, objects: seq<(nat, ObjectId)>, w: World): (r: Resolving)
    requires ObjectsFit(objects, width, |bytes|)
    ensures |r.bytes| == |bytes|
    ensures r.ok ==> r.rest == []
    decreases |objects|
  {
    if objects == [] then Resolving(bytes, [], w, true)
    else
      var dropped := DropAgile(w.Next(), One(objects[0].1 == w.o));
      if w.Grants()
      then ResolveSlots(WriteSlot(bytes, width, objects[0].0, objects[0].1), width, objects[1..], Acquire(dropped, One(objects[0].1 == w.o)))
      else Resolving(bytes, objects[1..], dropped, false)
  }

  lemma {:induction false} ResolveRestores(bytes: seq<byte>, width: nat, objects: seq<(nat, ObjectId)>, w: World)
    requires ObjectsFit(objects, width, |bytes|) && ResolveSlots(bytes, width, objects, w).ok
    ensures ResolveSlots(bytes, width, objects, w).bytes == Restore(bytes, width, objects)
    decreases |objects|
  {
    if objects != [] {
      ResolveRestores(WriteSlot(bytes, width, objects[0].0, objects[0].1), width, objects[1..],
                      Resolved(w, objects[0].1));
    }
  }

  /** The carried objects belong into distinct slots of the layout, all of them null. */
  predicate Awaited(bytes: seq<byte>, width: nat, slots: seq<nat>, objects: seq<(nat, ObjectId)>) {
    && ObjectsFit(objects, width, |bytes|)
    && (forall i :: 0 <= i < |objects| ==> objects[i].0 in slots && objects[i].1 < Pow256(width))
    && (forall i :: 0 <= i < |objects| ==> ReadSlot(bytes, width, objects[i].0) == 0)
    && (forall i, j :: 0 <= i < j < |objects| ==> Apart(objects[i].0, width, objects[j].0, width))
  }

  lemma AwaitedNext(bytes: seq<byte>, width: nat, slots: seq<nat>, objects: seq<(nat, ObjectId)>)
    requires Awaited(bytes, width, slots, objects) && objects != []
    ensures Awaited(WriteSlot(bytes, width, objects[0].0, objects[0].1), width, slots, objects[1..])
  {
    var written := WriteSlot(bytes, width, objects[0].0, objects[0].1);
    forall i | 0 <= i < |objects[1..]| ensures ReadSlot(written, width, objects[1..][i].0) == 0 {
      assert objects[1..][i] == objects[i + 1];
      PatchElsewhere(bytes, objects[0].0, Encode(objects[0].1, width), objects[i + 1].0, width);
    }
  }

  lemma {:induction false} ResolveBalanced(bytes: seq<byte>, width: nat, slots: seq<nat>, objects: seq<(nat, ObjectId)>, w: World)
    requires Within(slots, width, 0, |bytes|) && Separate(slots, width) && Awaited(bytes, width, slots, objects)
    ensures var r := ResolveSlots(bytes, width, objects, w);
            Balanced(w, bytes, objects, r.world, r.bytes, r.rest, width, slots)
    decreases |objects|
  {
    if objects != [] && w.Grants() {
      var k :| 0 <= k < |slots| && slots[k] == objects[0].0;
      SlotRefsWrite(bytes, width, slots, k, objects[0].1, w.o);
      AwaitedNext(bytes, width, slots, objects);
      ResolveBalanced(WriteSlot(bytes, width, objects[0].0, objects[0].1), width, slots, objects[1..], Resolved(w, objects[0].1));
    }
  }

  lemma {:induction false} CarriedAwaited(bytes: seq<byte>, width: nat, slots: seq<nat>)
    requires Within(slots, width, 0, |bytes|) && Separate(slots, width)
    ensures forall i :: 0 <= i < |Carried(bytes, width, slots)| ==>
              Carried(bytes, width, slots)[i].0 in slots && Carried(bytes, width, slots)[i].1 < Pow256(width)
    ensures forall i, j :: 0 <= i < j < |Carried(bytes, width, slots)| ==>
              Apart(Carried(bytes, width, slots)[i].0, width, Carried(bytes, width, slots)[j].0, width)
  {
    if slots != [] {
      CarriedAwaited(bytes, width, slots[1..]);
      EncodeDecode(bytes[slots[0]..slots[0] + width]);
      CarriedMiss(bytes, width, slots[1..], slots[0]);
    }
  }

  /** What capture stores is what resolve expects. */
  lemma StoredAwaited(bytes: seq<byte>, width: nat, slots: seq<nat>)
    requires Within(slots, width, 0, |bytes|) && Separate(slots, width)
    ensures Awaited(NullSlots(bytes, width, slots), width, slots, Carried(bytes, width, slots))
  {
    CarriedAwaited(bytes, width, slots);
    CarriedFits(bytes, width, slots);
    NullSlotsExact(bytes, width, slots);
  }

  /** A buffer whose slots are all null holds no reference. */
  lemma {:induction false} NullHoldsNothing(bytes: seq<byte>, width: nat, slots: seq<nat>, o: ObjectId)
    requires Within(slots, width, 0, |bytes|) && AllNull(bytes, width, slots)
    ensures SlotRefs(bytes, width, slots, o) == 0
  {
    if slots != [] {
      assert forall k :: 0 <= k < |slots[1..]| ==> slots[1..][k] == slots[k + 1];
      NullHoldsNothing(bytes, width, slots[1..], o);
    }
  }

  predicate AllNull(bytes: seq<byte>, width: nat, slots: seq<nat>)
    requires Within(slots, width, 0, |bytes|)
  {
    forall k :: 0 <= k < |slots| ==> ReadSlot(bytes, width, slots[k]) == 0
  }

  lemma {:induction false} CarriedRefs(bytes: seq<byte>, width: nat, slots: seq<nat>, o: ObjectId)
    requires Within(slots, width, 0, |bytes|)
    ensures ObjectRefs(Carried(bytes, width, slots), o) == SlotRefs(bytes, width, slots, o)
  {
    if slots != [] {
      CarriedRefs(bytes, width, slots[1..], o);
      if ReadSlot(bytes, width, slots[0]) != 0 { assert Carried(bytes, width, slots)[1..] == Carried(bytes, width, slots[1..]); }
    }
  }

  // ---- the loops, in place ----

  lemma {:induction false} CaptureSplit(bytes: seq<byte>, width: nat, first: seq<nat>, rest: seq<nat>, objects: seq<(nat, ObjectId)>, w: World)
    requires Within(first, width, 0, |bytes|) && Within(rest, width, 0, |bytes|)
    ensures Within(first + rest, width, 0, |bytes|)
    ensures var r := CaptureSlots(bytes, width, first, objects, w);
            CaptureSlots(bytes, width, first + rest, objects, w)
            == if r.ok then CaptureSlots(r.bytes, width, rest, r.objects, r.world) else r
    decreases |first|
  {
    if first == [] {
      assert first + rest == rest;
    } else {
      assert (first + rest)[1..] == first[1..] + rest;
      var raw := ReadSlot(bytes, width, first[0]);
      if raw == 0 {
        CaptureSplit(bytes, width, first[1..], rest, objects, w);
      } else if w.Grants() {
        CaptureSplit(WriteSlot(bytes, width, first[0], 0), width, first[1..], rest, objects + [(first[0], raw)],
                     Marshal(w.Next(), raw));
      }
    }
  }

  /** Takes the reference out of one slot and marshals it. */
  method CaptureSlot(root: array<byte>, width: nat, slot: nat, objects: seq<(nat, ObjectId)>, w: World)
    returns (ok: bool, objects': seq<(nat, ObjectId)>, w': World)
    requires Fits(slot, width, root.Length)
    modifies root
    ensures Within([slot], width, 0, root.Length)
    ensures Capturing(root[..], objects', w', ok) == CaptureSlots(old(root[..]), width, [slot], objects, w)
  {
    ok, objects', w' := true, objects, w;
    var raw := Decode(root[slot..slot + width]);
    assert root[..][slot..slot + width] == root[slot..slot + width];
    if raw != 0 {
      Overwrite(root, slot, Encode(0, width));
      ok := w.Grants();
      w' := if ok then Marshal(w.Next(), raw) else Release(w.Next(), One(raw == w.o));
      objects' := if ok then objects + [(slot, raw)] else objects;
    }
  }

  lemma CaptureFromField(bytes: seq<byte>, width: nat, fields: seq<Field>, index: nat, size: nat, base: nat, objects: seq<(nat, ObjectId)>, w: World)
    requires FieldsOk(fields, width, size) && Fits(base, size, |bytes|) && index < |fields|
    ensures Within(OneFieldSlots(fields[index], base), width, 0, |bytes|)
    ensures Within(FieldSlots(fields[index..], base), width, 0, |bytes|) && Within(FieldSlots(fields[index + 1..], base), width, 0, |bytes|)
    ensures var r := CaptureSlots(bytes, width, OneFieldSlots(fields[index], base), objects, w);
            CaptureSlots(bytes, width, FieldSlots(fields[index..], base), objects, w)
            == if r.ok then CaptureSlots(r.bytes, width, FieldSlots(fields[index + 1..], base), r.objects, r.world) else r
  {
    assert fields[index..][1..] == fields[index + 1..];
    OneFieldWithin(fields[index], width, base);
    FieldSlotsWithin(fields[index + 1..], width, base, size);
    CaptureSplit(bytes, width, OneFieldSlots(fields[index], base), FieldSlots(fields[index + 1..], base), objects, w);
  }

  /** One field: a COM slot is taken, a nested struct is entered, anything else is left alone. */
  method CaptureField(field: Field, width: nat, root: array<byte>, base: nat, objects: seq<(nat, ObjectId)>, w: World)
    returns (ok: bool, objects': seq<(nat, ObjectId)>, w': World)
    requires FieldOk(field, width) && Fits(base + field.offset, SizeOf(field.handle, width), root.Length)
    modifies root
    ensures Within(OneFieldSlots(field, base), width, 0, root.Length)
    ensures Capturing(root[..], objects', w', ok) == CaptureSlots(old(root[..]), width, OneFieldSlots(field, base), objects, w)
    decreases field
  {
    match field.handle
    case StructType(bytes, fields) =>
      ghost var before, slots := root[..], FieldSlots(fields, base + field.offset);
      assert FieldsOk(fields, width, bytes) && OneFieldSlots(field, base) == slots;
      ok, objects', w' := CaptureFields(fields, width, bytes, root, base + field.offset, objects, w);
      assert Capturing(root[..], objects', w', ok) == CaptureSlots(before, width, slots, objects, w);
    case ComPointer =>
      ok, objects', w' := CaptureSlot(root, width, base + field.offset, objects, w);
    case Plain(_) =>
      ok, objects', w' := true, objects, w;
  }

  /** Captures the COM slots of one struct level, nested structs included, nulling them in `root`. */
  method CaptureFields(fields: seq<Field>, width: nat, size: nat, root: array<byte>, base: nat, objects: seq<(nat, ObjectId)>, w: World)
    returns (ok: bool, objects': seq<(nat, ObjectId)>, w': World)
    requires FieldsOk(fields, width, size) && Fits(base, size, root.Length)
    modifies root
    ensures Within(FieldSlots(fields, base), width, 0, root.Length)
    ensures Capturing(root[..], objects', w', ok) == CaptureSlots(old(root[..]), width, FieldSlots(fields, base), objects, w)
    decreases fields
  {
    ok, objects', w' := true, objects, w;
    FieldSlotsWithin(fields, width, base, size);
    ghost var whole := CaptureSlots(root[..], width, FieldSlots(fields, base), objects, w);
    assert fields[0..] == fields;
    for index := 0 to |fields|
      invariant ok
      invariant Within(FieldSlots(fields[index..], base), width, 0, root.Length)
      invariant CaptureSlots(root[..], width, FieldSlots(fields[index..], base), objects', w') == whole
    {
      CaptureFromField(root[..], width, fields, index, size, base, objects', w');
      ok, objects', w' := CaptureField(fields[index], width, root, base, objects', w');
      if !ok { return; }
    }
  }

  /** Writes the carried references back, one by one, until marshalling fails. */
  method ResolveFields(root: array<byte>, width: nat, objects: seq<(nat, ObjectId)>, w: World)
    returns (ok: bool, rest: seq<(nat, ObjectId)>, w': World)
    requires ObjectsFit(objects, width, root.Length)
    modifies root
    ensures Resolving(root[..], rest, w', ok) == ResolveSlots(old(root[..]), width, objects, w)
  {
    ok, rest, w' := true, objects, w;
    ghost var whole := ResolveSlots(root[..], width, objects, w);
    while rest != []
      invariant ok && ObjectsFit(rest, width, root.Length)
      invariant ResolveSlots(root[..], width, rest, w') == whole
      decreases |rest|
    {
      var (slot, o) := rest[0];
      var granted := w'.Grants();
      w' := DropAgile(w'.Next(), One(o == w'.o));
      rest := rest[1..];
      if !granted {
        ok := false;
        return;
      }
      Overwrite(root, slot, Encode(o, width));
      w' := Acquire(w', One(o == w'.o));
    }
  }
}
