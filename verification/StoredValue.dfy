/** Capturing a WinRT result on a worker and resolving it on the JavaScript thread. */
module StoredValue {
  import opened Wrappers
  import opened LittleEndian
  import opened ByteRange
  import opened ComObjects
  import opened StoredStruct
  import opened Tally

  /** A result value; a struct is its layout and its bytes, other values without references are opaque. */
  datatype Value =
    | Direct(tag: int)
    | Object(o: ObjectId)
    | Async(o: ObjectId, asyncType: int)
    | ObjectArray(items: seq<Option<ObjectId>>)
    | Struct(handle: TypeHandle, bytes: seq<byte>)
    | Array(elementType: int, values: seq<Value>)
    | RawPtr(address: nat)
    | OutValue(address: nat, valueType: int)

  datatype Stored =
    | StoredDirect(value: Value)
    | StoredObject(o: ObjectId)
    | StoredAsync(o: ObjectId, asyncType: int)
    | StoredItems(items: seq<Option<ObjectId>>)
    | StoredBuffer(handle: TypeHandle, bytes: seq<byte>, objects: seq<(nat, ObjectId)>)
    | StoredArray(elementType: int, values: seq<Stored>)

  datatype CaptureError = CallFailed | UnresolvedPointer

  // ---- well-formed values and what they hold ----

  predicate BufferOk(handle: TypeHandle, bytes: seq<byte>, width: nat) {
    LayoutOk(handle, width) && |bytes| == SizeOf(handle, width)
  }

  lemma BufferSlots(handle: TypeHandle, bytes: seq<byte>, width: nat)
    requires BufferOk(handle, bytes, width)
    ensures Within(Slots(handle), width, 0, |bytes|) && Separate(Slots(handle), width)
  {
    if handle.StructType? {
      FieldSlotsWithin(handle.fields, width, 0, handle.bytes);
      FieldSlotsSeparate(handle.fields, width, 0, handle.bytes);
    }
  }

  predicate ValueOk(v: Value, width: nat) {
    match v
    case Struct(handle, bytes) => BufferOk(handle, bytes, width) && Within(Slots(handle), width, 0, |bytes|) && Separate(Slots(handle), width)
    case Array(_, values) => ValuesOk(values, width)
    case _ => true
  }

  predicate ValuesOk(values: seq<Value>, width: nat) {
    values == [] || (ValueOk(values[0], width) && ValuesOk(values[1..], width))
  }

  function ItemRefs(items: seq<Option<ObjectId>>, o: ObjectId): nat {
    if items == [] then 0 else (if items[0] == Some(o) then 1 else 0) + ItemRefs(items[1..], o)
  }

  /** How many references to `o` a value holds; dropping it releases them. */
  function ValueRefs(v: Value, width: nat, o: ObjectId): nat
    requires ValueOk(v, width)
  {
    match v
    case Object(x) => if x == o then 1 else 0
    case Async(x, _) => if x == o then 1 else 0
    case ObjectArray(items) => ItemRefs(items, o)
    case Struct(handle, bytes) => SlotRefs(bytes, width, Slots(handle), o)
    case Array(_, values) => ValuesRefs(values, width, o)
    case _ => 0
  }

  function ValuesRefs(values: seq<Value>, width: nat, o: ObjectId): nat
    requires ValuesOk(values, width)
  {
    if values == [] then 0 else ValueRefs(values[0], width, o) + ValuesRefs(values[1..], width, o)
  }

  /** How many agile references to `o` a stored value carries. */
  function StoredRefs(s: Stored, o: ObjectId): nat {
    match s
    case StoredDirect(_) => 0
    case StoredObject(x) => if x == o then 1 else 0
    case StoredAsync(x, _) => if x == o then 1 else 0
    case StoredItems(items) => ItemRefs(items, o)
    case StoredBuffer(_, _, objects) => ObjectRefs(objects, o)
    case StoredArray(_, values) => StoredsRefs(values, o)
  }

  function StoredsRefs(values: seq<Stored>, o: ObjectId): nat {
    if values == [] then 0 else StoredRefs(values[0], o) + StoredsRefs(values[1..], o)
  }

  // ---- capture ----

  // The item itself stays in its array, which is dropped as a whole.
  function MarshalItem(w: World, x: ObjectId): World {
    w.(agile := w.agile + One(x == w.o))
  }

  function CaptureItems(items: seq<Option<ObjectId>>, done: seq<Option<ObjectId>>, w: World): (r: (bool, seq<Option<ObjectId>>, World)) {
    if items == [] then (true, done, w)
    else if items[0].None? then CaptureItems(items[1..], done + [None], w)
    else if w.Grants() then CaptureItems(items[1..], done + [items[0]], MarshalItem(w.Next(), items[0].value))
    else (false, done, w.Next())
  }

  // Reading an element copies it, so the copy's references are acquired first.
  function CaptureAll(values: seq<Value>, width: nat, done: seq<Stored>, w: World): (r: (Option<CaptureError>, seq<Stored>, World))
    requires ValuesOk(values, width)
    decreases values
  {
    if values == [] then (None, done, w)
    else
      var (s, w') := Capture(values[0], width, Acquire(w, ValueRefs(values[0], width, w.o)));
      if s.Ok? then CaptureAll(values[1..], width, done + [s.value], w') else (Some(s.error), done, w')
  }

  function CaptureArray(items: seq<Option<ObjectId>>, w: World): (r: (Result<Stored, CaptureError>, World)) {
    var (ok, done, w') := CaptureItems(items, [], w);
    if ok
    then (Ok(StoredItems(done)), Release(w', ItemRefs(items, w.o)))
    else (Err(CallFailed), Release(DropAgile(w', ItemRefs(done, w.o)), ItemRefs(items, w.o)))
  }

  // The interface is cast to IUnknown first, which adds a reference of its own.
  function CaptureAsync(x: ObjectId, asyncType: int, w: World): (r: (Result<Stored, CaptureError>, World)) {
    if !w.Grants() then (Err(CallFailed), Release(w.Next(), One(x == w.o)))
    else
      var cast := Acquire(w.Next(), One(x == w.o));
      if cast.Grants()
      then (Ok(StoredAsync(x, asyncType)), Release(Marshal(cast.Next(), x), One(x == w.o)))
      else (Err(CallFailed), Release(cast.Next(), 2 * One(x == w.o)))
  }

  function CaptureBuffer(handle: TypeHandle, bytes: seq<byte>, width: nat, w: World): (r: (Result<Stored, CaptureError>, World))
    requires ValueOk(Struct(handle, bytes), width)
  {
    var r := CaptureSlots(bytes, width, Slots(handle), [], w);
    if r.ok
    then (Ok(StoredBuffer(handle, r.bytes, r.objects)), r.world)
    else (Err(CallFailed), Release(DropAgile(r.world, ObjectRefs(r.objects, w.o)), SlotRefs(r.bytes, width, Slots(handle), w.o)))
  }

  function Capture(v: Value, width: nat, w: World): (r: (Result<Stored, CaptureError>, World))
    requires ValueOk(v, width)
    decreases v
  {
    match v
    case Object(x) =>
      if w.Grants() then (Ok(StoredObject(x)), Marshal(w.Next(), x)) else (Err(CallFailed), Release(w.Next(), One(x == w.o)))
    case Async(x, asyncType) => CaptureAsync(x, asyncType, w)
    case ObjectArray(items) => CaptureArray(items, w)
    case Struct(handle, bytes) => CaptureBuffer(handle, bytes, width, w)
    case Array(elementType, values) =>
      var (error, done, w') := CaptureAll(values, width, [], w);
      if error.None?
      then (Ok(StoredArray(elementType, done)), Release(w', ValuesRefs(values, width, w.o)))
      else (Err(error.value), Release(DropAgile(w', StoredsRefs(done, w.o)), ValuesRefs(values, width, w.o)))
    case RawPtr(_) => (Err(UnresolvedPointer), w)
    case OutValue(_, _) => (Err(UnresolvedPointer), w)
    case Direct(_) => (Ok(StoredDirect(v)), w)
  }

  // ---- capturing conserves references, whether it succeeds or fails partway ----

  lemma {:induction false} ItemRefsAppend(items: seq<Option<ObjectId>>, last: Option<ObjectId>, o: ObjectId)
    ensures ItemRefs(items + [last], o) == ItemRefs(items, o) + One(last == Some(o))
  {
    if items == [] {
      assert items + [last] == [last];
    } else {
      assert (items + [last])[1..] == items[1..] + [last];
      ItemRefsAppend(items[1..], last, o);
    }
  }

  lemma {:induction false} StoredsRefsAppend(values: seq<Stored>, last: Stored, o: ObjectId)
    ensures StoredsRefs(values + [last], o) == StoredsRefs(values, o) + StoredRefs(last, o)
  {
    if values == [] {
      assert values + [last] == [last];
    } else {
      assert (values + [last])[1..] == values[1..] + [last];
      StoredsRefsAppend(values[1..], last, o);
    }
  }

  lemma {:induction false} CaptureItemsConserves(items: seq<Option<ObjectId>>, done: seq<Option<ObjectId>>, w: World)
    ensures var (ok, done', w') := CaptureItems(items, done, w);
      && w'.o == w.o && w'.native == w.native
      && w'.agile - ItemRefs(done', w.o) == w.agile - ItemRefs(done, w.o)
    decreases |items|
  {
    if items != [] {
      ItemRefsAppend(done, items[0], w.o);
      if items[0].None? {
        CaptureItemsConserves(items[1..], done + [None], w);
      } else if w.Grants() {
        CaptureItemsConserves(items[1..], done + [items[0]], MarshalItem(w.Next(), items[0].value));
      }
    }
  }

  lemma {:induction false} CaptureItemsDone(items: seq<Option<ObjectId>>, done: seq<Option<ObjectId>>, w: World)
    ensures CaptureItems(items, done, w).0 ==> CaptureItems(items, done, w).1 == done + items
    decreases |items|
  {
    if items == [] {
      assert done + items == done;
    } else {
      assert done + [items[0]] + items[1..] == done + items;
      if items[0].None? {
        CaptureItemsDone(items[1..], done + [None], w);
      } else if w.Grants() {
        CaptureItemsDone(items[1..], done + [items[0]], MarshalItem(w.Next(), items[0].value));
      }
    }
  }

  lemma {:induction false} CaptureAllConserves(values: seq<Value>, width: nat, done: seq<Stored>, w: World)
    requires ValuesOk(values, width)
    ensures var (error, done', w') := CaptureAll(values, width, done, w);
      && w'.o == w.o && w'.native == w.native
      && w'.agile - StoredsRefs(done', w.o) == w.agile - StoredsRefs(done, w.o)
      && (error.None? ==> StoredsRefs(done', w.o) == StoredsRefs(done, w.o) + ValuesRefs(values, width, w.o))
    decreases values
  {
    if values != [] {
      var copied := Acquire(w, ValueRefs(values[0], width, w.o));
      CaptureConserves(values[0], width, copied);
      var (s, w') := Capture(values[0], width, copied);
      if s.Ok? {
        StoredsRefsAppend(done, s.value, w.o);
        CaptureAllConserves(values[1..], width, done + [s.value], w');
      }
    }
  }

  /** The value's references are gone; they are carried as agile references if the capture succeeded. */
  predicate ConservedBy(v: Value, width: nat, w: World, s: Result<Stored, CaptureError>, w': World)
    requires ValueOk(v, width)
  {
    && w'.o == w.o
    && w'.native == w.native - ValueRefs(v, width, w.o)
    && w'.agile == w.agile + (if s.Ok? then StoredRefs(s.value, w.o) else 0)
    && (s.Ok? ==> StoredRefs(s.value, w.o) == ValueRefs(v, width, w.o))
  }

  lemma StructConserves(handle: TypeHandle, bytes: seq<byte>, width: nat, w: World)
    requires ValueOk(Struct(handle, bytes), width)
    ensures var (s, w') := CaptureBuffer(handle, bytes, width, w); ConservedBy(Struct(handle, bytes), width, w, s, w')
  {
    var slots := Slots(handle);
    assert slots[0..] == slots;
    CaptureBalanced(bytes, width, slots, 0, [], w);
    var r := CaptureSlots(bytes, width, slots, [], w);
    if r.ok {
      CaptureNulls(bytes, width, slots, [], w);
      CaptureCarries(bytes, width, slots, [], w);
      NullSlotsExact(bytes, width, slots);
      NullHoldsNothing(r.bytes, width, slots, w.o);
      CarriedRefs(bytes, width, slots, w.o);
      assert [] + Carried(bytes, width, slots) == Carried(bytes, width, slots);
    }
  }

  lemma ObjectsConserve(items: seq<Option<ObjectId>>, width: nat, w: World)
    ensures var (s, w') := CaptureArray(items, w); ConservedBy(ObjectArray(items), width, w, s, w')
  {
    CaptureItemsConserves(items, [], w);
    CaptureItemsDone(items, [], w);
    assert [] + items == items;
  }

  lemma SingleConserves(v: Value, width: nat, w: World)
    requires !v.ObjectArray? && !v.Struct? && !v.Array?
    ensures var (s, w') := Capture(v, width, w); ConservedBy(v, width, w, s, w')
  {
  }

  lemma {:induction false} ArrayConserves(v: Value, width: nat, w: World)
    requires ValueOk(v, width) && v.Array?
    ensures var (s, w') := Capture(v, width, w); ConservedBy(v, width, w, s, w')
    decreases v, 0
  {
    CaptureAllConserves(v.values, width, [], w);
  }

  /**
   Capture consumes every reference of the value exactly once. When it succeeds each is
   carried by exactly one agile reference; when it fails, wherever it fails, none is left.
   */
  lemma {:induction false} CaptureConserves(v: Value, width: nat, w: World)
    requires ValueOk(v, width)
    ensures var (s, w') := Capture(v, width, w); ConservedBy(v, width, w, s, w')
    decreases v, 1
  {
    match v
    case ObjectArray(items) => ObjectsConserve(items, width, w);
    case Struct(handle, bytes) => StructConserves(handle, bytes, width, w);
    case Array(_, values) => ArrayConserves(v, width, w);
    case _ => SingleConserves(v, width, w);
  }

  // ---- resolve ----

  function ResolveItems(items: seq<Option<ObjectId>>, done: seq<Option<ObjectId>>, w: World)
    : (r: (bool, seq<Option<ObjectId>>, seq<Option<ObjectId>>, World))
  {
    if items == [] then (true, done, [], w)
    else if items[0].None? then ResolveItems(items[1..], done + [None], w)
    else if w.Grants() then ResolveItems(items[1..], done + [items[0]], Resolved(w, items[0].value))
    else (false, done, items[1..], DropAgile(w.Next(), One(items[0].value == w.o)))
  }

  predicate StoredOk(s: Stored, width: nat) {
    match s
    case StoredDirect(v) => v.Direct?
    case StoredBuffer(handle, bytes, objects) =>
      && BufferOk(handle, bytes, width)
      && Within(Slots(handle), width, 0, |bytes|) && Separate(Slots(handle), width)
      && Awaited(bytes, width, Slots(handle), objects)
      && AllNull(bytes, width, Slots(handle))
    case StoredArray(_, values) => StoredsOk(values, width)
    case _ => true
  }

  predicate StoredsOk(values: seq<Stored>, width: nat) {
    values == [] || (StoredOk(values[0], width) && StoredsOk(values[1..], width))
  }

  function ResolveAll(values: seq<Stored>, width: nat, done: seq<Value>, w: World): (r: (bool, seq<Value>, seq<Stored>, World))
    requires StoredsOk(values, width)
    ensures r.0 ==> r.2 == []
    ensures ValuesOk(done, width) ==> ValuesOk(r.1, width)
    ensures StoredsOk(r.2, width)
    decreases values
  {
    if values == [] then (true, done, [], w)
    else
      var (v, w') := Resolve(values[0], width, w);
      if v.Some? then
        ValuesOkAppend(done, v.value, width);
        ResolveAll(values[1..], width, done + [v.value], w')
      else (false, done, values[1..], w')
  }

  lemma {:induction false} ValuesOkAppend(values: seq<Value>, last: Value, width: nat)
    requires ValueOk(last, width)
    ensures ValuesOk(values, width) ==> ValuesOk(values + [last], width)
  {
    if values == [] {
      assert values + [last] == [last];
    } else {
      assert (values + [last])[1..] == values[1..] + [last];
      ValuesOkAppend(values[1..], last, width);
    }
  }

  function ResolveAsync(x: ObjectId, asyncType: int, w: World): (r: (Option<Value>, World)) {
    if !w.Grants() then (None, DropAgile(w.Next(), One(x == w.o)))
    else
      var resolved := Resolved(w, x);
      if resolved.Grants()
      then (Some(Async(x, asyncType)), Release(Acquire(resolved.Next(), One(x == w.o)), One(x == w.o)))
      else (None, Release(resolved.Next(), One(x == w.o)))
  }

  function ResolveArray(items: seq<Option<ObjectId>>, w: World): (r: (Option<Value>, World)) {
    var (ok, done, rest, w') := ResolveItems(items, [], w);
    if ok then (Some(ObjectArray(done)), w') else (None, Release(DropAgile(w', ItemRefs(rest, w.o)), ItemRefs(done, w.o)))
  }

  function ResolveBuffer(handle: TypeHandle, bytes: seq<byte>, objects: seq<(nat, ObjectId)>, width: nat, w: World): (r: (Option<Value>, World))
    requires StoredOk(StoredBuffer(handle, bytes, objects), width)
    ensures r.0.Some? ==> ValueOk(r.0.value, width)
  {
    var r := ResolveSlots(bytes, width, objects, w);
    if r.ok then (Some(Struct(handle, r.bytes)), r.world)
    else (None, Release(DropAgile(r.world, ObjectRefs(r.rest, w.o)), SlotRefs(r.bytes, width, Slots(handle), w.o)))
  }

  /** Resolving one stored value; a failed call drops everything that was stored or restored. */
  function Resolve(s: Stored, width: nat, w: World): (r: (Option<Value>, World))
    requires StoredOk(s, width)
    ensures r.0.Some? ==> ValueOk(r.0.value, width)
    decreases s
  {
    match s
    case StoredDirect(v) => (Some(v), w)
    case StoredObject(x) => if w.Grants() then (Some(Object(x)), Resolved(w, x)) else (None, DropAgile(w.Next(), One(x == w.o)))
    case StoredAsync(x, asyncType) => ResolveAsync(x, asyncType, w)
    case StoredItems(items) => ResolveArray(items, w)
    case StoredBuffer(handle, bytes, objects) => ResolveBuffer(handle, bytes, objects, width, w)
    case StoredArray(elementType, values) =>
      var (ok, done, rest, w') := ResolveAll(values, width, [], w);
      // On success the array copies the values, which are dropped afterwards.
      if ok
      then (Some(Array(elementType, done)), Release(Acquire(w', ValuesRefs(done, width, w.o)), ValuesRefs(done, width, w.o)))
      else (None, Release(DropAgile(w', StoredsRefs(rest, w.o)), ValuesRefs(done, width, w.o)))
  }

  lemma {:induction false} ResolveItemsConserves(items: seq<Option<ObjectId>>, done: seq<Option<ObjectId>>, w: World)
    ensures var (ok, done', rest, w') := ResolveItems(items, done, w);
      && w'.o == w.o
      && w'.native - ItemRefs(done', w.o) == w.native - ItemRefs(done, w.o)
      && w'.agile - ItemRefs(rest, w.o) == w.agile - ItemRefs(items, w.o)
    decreases |items|
  {
    if items != [] {
      ItemRefsAppend(done, items[0], w.o);
      if items[0].None? {
        ResolveItemsConserves(items[1..], done + [None], w);
      } else if w.Grants() {
        ResolveItemsConserves(items[1..], done + [items[0]], Resolved(w, items[0].value));
      }
    }
  }

  lemma {:induction false} ResolveItemsDone(items: seq<Option<ObjectId>>, done: seq<Option<ObjectId>>, w: World)
    ensures var r := ResolveItems(items, done, w); r.0 ==> r.1 == done + items && r.2 == []
    decreases |items|
  {
    if items == [] {
      assert done + items == done;
    } else {
      assert done + [items[0]] + items[1..] == done + items;
      if items[0].None? {
        ResolveItemsDone(items[1..], done + [None], w);
      } else if w.Grants() {
        ResolveItemsDone(items[1..], done + [items[0]], Resolved(w, items[0].value));
      }
    }
  }

  lemma {:induction false} ValuesRefsAppend(values: seq<Value>, last: Value, width: nat, o: ObjectId)
    requires ValuesOk(values, width) && ValueOk(last, width)
    ensures ValuesOk(values + [last], width)
    ensures ValuesRefs(values + [last], width, o) == ValuesRefs(values, width, o) + ValueRefs(last, width, o)
  {
    if values == [] {
      assert values + [last] == [last];
    } else {
      assert (values + [last])[1..] == values[1..] + [last];
      ValuesRefsAppend(values[1..], last, width, o);
    }
  }

  /** The agile references are gone; the value holds a reference for each if the resolution succeeded. */
  predicate RevertedBy(s: Stored, width: nat, w: World, v: Option<Value>, w': World)
    requires StoredOk(s, width) && (v.Some? ==> ValueOk(v.value, width))
  {
    && w'.o == w.o
    && w'.agile == w.agile - StoredRefs(s, w.o)
    && w'.native == w.native + (if v.Some? then ValueRefs(v.value, width, w.o) else 0)
    && (v.Some? ==> ValueRefs(v.value, width, w.o) == StoredRefs(s, w.o))
  }

  lemma {:induction false} ResolveAllConserves(values: seq<Stored>, width: nat, done: seq<Value>, w: World)
    requires StoredsOk(values, width) && ValuesOk(done, width)
    ensures var (ok, done', rest, w') := ResolveAll(values, width, done, w);
      && w'.o == w.o
      && w'.native - ValuesRefs(done', width, w.o) == w.native - ValuesRefs(done, width, w.o)
      && w'.agile - StoredsRefs(rest, w.o) == w.agile - StoredsRefs(values, w.o)
      && (ok ==> ValuesRefs(done', width, w.o) == ValuesRefs(done, width, w.o) + StoredsRefs(values, w.o))
    decreases values
  {
    if values != [] {
      ResolveConserves(values[0], width, w);
      var (v, w') := Resolve(values[0], width, w);
      if v.Some? {
        ValuesRefsAppend(done, v.value, width, w.o);
        ResolveAllConserves(values[1..], width, done + [v.value], w');
      }
    }
  }

  lemma BufferReverts(handle: TypeHandle, bytes: seq<byte>, objects: seq<(nat, ObjectId)>, width: nat, w: World)
    requires StoredOk(StoredBuffer(handle, bytes, objects), width)
    ensures var (v, w') := ResolveBuffer(handle, bytes, objects, width, w); RevertedBy(StoredBuffer(handle, bytes, objects), width, w, v, w')
  {
    NullHoldsNothing(bytes, width, Slots(handle), w.o);
    ResolveBalanced(bytes, width, Slots(handle), objects, w);
    if ResolveSlots(bytes, width, objects, w).ok { ResolvedHolds(bytes, width, Slots(handle), objects, w, w.o); }
  }

  lemma {:induction false} ResolvedHolds(bytes: seq<byte>, width: nat, slots: seq<nat>, objects: seq<(nat, ObjectId)>, w: World, o: ObjectId)
    requires Within(slots, width, 0, |bytes|) && Separate(slots, width) && Awaited(bytes, width, slots, objects)
    requires ResolveSlots(bytes, width, objects, w).ok
    ensures SlotRefs(ResolveSlots(bytes, width, objects, w).bytes, width, slots, o) == SlotRefs(bytes, width, slots, o) + ObjectRefs(objects, o)
    decreases |objects|
  {
    if objects != [] {
      var k :| 0 <= k < |slots| && slots[k] == objects[0].0;
      SlotRefsWrite(bytes, width, slots, k, objects[0].1, o);
      AwaitedNext(bytes, width, slots, objects);
      ResolvedHolds(WriteSlot(bytes, width, objects[0].0, objects[0].1), width, slots, objects[1..], Resolved(w, objects[0].1), o);
    }
  }

  lemma ItemsRevert(items: seq<Option<ObjectId>>, width: nat, w: World)
    ensures var (v, w') := ResolveArray(items, w); RevertedBy(StoredItems(items), width, w, v, w')
  {
    ResolveItemsConserves(items, [], w);
    ResolveItemsDone(items, [], w);
    assert [] + items == items;
  }

  lemma SingleReverts(s: Stored, width: nat, w: World)
    requires StoredOk(s, width) && !s.StoredItems? && !s.StoredBuffer? && !s.StoredArray?
    ensures var (v, w') := Resolve(s, width, w); RevertedBy(s, width, w, v, w')
  {
  }

  lemma {:induction false} ArrayReverts(s: Stored, width: nat, w: World)
    requires StoredOk(s, width) && s.StoredArray?
    ensures var (v, w') := Resolve(s, width, w); RevertedBy(s, width, w, v, w')
    decreases s, 0
  {
    ResolveAllConserves(s.values, width, [], w);
  }

  /** Resolve consumes every agile reference exactly once, giving back one COM reference each or none at all. */
  lemma {:induction false} ResolveConserves(s: Stored, width: nat, w: World)
    requires StoredOk(s, width)
    ensures var (v, w') := Resolve(s, width, w); RevertedBy(s, width, w, v, w')
    decreases s, 1
  {
    match s
    case StoredItems(items) => ItemsRevert(items, width, w);
    case StoredBuffer(handle, bytes, objects) => BufferReverts(handle, bytes, objects, width, w);
    case StoredArray(_, values) => ArrayReverts(s, width, w);
    case _ => SingleReverts(s, width, w);
  }

  // ---- round trip ----

  /** What a value looks like while it is stored. */
  function StoredForm(v: Value, width: nat): Stored
    requires ValueOk(v, width)
    decreases v
  {
    match v
    case Object(o) => StoredObject(o)
    case Async(o, asyncType) => StoredAsync(o, asyncType)
    case ObjectArray(items) => StoredItems(items)
    case Struct(handle, bytes) => StoredBuffer(handle, NullSlots(bytes, width, Slots(handle)), Carried(bytes, width, Slots(handle)))
    case Array(elementType, values) => StoredArray(elementType, StoredForms(values, width))
    case _ => StoredDirect(v)
  }

  function StoredForms(values: seq<Value>, width: nat): (r: seq<Stored>)
    requires ValuesOk(values, width)
    decreases values
  {
    if values == [] then [] else [StoredForm(values[0], width)] + StoredForms(values[1..], width)
  }

  /** No raw or out pointer anywhere in the value. */
  predicate Capturable(v: Value) {
    match v
    case RawPtr(_) => false
    case OutValue(_, _) => false
    case Array(_, values) => AllCapturable(values)
    case _ => true
  }

  predicate AllCapturable(values: seq<Value>) {
    values == [] || (Capturable(values[0]) && AllCapturable(values[1..]))
  }

  lemma BufferStoredOk(handle: TypeHandle, bytes: seq<byte>, width: nat)
    requires ValueOk(Struct(handle, bytes), width)
    ensures StoredOk(StoredForm(Struct(handle, bytes), width), width)
  {
    var slots := Slots(handle);
    StoredAwaited(bytes, width, slots);
    NullSlotsExact(bytes, width, slots);
  }

  lemma {:induction false} StoredFormsOk(values: seq<Value>, width: nat)
    requires ValuesOk(values, width) && AllCapturable(values)
    ensures StoredsOk(StoredForms(values, width), width)
    decreases values
  {
    if values != [] {
      StoredFormOk(values[0], width);
      StoredFormsOk(values[1..], width);
      assert StoredForms(values, width)[1..] == StoredForms(values[1..], width);
    }
  }

  lemma {:induction false} StoredFormOk(v: Value, width: nat)
    requires ValueOk(v, width) && Capturable(v)
    ensures StoredOk(StoredForm(v, width), width)
    decreases v
  {
    match v
    case Struct(handle, bytes) => BufferStoredOk(handle, bytes, width);
    case Array(_, values) => StoredFormsOk(values, width);
    case _ =>
  }

  // ---- capture succeeds exactly when every marshalling call does ----

  /** How many marshalling calls capturing a value makes. */
  function Calls(v: Value, width: nat): nat
    requires ValueOk(v, width)
  {
    match v
    case Object(_) => 1
    case Async(_, _) => 2
    case ObjectArray(items) => Present(items)
    case Struct(handle, bytes) => |Carried(bytes, width, Slots(handle))|
    case Array(_, values) => AllCalls(values, width)
    case _ => 0
  }

  function Present(items: seq<Option<ObjectId>>): nat {
    if items == [] then 0 else (if items[0].Some? then 1 else 0) + Present(items[1..])
  }

  function AllCalls(values: seq<Value>, width: nat): nat
    requires ValuesOk(values, width)
  {
    if values == [] then 0 else Calls(values[0], width) + AllCalls(values[1..], width)
  }

  predicate Granted(answers: seq<bool>, n: nat) {
    n <= |answers| && forall i :: 0 <= i < n ==> answers[i]
  }

  lemma GrantedSplit(answers: seq<bool>, n: nat, m: nat)
    ensures Granted(answers, n + m) <==> Granted(answers, n) && Granted(answers[n..], m)
    ensures n + m <= |answers| ==> answers[n..][m..] == answers[n + m..]
  {
    if Granted(answers, n) && Granted(answers[n..], m) {
      assert forall i :: n <= i < n + m ==> answers[i] == answers[n..][i - n];
    }
  }

  /** The part of a loop succeeded, and consumed exactly its answers. */
  predicate Consumed(ok: bool, w: World, w': World, n: nat) {
    (ok <==> Granted(w.answers, n)) && (ok ==> w'.answers == w.answers[n..])
  }

  lemma {:induction false} ItemsSucceed(items: seq<Option<ObjectId>>, done: seq<Option<ObjectId>>, w: World)
    ensures var (ok, done', w') := CaptureItems(items, done, w); Consumed(ok, w, w', Present(items))
    decreases |items|
  {
    if items == [] {
      assert w.answers[0..] == w.answers;
    } else if items[0].None? {
      ItemsSucceed(items[1..], done + [None], w);
    } else {
      GrantedSplit(w.answers, 1, Present(items[1..]));
      if w.Grants() { ItemsSucceed(items[1..], done + [items[0]], MarshalItem(w.Next(), items[0].value)); }
    }
  }

  lemma {:induction false} SlotsSucceed(bytes: seq<byte>, width: nat, slots: seq<nat>, objects: seq<(nat, ObjectId)>, w: World)
    requires Within(slots, width, 0, |bytes|) && Separate(slots, width)
    ensures var r := CaptureSlots(bytes, width, slots, objects, w); Consumed(r.ok, w, r.world, |Carried(bytes, width, slots)|)
    decreases |slots|
  {
    if slots == [] {
      assert w.answers[0..] == w.answers;
    } else {
      var raw := ReadSlot(bytes, width, slots[0]);
      if raw == 0 {
        SlotsSucceed(bytes, width, slots[1..], objects, w);
      } else {
        OtherSlots(bytes, width, slots[1..], slots[0], 0);
        GrantedSplit(w.answers, 1, |Carried(bytes, width, slots[1..])|);
        if w.Grants() {
          SlotsSucceed(WriteSlot(bytes, width, slots[0], 0), width, slots[1..], objects + [(slots[0], raw)],
                       Marshal(w.Next(), raw));
        }
      }
    }
  }

  lemma {:induction false} CaptureAllSucceeds(values: seq<Value>, width: nat, done: seq<Stored>, w: World)
    requires ValuesOk(values, width)
    ensures var (error, done', w') := CaptureAll(values, width, done, w);
      && (error.None? <==> AllCapturable(values) && Granted(w.answers, AllCalls(values, width)))
      && (error.None? ==> w'.answers == w.answers[AllCalls(values, width)..])
    decreases values
  {
    if values == [] {
      assert w.answers[0..] == w.answers;
    } else {
      var copied := Acquire(w, ValueRefs(values[0], width, w.o));
      CaptureSucceedsExactly(values[0], width, copied);
      GrantedSplit(w.answers, Calls(values[0], width), AllCalls(values[1..], width));
      var (s, w') := Capture(values[0], width, copied);
      if s.Ok? { CaptureAllSucceeds(values[1..], width, done + [s.value], w'); }
    }
  }

  /** Capture fails only on a raw or out pointer, or when one of its marshalling calls is refused. */
  lemma {:induction false} CaptureSucceedsExactly(v: Value, width: nat, w: World)
    requires ValueOk(v, width)
    ensures var (s, w') := Capture(v, width, w);
      && (s.Ok? <==> Capturable(v) && Granted(w.answers, Calls(v, width)))
      && (s.Ok? ==> w'.answers == w.answers[Calls(v, width)..])
    decreases v
  {
    match v
    case ObjectArray(items) => ItemsSucceed(items, [], w);
    case Struct(handle, bytes) => SlotsSucceed(bytes, width, Slots(handle), [], w);
    case Array(_, values) => CaptureAllSucceeds(values, width, [], w);
    case Direct(_) => assert w.answers[0..] == w.answers;
    case _ =>
  }

  // ---- what a captured value looks like ----

  lemma {:induction false} CaptureAllStores(values: seq<Value>, width: nat, done: seq<Stored>, w: World)
    requires ValuesOk(values, width) && CaptureAll(values, width, done, w).0.None?
    ensures CaptureAll(values, width, done, w).1 == done + StoredForms(values, width)
    decreases values
  {
    if values != [] {
      var copied := Acquire(w, ValueRefs(values[0], width, w.o));
      CaptureStores(values[0], width, copied);
      var (s, w') := Capture(values[0], width, copied);
      CaptureAllStores(values[1..], width, done + [s.value], w');
    }
  }

  /** A captured value is its stored form: slots null, other bytes as they were, each object with its slot. */
  lemma {:induction false} CaptureStores(v: Value, width: nat, w: World)
    requires ValueOk(v, width) && Capture(v, width, w).0.Ok?
    ensures Capture(v, width, w).0.value == StoredForm(v, width)
    decreases v
  {
    match v
    case ObjectArray(items) =>
      CaptureItemsDone(items, [], w);
      assert [] + items == items;
    case Struct(handle, bytes) =>
      var slots := Slots(handle);
      CaptureNulls(bytes, width, slots, [], w);
      CaptureCarries(bytes, width, slots, [], w);
      assert [] + Carried(bytes, width, slots) == Carried(bytes, width, slots);
    case Array(_, values) =>
      CaptureAllStores(values, width, [], w);
      assert [] + StoredForms(values, width) == StoredForms(values, width);
    case _ =>
  }

  lemma {:induction false} ResolveAllStored(values: seq<Value>, width: nat, done: seq<Value>, w: World)
    requires ValuesOk(values, width) && StoredsOk(StoredForms(values, width), width)
    requires ResolveAll(StoredForms(values, width), width, done, w).0
    ensures ResolveAll(StoredForms(values, width), width, done, w).1 == done + values
    decreases values
  {
    if values != [] {
      var stored := StoredForms(values, width);
      assert stored[0] == StoredForm(values[0], width) && stored[1..] == StoredForms(values[1..], width);
      ResolveStored(values[0], width, w);
      var (v, w') := Resolve(stored[0], width, w);
      ResolveAllStored(values[1..], width, done + [v.value], w');
      assert done + [values[0]] + values[1..] == done + values;
    }
  }

  lemma {:induction false} ResolveStored(v: Value, width: nat, w: World)
    requires ValueOk(v, width) && StoredOk(StoredForm(v, width), width) && Resolve(StoredForm(v, width), width, w).0.Some?
    ensures Resolve(StoredForm(v, width), width, w).0.value == v
    decreases v
  {
    match v
    case ObjectArray(items) =>
      ResolveItemsDone(items, [], w);
      assert [] + items == items;
    case Struct(handle, bytes) =>
      var slots := Slots(handle);
      ResolveRestores(NullSlots(bytes, width, slots), width, Carried(bytes, width, slots), w);
      RestoreNull(bytes, width, slots);
    case Array(_, values) =>
      ResolveAllStored(values, width, [], w);
      assert [] + values == values;
    case _ =>
  }

  lemma {:induction false} ResolveItemsSucceed(items: seq<Option<ObjectId>>, done: seq<Option<ObjectId>>, w: World)
    ensures var r := ResolveItems(items, done, w); Consumed(r.0, w, r.3, Present(items))
    decreases |items|
  {
    if items == [] {
      assert w.answers[0..] == w.answers;
    } else if items[0].None? {
      ResolveItemsSucceed(items[1..], done + [None], w);
    } else {
      GrantedSplit(w.answers, 1, Present(items[1..]));
      if w.Grants() { ResolveItemsSucceed(items[1..], done + [items[0]], Resolved(w, items[0].value)); }
    }
  }

  lemma {:induction false} ResolveSlotsSucceed(bytes: seq<byte>, width: nat, objects: seq<(nat, ObjectId)>, w: World)
    requires ObjectsFit(objects, width, |bytes|)
    ensures var r := ResolveSlots(bytes, width, objects, w); Consumed(r.ok, w, r.world, |objects|)
    decreases |objects|
  {
    if objects == [] {
      assert w.answers[0..] == w.answers;
    } else {
      GrantedSplit(w.answers, 1, |objects[1..]|);
      if w.Grants() {
        ResolveSlotsSucceed(WriteSlot(bytes, width, objects[0].0, objects[0].1), width, objects[1..], Resolved(w, objects[0].1));
      }
    }
  }

  lemma {:induction false} ResolveAllSucceeds(values: seq<Value>, width: nat, done: seq<Value>, w: World)
    requires ValuesOk(values, width) && StoredsOk(StoredForms(values, width), width)
    ensures var r := ResolveAll(StoredForms(values, width), width, done, w); Consumed(r.0, w, r.3, AllCalls(values, width))
    decreases values
  {
    if values == [] {
      assert w.answers[0..] == w.answers;
    } else {
      var stored := StoredForms(values, width);
      assert stored[0] == StoredForm(values[0], width) && stored[1..] == StoredForms(values[1..], width);
      ResolveSucceedsExactly(values[0], width, w);
      GrantedSplit(w.answers, Calls(values[0], width), AllCalls(values[1..], width));
      var (v, w') := Resolve(stored[0], width, w);
      if v.Some? { ResolveAllSucceeds(values[1..], width, done + [v.value], w'); }
    }
  }

  /** Resolving makes as many marshalling calls as capturing did, and fails only when one of them is refused. */
  lemma {:induction false} ResolveSucceedsExactly(v: Value, width: nat, w: World)
    requires ValueOk(v, width) && StoredOk(StoredForm(v, width), width)
    ensures var (r, w') := Resolve(StoredForm(v, width), width, w); Consumed(r.Some?, w, w', Calls(v, width))
    decreases v
  {
    match v
    case ObjectArray(items) => ResolveItemsSucceed(items, [], w);
    case Struct(handle, bytes) =>
      var slots := Slots(handle);
      ResolveSlotsSucceed(NullSlots(bytes, width, slots), width, Carried(bytes, width, slots), w);
    case Array(_, values) => ResolveAllSucceeds(values, width, [], w);
    case Direct(_) => assert w.answers[0..] == w.answers;
    case _ =>
  }

  /**
   Whatever happens in between, a value that is captured and then resolved comes back
   unchanged; and it does come back when every marshalling call is granted.
   */
  lemma RoundTrip(v: Value, width: nat, w: World, later: World)
    requires ValueOk(v, width) && Capture(v, width, w).0.Ok?
    ensures StoredOk(Capture(v, width, w).0.value, width)
    ensures var r := Resolve(Capture(v, width, w).0.value, width, later).0;
            (r.Some? <==> Granted(later.answers, Calls(v, width))) && (r.Some? ==> r.value == v)
  {
    CaptureStores(v, width, w);
    CaptureSucceedsExactly(v, width, w);
    StoredFormOk(v, width);
    ResolveSucceedsExactly(v, width, later);
    if Resolve(StoredForm(v, width), width, later).0.Some? { ResolveStored(v, width, later); }
  }

  // ---- the same with the source's loops ----

  method CaptureItemLoop(items: seq<Option<ObjectId>>, w: World) returns (ok: bool, values: seq<Option<ObjectId>>, w': World)
    ensures (ok, values, w') == CaptureItems(items, [], w)
  {
    ok, values, w' := true, [], w;
    for index := 0 to |items|
      invariant ok && CaptureItems(items[index..], values, w') == CaptureItems(items, [], w)
    {
      assert items[index..][1..] == items[index + 1..];
      if items[index].Some? {
        ok := w'.Grants();
        w' := if ok then MarshalItem(w'.Next(), items[index].value) else w'.Next();
        if !ok { return; }
      }
      values := values + [items[index]];
    }
  }

  method ResolveItemLoop(items: seq<Option<ObjectId>>, w: World)
    returns (ok: bool, restored: seq<Option<ObjectId>>, rest: seq<Option<ObjectId>>, w': World)
    ensures (ok, restored, rest, w') == ResolveItems(items, [], w)
  {
    ok, restored, rest, w' := true, [], items, w;
    while rest != []
      invariant ok && ResolveItems(rest, restored, w') == ResolveItems(items, [], w)
      decreases |rest|
    {
      var item := rest[0];
      rest := rest[1..];
      if item.Some? {
        ok := w'.Grants();
        w' := DropAgile(w'.Next(), One(item.value == w'.o));
        if !ok { return; }
        w' := Acquire(w', One(item.value == w'.o));
      }
      restored := restored + [item];
    }
  }

  method CaptureElementLoop(values: seq<Value>, width: nat, w: World) returns (error: Option<CaptureError>, stored: seq<Stored>, w': World)
    requires ValuesOk(values, width)
    ensures (error, stored, w') == CaptureAll(values, width, [], w)
    decreases values
  {
    error, stored, w' := None, [], w;
    for index := 0 to |values|
      invariant error.None? && ValuesOk(values[index..], width)
      invariant CaptureAll(values[index..], width, stored, w') == CaptureAll(values, width, [], w)
    {
      assert values[index..][0] == values[index] && values[index..][1..] == values[index + 1..];
      var result;
      result, w' := CaptureValue(values[index], width, Acquire(w', ValueRefs(values[index], width, w'.o)));
      if result.Err? {
        error := Some(result.error);
        return;
      }
      stored := stored + [result.value];
    }
  }

  /** Capturing a value with the loops above; a struct is captured in a copy of its buffer. */
  method CaptureValue(v: Value, width: nat, w: World) returns (r: Result<Stored, CaptureError>, w': World)
    requires ValueOk(v, width)
    ensures (r, w') == Capture(v, width, w)
    decreases v
  {
    match v
    case ObjectArray(items) =>
      var ok, values;
      ok, values, w' := CaptureItemLoop(items, w);
      r := if ok then Ok(StoredItems(values)) else Err(CallFailed);
      w' := Release(if ok then w' else DropAgile(w', ItemRefs(values, w.o)), ItemRefs(items, w.o));
    case Struct(handle, bytes) =>
      var root := new byte[|bytes|](i requires 0 <= i < |bytes| => bytes[i]);
      assert root[..] == bytes;
      var ok, objects := true, [];
      w' := w;
      if handle.StructType? {
        ok, objects, w' := CaptureFields(handle.fields, width, handle.bytes, root, 0, [], w);
      }
      r := if ok then Ok(StoredBuffer(handle, root[..], objects)) else Err(CallFailed);
      w' := if ok then w' else Release(DropAgile(w', ObjectRefs(objects, w.o)), SlotRefs(root[..], width, Slots(handle), w.o));
    case Array(elementType, values) =>
      var error, stored;
      error, stored, w' := CaptureElementLoop(values, width, w);
      r := if error.None? then Ok(StoredArray(elementType, stored)) else Err(error.value);
      w' := Release(if error.None? then w' else DropAgile(w', StoredsRefs(stored, w.o)), ValuesRefs(values, width, w.o));
    case _ =>
      var whole := Capture(v, width, w);
      r, w' := whole.0, whole.1;
  }
}
