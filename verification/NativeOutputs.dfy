/**
 Native outputs: which deallocator an output pointer belongs to, and how taking, adopting,
 releasing and dropping move the one right to free it between values and handles.
 */
module NativeOutputs {
  import opened Wrappers
  import opened Tally

  type ThreadId = nat

  /** A native block or reference, by address; null is not one. */
  type Block = p: nat | p > 0 witness 1

  datatype OutputKind = NoKind | UnclassifiedKind | ComKind | CoTaskMemKind | BstrKind | HandleKind

  datatype Provenance = NoProvenance | Borrowed | DetachedCom | UnclassifiedOutput | ComOutput | CoTaskMemOutput | BstrOutput | HandleOutput

  /** The payload that matters here: nothing, a bare pointer, a managed COM object, anything else. */
  datatype Payload = Null | RawPtr(address: nat) | Object(o: Block) | Other

  /** An owner frees its block when it is dropped; shared owners are counted elsewhere. */
  datatype Owner = CoTaskMem(p: Block) | Guid(p: Block) | Shared

  datatype Value = Value(
    payload: Payload,
    provenance: Provenance,
    owner: Option<Owner>,
    apartment: Option<ThreadId>,
    inputs: Option<ThreadId>)   // the thread the value's input bindings are bound to, if any

  /** `from_com_result`: only a raw pointer is classified. */
  function Classify(kind: OutputKind): Provenance {
    match kind
    case NoKind => UnclassifiedOutput
    case UnclassifiedKind => UnclassifiedOutput
    case ComKind => ComOutput
    case CoTaskMemKind => CoTaskMemOutput
    case BstrKind => BstrOutput
    case HandleKind => HandleOutput
  }

  datatype Deallocator = ComRelease | TaskFree | StringFree | ObjectDelete | BoxDrop

  /** The deallocator an owning provenance stands for. */
  function Frees(provenance: Provenance): Option<Deallocator> {
    match provenance
    case ComOutput => Some(ComRelease)
    case CoTaskMemOutput => Some(TaskFree)
    case BstrOutput => Some(StringFree)
    case HandleOutput => Some(ObjectDelete)
    case _ => None
  }

  function OwnerFrees(owner: Owner): Option<Deallocator> {
    match owner
    case CoTaskMem(_) => Some(TaskFree)
    case Guid(_) => Some(BoxDrop)
    case Shared => None
  }

  /** The block a value has the right to free, and how. */
  datatype Right = Right(block: Block, how: Deallocator)

  function PointerRight(v: Value): Option<Right> {
    match v.payload
    case RawPtr(p) => if p != 0 && Frees(v.provenance).Some? then Some(Right(p, Frees(v.provenance).value)) else None
    case Object(o) => Some(Right(o, ComRelease))
    case _ => None
  }

  function OwnerRight(v: Value): Option<Right> {
    if v.owner.Some? && OwnerFrees(v.owner.value).Some? then Some(Right(v.owner.value.p, OwnerFrees(v.owner.value).value)) else None
  }

  /** A value never has two rights: what an owner frees, its pointer only borrows. */
  predicate OneRight(v: Value) {
    OwnerRight(v).Some? ==> PointerRight(v).None?
  }

  function RightOf(v: Value): Option<Right> {
    if OwnerRight(v).Some? then OwnerRight(v) else PointerRight(v)
  }

  const NULL_VALUE := Value(Null, NoProvenance, None, None, None)

  // ---- operations on one value ----

  datatype OutputError = OwnerBacked | WrongProvenance | NotAPointer | NullOutput | WrongApartment | CastFailed | BindFailed | CleanupFailed

  /** `take_native_output_pointer`: the caller gets the pointer and the right to it, or nothing changes. */
  function TakePointer(v: Value, expected: Provenance): (r: (Value, Result<nat, OutputError>)) {
    if v.owner.Some? then (v, Err(OwnerBacked))
    else if v.provenance != expected then (v, Err(WrongProvenance))
    else
      match v.payload
      case RawPtr(p) => (v.(payload := Null, provenance := NoProvenance), Ok(p))
      case Null => (v.(provenance := NoProvenance), Ok(0))
      case _ => (v, Err(NotAPointer))
  }

  predicate Foreign(v: Value, thread: ThreadId) {
    (v.inputs.Some? && v.inputs.value != thread) || (v.apartment.Some? && v.apartment.value != thread)
  }

  /** What `release_native_pointer_output` frees; a failed handle cleanup leaves the value as it was. */
  function ReleasePointer(v: Value, cleaned: bool): (r: (Value, Option<Right>, bool)) {
    if !v.payload.RawPtr? then (v, None, true)
    else if v.provenance.HandleOutput? && v.payload.address != 0 && !cleaned then (v, None, false)
    else (v.(payload := Null, provenance := NoProvenance), PointerRight(v), true)
  }

  /** What an explicit release leaves of a value, and which rights it exercised. */
  function ReleaseValue(v: Value, thread: ThreadId, cleaned: bool): (r: (Value, Option<Right>, Option<OutputError>)) {
    if Foreign(v, thread) then (v, None, Some(WrongApartment))
    else
      var (released, freed, ok) := ReleasePointer(v, cleaned);
      if !ok then (v, None, Some(CleanupFailed)) else (NULL_VALUE, RightOf(v), None)
  }

  /** What dropping a value frees, and what it leaks instead. */
  function DropValue(v: Value, thread: ThreadId, exited: bool, cleaned: bool): (r: (Option<Right>, Option<Right>)) {
    if OwnerRight(v).Some? then (OwnerRight(v), None)
    else if Foreign(v, thread) || exited then (None, PointerRight(v))
    else if v.payload.RawPtr? && v.provenance.HandleOutput? && v.payload.address != 0 && !cleaned then (None, PointerRight(v))
    else (PointerRight(v), None)
  }

  // ---- the same in place ----

  class NativeValue {
    var payload: Payload
    var provenance: Provenance
    var owner: Option<Owner>
    var apartment: Option<ThreadId>
    var inputs: Option<ThreadId>

    ghost function View(): Value
      reads this
    {
      Value(payload, provenance, owner, apartment, inputs)
    }

    constructor (v: Value)
      ensures View() == v
    {
      payload, provenance, owner, apartment, inputs := v.payload, v.provenance, v.owner, v.apartment, v.inputs;
    }

    /** The right to the pointer passes to the caller: the value keeps none. */
    method TakeNativeOutputPointer(expected: Provenance) returns (r: Result<nat, OutputError>)
      modifies this
      ensures (View(), r) == TakePointer(old(View()), expected)
      ensures r.Err? ==> View() == old(View())
      ensures r.Ok? && r.value != 0 && Frees(expected).Some? ==>
                old(RightOf(View())) == Some(Right(r.value, Frees(expected).value)) && RightOf(View()).None?
    {
      if owner.Some? { return Err(OwnerBacked); }
      if provenance != expected { return Err(WrongProvenance); }
      match payload
      case RawPtr(p) =>
        payload, provenance := Null, NoProvenance;
        r := Ok(p);
      case Null =>
        provenance := NoProvenance;
        r := Ok(0);
      case _ =>
        r := Err(NotAPointer);
    }

    /** Frees the pointer output, if there is one to free; on failure the value can be released again. */
    method ReleaseNativePointerOutput(cleaned: bool) returns (freed: Option<Right>, ok: bool)
      modifies this`payload, this`provenance
      ensures (View(), freed, ok) == ReleasePointer(old(View()), cleaned)
      ensures !ok ==> View() == old(View()) && freed.None?
      ensures ok && old(payload).RawPtr? ==> freed == old(PointerRight(View())) && PointerRight(View()).None?
    {
      if !payload.RawPtr? { return None, true; }
      var address := payload.address;
      if provenance.HandleOutput? && address != 0 && !cleaned { return None, false; }
      freed := if address != 0 && Frees(provenance).Some? then Some(Right(address, Frees(provenance).value)) else None;
      payload, provenance, ok := Null, NoProvenance, true;
    }

    /** Explicit release: refused off the apartment or when a handle cannot be closed, and then nothing changes. */
    method Release(thread: ThreadId, cleaned: bool) returns (freed: Option<Right>, error: Option<OutputError>)
      requires OneRight(View())
      modifies this
      ensures (View(), freed, error) == ReleaseValue(old(View()), thread, cleaned)
      ensures error.Some? ==> View() == old(View()) && freed.None?
      ensures error.None? ==> RightOf(View()).None? && freed == old(RightOf(View()))
    {
      if inputs.Some? && inputs.value != thread { return None, Some(WrongApartment); }
      if apartment.Some? && apartment.value != thread { return None, Some(WrongApartment); }
      var managed := if payload.Object? then Some(Right(payload.o, ComRelease)) else None;
      var pointed, ok := ReleaseNativePointerOutput(cleaned);
      if !ok { return None, Some(CleanupFailed); }
      payload := Null;
      var owned := if owner.Some? && OwnerFrees(owner.value).Some? then Some(Right(owner.value.p, OwnerFrees(owner.value).value)) else None;
      owner, provenance, apartment, inputs := None, NoProvenance, None, None;
      freed := if owned.Some? then owned else if pointed.Some? then pointed else managed;
      error := None;
    }
  }

  /** An owned GDI handle taken out of a value. */
  class DynComOwnedHandle {
    var address: Option<Block>

    constructor (address: Block)
      ensures this.address == Some(address)
    {
      this.address := Some(address);
    }

    /** The handle is closed once; a failure puts it back, so that release can be tried again. */
    method Release(cleaned: bool) returns (freed: Option<Right>, error: Option<OutputError>)
      modifies this
      ensures old(address).None? ==> address.None? && freed.None? && error.None?
      ensures old(address).Some? && cleaned ==> address.None? && freed == Some(Right(old(address).value, ObjectDelete)) && error.None?
      ensures old(address).Some? && !cleaned ==> address == old(address) && freed.None? && error == Some(CleanupFailed)
    {
      freed, error := None, None;
      if address.None? { return; }
      var taken := address.value;
      address := None;
      if cleaned {
        freed := Some(Right(taken, ObjectDelete));
      } else {
        address := Some(taken);
        error := Some(CleanupFailed);
      }
    }
  }

  // ---- what single operations do to the right ----

  lemma TakeMovesRight(v: Value, expected: Provenance)
    ensures var (v', r) := TakePointer(v, expected);
      && (r.Err? ==> v' == v)
      && (r.Ok? ==> PointerRight(v').None? && v.owner.None?)
      && (r.Ok? && r.value != 0 && Frees(expected).Some? ==> RightOf(v) == Some(Right(r.value, Frees(expected).value)))
      && (r.Ok? && r.value == 0 ==> RightOf(v).None?)
  {
  }

  lemma ReleaseExact(v: Value, thread: ThreadId, cleaned: bool)
    requires OneRight(v)
    ensures var (v', freed, error) := ReleaseValue(v, thread, cleaned);
      && (error.Some? ==> v' == v && freed.None?)
      && (error.None? ==> freed == RightOf(v) && RightOf(v').None?)
      && (error.None? <==> !Foreign(v, thread) && (v.payload.RawPtr? && v.provenance.HandleOutput? && v.payload.address != 0 ==> cleaned))
  {
  }

  lemma DropExact(v: Value, thread: ThreadId, exited: bool, cleaned: bool)
    requires OneRight(v)
    ensures var (freed, leaked) := DropValue(v, thread, exited, cleaned);
      (freed == RightOf(v) && leaked.None?) || (freed.None? && leaked == RightOf(v))
    ensures !Foreign(v, thread) && !exited && cleaned ==> DropValue(v, thread, exited, cleaned) == (RightOf(v), None)
    ensures OwnerRight(v).Some? ==> DropValue(v, thread, exited, cleaned).0 == OwnerRight(v)
  {
  }
}
