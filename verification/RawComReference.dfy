/** The `RawComReference` object: its value slot is taken in place, natively counted through `Com`. */
module RawComReference {
  import opened Wrappers
  import opened LittleEndian
  import opened ByteRange
  import opened ComObjects
  import RawCom
  import RawMemory

  /** The native side: how often AddRef and Release were called. */
  class Com {
    var acquired: multiset<ObjectId>
    var released: multiset<ObjectId>
    var leaked: multiset<ObjectId>

    constructor ()
      ensures acquired == multiset{} && released == multiset{} && leaked == multiset{}
    {
      acquired, released, leaked := multiset{}, multiset{}, multiset{};
    }
  }

  class RawComReference {
    const ownerThread: RawCom.ThreadId
    var value: Option<ObjectId>

    constructor (value: ObjectId, thread: RawCom.ThreadId)
      ensures this.value == Some(value) && ownerThread == thread
    {
      this.value, ownerThread := Some(value), thread;
    }

    /** The live value, for the owner thread only. */
    function Peek(thread: RawCom.ThreadId): Result<ObjectId, RawCom.ComError>
      reads this
    {
      if thread != ownerThread then Err(RawCom.WrongThread)
      else if value.None? then Err(RawCom.NotLive)
      else Ok(value.value)
    }

    method CloneValue(thread: RawCom.ThreadId, com: Com) returns (r: Result<ObjectId, RawCom.ComError>)
      modifies com`acquired
      ensures r == Peek(thread)
      ensures com.acquired == old(com.acquired) + (if r.Ok? then multiset{r.value} else multiset{})
    {
      r := Peek(thread);
      if r.Ok? {
        com.acquired := com.acquired + multiset{r.value};
      }
    }

    /** The caller becomes the holder; a second taker finds nothing. */
    method TakeValue(thread: RawCom.ThreadId) returns (r: Result<ObjectId, RawCom.ComError>)
      modifies this
      ensures r == old(Peek(thread))
      ensures value == if r.Ok? then None else old(value)
      ensures r.Ok? ==> Peek(thread) == Err(RawCom.NotLive)
    {
      r := Peek(thread);
      if r.Ok? {
        value := None;
      }
    }

    method Release(thread: RawCom.ThreadId, com: Com) returns (error: Option<RawCom.ComError>)
      modifies this, com`released
      ensures error.None? <==> thread == ownerThread
      ensures error.None? ==> value.None?
                              && com.released == old(com.released) + (if old(value).Some? then multiset{old(value).value} else multiset{})
      ensures error.Some? ==> value == old(value) && com.released == old(com.released)
    {
      if thread != ownerThread { return Some(RawCom.WrongThread); }
      error := None;
      if value.Some? {
        com.released := com.released + multiset{value.value};
        value := None;
      }
    }

    /**
     Writes the address into memory and forgets the reference: it now belongs to whoever
     reads the slot. When the write is refused nothing changes at all.
     */
    method TransferToMemory(thread: RawCom.ThreadId, memory: RawMemory.RawAllocation, offset: nat, width: nat)
      returns (r: Result<ObjectId, RawCom.ComError>)
      requires memory.Valid()
      modifies this, memory.heap
      ensures r.Err? ==> value == old(value) && memory.heap[..] == old(memory.heap[..])
      ensures r.Ok? <==> old(Peek(thread)).Ok? && thread == memory.allocation.thread && memory.storage != null
                         && Fits(offset, width, memory.allocation.size)
      ensures r.Ok? ==> old(value) == Some(r.value) && value.None?
      ensures r.Ok? ==> memory.heap[..] == Patch(old(memory.heap[..]), memory.storage.address + offset, Encode(r.value, width))
    {
      r := Peek(thread);
      if r.Ok? {
        var error := memory.WriteBytes(thread, offset, Encode(r.value, width));
        if error.Some? { return Err(RawCom.WriteFailed); }
        value := None;
      }
    }

    /** Finalization releases on the owner thread while the UI loop runs, and leaks otherwise; never twice. */
    method FinalizeOwner(thread: RawCom.ThreadId, exited: bool, com: Com)
      modifies this, com`released, com`leaked
      ensures value.None?
      ensures var given: multiset<ObjectId> := if old(value).Some? then multiset{old(value).value} else multiset{};
        if thread == ownerThread && !exited
        then com.released == old(com.released) + given && com.leaked == old(com.leaked)
        else com.released == old(com.released) && com.leaked == old(com.leaked) + given
    {
      if value.Some? {
        if thread != ownerThread || exited {
          com.leaked := com.leaked + multiset{value.value};
        } else {
          com.released := com.released + multiset{value.value};
        }
        value := None;
      }
    }
  }

  /** Reading the slot back gives the address of the transferred interface. */
  lemma SlotHoldsAddress(heap: seq<byte>, at: nat, width: nat, o: ObjectId)
    requires Fits(at, width, |heap|) && o < Pow256(width)
    ensures Decode(Patch(heap, at, Encode(o, width))[at..at + width]) == o
  {
    DecodeEncode(o, width);
  }
}
