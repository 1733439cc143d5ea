/** Overwriting a range of a byte buffer. */
module ByteRange {
  import opened LittleEndian

  predicate Fits(offset: nat, length: nat, size: nat) {
    offset + length <= size
  }

  /** The ranges [a, a + n) and [b, b + m) do not overlap. */
  predicate Apart(a: nat, n: nat, b: nat, m: nat) {
    a + n <= b || b + m <= a
  }

  function Patch(bytes: seq<byte>, offset: nat, chunk: seq<byte>): (r: seq<byte>)
    requires Fits(offset, |chunk|, |bytes|)
    ensures |r| == |bytes|
    ensures r[offset..offset + |chunk|] == chunk
    ensures forall i :: 0 <= i < |bytes| && !(offset <= i < offset + |chunk|) ==> r[i] == bytes[i]
  {
    bytes[..offset] + chunk + bytes[offset + |chunk|..]
  }

  lemma PatchElsewhere(bytes: seq<byte>, offset: nat, chunk: seq<byte>, at: nat, length: nat)
    requires Fits(offset, |chunk|, |bytes|) && Fits(at, length, |bytes|) && Apart(offset, |chunk|, at, length)
    ensures Patch(bytes, offset, chunk)[at..at + length] == bytes[at..at + length]
  {
  }

  lemma PatchBack(bytes: seq<byte>, offset: nat, chunk: seq<byte>)
    requires Fits(offset, |chunk|, |bytes|)
    ensures Patch(Patch(bytes, offset, chunk), offset, bytes[offset..offset + |chunk|]) == bytes
  {
  }

  lemma PatchesCommute(bytes: seq<byte>, a: nat, x: seq<byte>, b: nat, y: seq<byte>)
    requires Fits(a, |x|, |bytes|) && Fits(b, |y|, |bytes|) && Apart(a, |x|, b, |y|)
    ensures Patch(Patch(bytes, a, x), b, y) == Patch(Patch(bytes, b, y), a, x)
  {
  }

  /** Writes a chunk into a buffer in place. */
  method Overwrite(buffer: array<byte>, offset: nat, chunk: seq<byte>)
    requires Fits(offset, |chunk|, buffer.Length)
    modifies buffer
    ensures buffer[..] == Patch(old(buffer[..]), offset, chunk)
  {
    forall i | 0 <= i < |chunk| {
      buffer[offset + i] := chunk[i];
    }
  }
}
