/**
 * copyLocationFile: an interrupted copy is compared with the source, truncated and written again
 * chunk by chunk, skipping chunks of zeros with a seek and fixing the length at the end.
 */
module SparseCopy {
  import opened Bitmap

  function Zeros(n: nat): (z: seq<Byte>)
    ensures |z| == n && forall i :: 0 <= i < n ==> z[i] == 0
  {
    seq(n, _ => 0)
  }

  /** An open regular file: its bytes and the offset of the next write, which may lie past the end. */
  class OpenFile {
    var data: seq<Byte>
    var offset: nat

    constructor (bytes: seq<Byte>)
      ensures data == bytes && offset == 0
    {
      data, offset := bytes, 0;
    }

    method Truncate(n: nat)
      modifies this`data
      ensures data == if n <= |old(data)| then old(data)[..n] else old(data) + Zeros(n - |old(data)|)
    {
      if n <= |data| { data := data[..n]; } else { data := data + Zeros(n - |data|); }
    }

    method Skip(n: nat)
      modifies this`offset
      ensures offset == old(offset) + n
    {
      offset := offset + n;
    }

    /** Writing past the end leaves a hole that reads as zeros. */
    method Write(bytes: seq<Byte>)
      requires |data| <= offset
      modifies this
      ensures data == old(data) + Zeros(old(offset) - |old(data)|) + bytes && offset == old(offset) + |bytes|
    {
      data := data + Zeros(offset - |data|) + bytes;
      offset := offset + |bytes|;
    }
  }

  predicate AllZero(s: seq<Byte>) {
    forall i :: 0 <= i < |s| ==> s[i] == 0
  }

  method IsZero(buffer: seq<Byte>) returns (zero: bool)
    ensures zero == AllZero(buffer)
  {
    for i := 0 to |buffer|
      invariant AllZero(buffer[..i])
    {
      if buffer[i] != 0 { return false; }
    }
    assert buffer[..|buffer|] == buffer;
    zero := true;
  }

  /** Whether the interrupted copy is an untouched beginning of the source, compared through a buffer. */
  method IsPrefix(source: seq<Byte>, copy: seq<Byte>, buffer: nat) returns (same: bool)
    requires buffer > 0
    ensures same == (copy <= source)
  {
    if |copy| > |source| { return false; }
    var offset := 0;
    while offset < |copy|
      invariant 0 <= offset <= |copy| && copy[..offset] == source[..offset]
    {
      var n := if |copy| - offset < buffer then |copy| - offset else buffer;
      if source[offset..offset + n] != copy[offset..offset + n] { return false; }
      assert copy[..offset + n] == copy[..offset] + copy[offset..offset + n];
      assert source[..offset + n] == source[..offset] + source[offset..offset + n];
      offset := offset + n;
    }
    assert copy[..|copy|] == copy;
    same := true;
  }

  /** The source from `n` to `to` reads as zeros, so a hole there is the same as having written it. */
  predicate Hole(source: seq<Byte>, n: nat, to: nat) {
    n <= to <= |source| && AllZero(source[n..to])
  }

  lemma HoleFilled(source: seq<Byte>, n: nat, to: nat)
    requires Hole(source, n, to)
    ensures source[..n] + Zeros(to - n) == source[..to]
  {
    assert source[n..to] == Zeros(to - n);
  }

  /**
   * The copy ends equal to the source exactly when what was there before was a beginning of it;
   * anything else is refused and left as it was. At every point the file is a beginning of the source.
   */
  method CopyFile(dst: OpenFile, source: seq<Byte>, buffer: nat) returns (ok: bool)
    requires buffer > 0 && dst.offset == 0
    modifies dst
    ensures ok == (old(dst.data) <= source)
    ensures dst.data == if ok then source else old(dst.data)
  {
    ok := IsPrefix(source, dst.data, buffer);
    if !ok { return; }
    dst.Truncate(0);
    var total := 0;
    while total < |source|
      invariant total <= |source| && dst.offset == total && |dst.data| <= total
      invariant dst.data == source[..|dst.data|] && Hole(source, |dst.data|, total)
    {
      var n := if |source| - total < buffer then |source| - total else buffer;
      var chunk := source[total..total + n];
      var zero := IsZero(chunk);
      ghost var have := |dst.data|;
      if zero {
        assert source[have..total + n] == source[have..total] + chunk;
        dst.Skip(n);
      } else {
        HoleFilled(source, have, total);
        dst.Write(chunk);
        assert source[..total + n] == source[..total] + chunk;
      }
      total := total + n;
    }
    HoleFilled(source, |dst.data|, total);
    dst.Truncate(total);
    assert source[..total] == source;
  }
}
