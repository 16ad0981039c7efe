/** Bytes as numbers below 256, their bits, and LSB-first piece bitmaps. */
module Bitmap {

  type Byte = x: int | 0 <= x < 256

  const MAX_PIECES := 0x40_0000

  function Pow2(n: nat): (p: nat)
    ensures p > 0
  {
    if n == 0 then 1 else 2 * Pow2(n - 1)
  }

  /** x >> k. */
  function Shr(x: nat, k: nat): nat
    decreases k
  {
    if k == 0 then x else Shr(x / 2, k - 1)
  }

  predicate Bit(x: nat, k: nat) {
    Shr(x, k) % 2 == 1
  }

  /** The number with the given bits, lowest first. */
  function FromBits(x: seq<bool>): (n: nat)
    ensures n < Pow2(|x|)
    ensures forall k :: 0 <= k < |x| ==> Bit(n, k) == x[k]
  {
    if x == [] then 0
    else
      var rest := FromBits(x[1..]);
      var n := (if x[0] then 1 else 0) + 2 * rest;
      assert n / 2 == rest;
      assert forall k :: 1 <= k < |x| ==> Bit(n, k) == Bit(rest, k - 1) == x[1..][k - 1];
      n
  }

  /** Numbers of the same width with the same bits are equal. */
  lemma {:induction false} SameNumber(x: nat, y: nat, n: nat)
    requires x < Pow2(n) && y < Pow2(n) && forall k :: 0 <= k < n ==> Bit(x, k) == Bit(y, k)
    ensures x == y
    decreases n
  {
    if n > 0 {
      assert Bit(x, 0) == Bit(y, 0);
      forall k | 0 <= k < n - 1 ensures Bit(x / 2, k) == Bit(y / 2, k) {
        assert Bit(x, k + 1) == Bit(y, k + 1);
      }
      SameNumber(x / 2, y / 2, n - 1);
    }
  }

  /** Bytes with the same bits are equal. */
  lemma SameBits(a: Byte, b: Byte)
    requires forall k :: 0 <= k < 8 ==> Bit(a, k) == Bit(b, k)
    ensures a == b
  {
    EightBits();
    SameNumber(a, b, 8);
  }

  lemma EightBits()
    ensures Pow2(8) == 256
  {
    assert Pow2(4) == 16;
    assert Pow2(8) == 16 * Pow2(4);
  }

  function ByteOf(x: seq<bool>): (b: Byte)
    requires |x| == 8
    ensures forall k :: 0 <= k < 8 ==> Bit(b, k) == x[k]
  {
    EightBits();
    FromBits(x)
  }

  function And(a: Byte, b: Byte): (c: Byte)
    ensures forall k :: 0 <= k < 8 ==> Bit(c, k) == (Bit(a, k) && Bit(b, k))
  {
    ByteOf(seq(8, k requires 0 <= k < 8 => Bit(a, k) && Bit(b, k)))
  }

  function AndNot(a: Byte, b: Byte): (c: Byte)
    ensures forall k :: 0 <= k < 8 ==> Bit(c, k) == (Bit(a, k) && !Bit(b, k))
  {
    ByteOf(seq(8, k requires 0 <= k < 8 => Bit(a, k) && !Bit(b, k)))
  }

  function Or(a: Byte, b: Byte): (c: Byte)
    ensures forall k :: 0 <= k < 8 ==> Bit(c, k) == (Bit(a, k) || Bit(b, k))
  {
    ByteOf(seq(8, k requires 0 <= k < 8 => Bit(a, k) || Bit(b, k)))
  }

  /** The byte 1 << k. */
  function Mask(k: nat): (b: Byte)
    requires k < 8
    ensures forall i :: 0 <= i < 8 ==> Bit(b, i) == (i == k)
  {
    ByteOf(seq(8, i => i == k))
  }

  lemma {:induction false} ZeroHasNoBits(k: nat)
    ensures !Bit(0, k)
    decreases k
  {
    if k > 0 { ZeroHasNoBits(k - 1); }
  }

  lemma NoBitsMeansZero(b: Byte)
    ensures b == 0 <==> forall k :: 0 <= k < 8 ==> !Bit(b, k)
  {
    forall k | 0 <= k < 8 ensures !Bit(0, k) { ZeroHasNoBits(k); }
    if forall k :: 0 <= k < 8 ==> !Bit(b, k) { SameBits(b, 0); }
  }

  /** A non-zero byte has a bit. */
  lemma SomeBit(b: Byte) returns (k: nat)
    requires b != 0
    ensures k < 8 && Bit(b, k)
  {
    NoBitsMeansZero(b);
    k :| 0 <= k < 8 && Bit(b, k);
  }

  /** A right shift by r is zero exactly when no bit from r up is set. */
  lemma {:induction false} ShiftedOut(x: nat, n: nat, r: nat)
    requires x < Pow2(n) && r <= n
    ensures Shr(x, r) == 0 <==> forall k :: r <= k < n ==> !Bit(x, k)
    decreases r
  {
    if r == 0 {
      forall k | 0 <= k < n ensures !Bit(0, k) { ZeroHasNoBits(k); }
      if forall k :: 0 <= k < n ==> !Bit(x, k) { SameNumber(x, 0, n); }
    } else {
      ShiftedOut(x / 2, n - 1, r - 1);
      forall k | 1 <= k < n ensures Bit(x, k) == Bit(x / 2, k - 1) {}
      if forall k :: r <= k < n ==> !Bit(x, k) {
        forall k | r - 1 <= k < n - 1 ensures !Bit(x / 2, k) { assert !Bit(x, k + 1); }
      }
    }
  }

  // ------------------------------------------------------------------ bitmaps

  function BitmapBytes(pieces: nat): nat {
    (pieces + 7) / 8
  }

  predicate Has(bits: seq<Byte>, piece: nat)
    requires piece < 8 * |bits|
  {
    Bit(bits[piece / 8], piece % 8)
  }

  /** validBitmap: the size fits, and shifting the last byte right by its used bits leaves nothing. */
  predicate ValidBitmap(bits: seq<Byte>, pieces: int) {
    && 0 <= pieces <= MAX_PIECES && |bits| == BitmapBytes(pieces)
    && (pieces % 8 == 0 || Shr(bits[|bits| - 1], pieces % 8) == 0)
  }

  /** A bitmap of the right length is valid exactly when no bit beyond the last piece is set. */
  lemma ValidMeansNoStrayBits(bits: seq<Byte>, pieces: nat)
    requires pieces <= MAX_PIECES && |bits| == BitmapBytes(pieces)
    ensures ValidBitmap(bits, pieces) <==> forall piece :: pieces <= piece < 8 * |bits| ==> !Has(bits, piece)
  {
    if pieces % 8 != 0 {
      var last := bits[|bits| - 1];
      EightBits();
      ShiftedOut(last, 8, pieces % 8);
      if ValidBitmap(bits, pieces) {
        forall piece | pieces <= piece < 8 * |bits| ensures !Has(bits, piece) {
          assert piece / 8 == |bits| - 1 && piece % 8 >= pieces % 8;
        }
      } else {
        var k :| pieces % 8 <= k < 8 && Bit(last, k);
        assert Has(bits, 8 * (|bits| - 1) + k);
      }
    }
  }

  /** Two bitmaps of the same length with the same pieces are equal. */
  lemma SamePieces(a: seq<Byte>, b: seq<Byte>)
    requires |a| == |b| && forall piece :: 0 <= piece < 8 * |a| ==> Has(a, piece) == Has(b, piece)
    ensures a == b
  {
    forall i | 0 <= i < |a| ensures a[i] == b[i] {
      forall k | 0 <= k < 8 ensures Bit(a[i], k) == Bit(b[i], k) {
        assert Has(a, 8 * i + k) == Has(b, 8 * i + k);
      }
      SameBits(a[i], b[i]);
    }
  }
}
