/** Narrowing a saved checkpoint to the pieces its files still vouch for. */
module Filter {
  import opened Arithmetic
  import opened Bitmap
  import opened Checkpoint
  import opened Wrappers

  datatype Mode = Fast | Verify | OtherMode(text: string)

  datatype Reason =
    | Restored | StrictMode | NoCheckpoint | InvalidCheckpoint | BudgetExceeded
    | IdentityChanged | StorageBlocked | FilesChanged | PiecesRevoked

  /** No bits means nothing is trusted. */
  datatype Candidate = Candidate(reason: Reason, bits: seq<Byte>)

  // ------------------------------------------------------------------ pieces and files

  /** Piece n covers some byte of the file. */
  predicate Overlaps(f: File, piece: nat, pieceLength: int) {
    f.length > 0 && f.offset < (piece + 1) * pieceLength && piece * pieceLength < f.offset + f.length
  }

  function FirstPiece(f: File, pieceLength: int): int
    requires pieceLength > 0
  {
    f.offset / pieceLength
  }

  function LastPiece(f: File, pieceLength: int): int
    requires pieceLength > 0
  {
    (f.offset + f.length - 1) / pieceLength
  }

  /** The pieces between the first and the last are exactly those that overlap the file. */
  lemma PieceRange(f: File, piece: nat, pieceLength: nat)
    requires pieceLength > 0 && f.offset >= 0 && f.length > 0
    ensures FirstPiece(f, pieceLength) <= piece <= LastPiece(f, pieceLength) <==> Overlaps(f, piece, pieceLength)
  {
    DivBelow(f.offset, pieceLength, piece + 1);
    DivBelow(f.offset + f.length - 1, pieceLength, piece);
  }

  lemma FirstBeforeLast(f: File, pieceLength: int)
    requires pieceLength > 0 && f.offset >= 0 && f.length > 0
    ensures 0 <= FirstPiece(f, pieceLength) <= LastPiece(f, pieceLength)
  {
    DivMonotone(0, f.offset, pieceLength);
    DivMonotone(f.offset, f.offset + f.length - 1, pieceLength);
  }

  lemma LastPieceInRange(f: File, extent: nat, pieceLength: nat)
    requires pieceLength > 0 && f.offset >= 0 && f.length > 0 && f.offset + f.length <= extent
    ensures LastPiece(f, pieceLength) < PieceTotal(extent, pieceLength)
  {
    var total := PieceTotal(extent, pieceLength);
    assert extent == (extent / pieceLength) * pieceLength + extent % pieceLength;
    assert extent <= total * pieceLength by {
      if extent % pieceLength != 0 { assert total * pieceLength == (extent / pieceLength) * pieceLength + pieceLength; }
    }
    DivBelow(f.offset + f.length - 1, pieceLength, total);
  }

  // ------------------------------------------------------------------ in-place clearing

  /** clearFilePieces: clear the bits of one file's pieces and no others. */
  method ClearFilePieces(bits: array<Byte>, pieceLength: int, f: File)
    requires pieceLength > 0 && f.offset >= 0 && f.length >= 0
    requires f.length > 0 ==> LastPiece(f, pieceLength) < 8 * bits.Length
    modifies bits
    ensures forall piece: nat :: piece < 8 * bits.Length ==>
              (Has(bits[..], piece) <==> Has(old(bits[..]), piece) && !Overlaps(f, piece, pieceLength))
  {
    if f.length == 0 { return; }
    var begin, end := FirstPiece(f, pieceLength), LastPiece(f, pieceLength);
    ghost var was := bits[..];
    FirstBeforeLast(f, pieceLength);
    var piece := begin;
    while piece <= end
      invariant 0 <= begin <= piece <= end + 1
      invariant forall p: nat :: p < 8 * bits.Length ==> (Has(bits[..], p) <==> Has(was, p) && !(begin <= p < piece))
      decreases end - piece
    {
      ghost var before := bits[..];
      bits[piece / 8] := AndNot(bits[piece / 8], Mask(piece % 8));
      ClearedBit(before, bits[..], piece);
      piece := piece + 1;
    }
    forall p: nat | p < 8 * bits.Length
      ensures Has(bits[..], p) <==> Has(was, p) && !Overlaps(f, p, pieceLength)
    {
      PieceRange(f, p, pieceLength);
    }
  }

  lemma ClearedBit(before: seq<Byte>, after: seq<Byte>, piece: nat)
    requires piece < 8 * |before| && after == before[piece / 8 := AndNot(before[piece / 8], Mask(piece % 8))]
    ensures forall p: nat :: p < 8 * |before| ==> (Has(after, p) <==> Has(before, p) && p != piece)
  {
    forall p: nat | p < 8 * |before| ensures Has(after, p) <==> Has(before, p) && p != piece {
      if p / 8 == piece / 8 { assert p % 8 == piece % 8 <==> p == piece; }
    }
  }

  // ------------------------------------------------------------------ Filter

  predicate Intact(file: File, recorded: File) {
    file.evidence.present && file.evidence.size >= file.length && file.evidence == recorded.evidence
  }

  predicate SamePlace(file: File, recorded: File) {
    file.path == recorded.path && file.offset == recorded.offset && file.length == recorded.length
  }

  /** Why nothing at all is trusted, in the order of the checks; None when the catalog is accepted. */
  function Rejection(rules: Rules, mode: Mode, saved: Option<Checkpoint>, expected: Identity, current: seq<File>,
                     revoked: seq<Byte>, blocked: bool): Option<Reason> {
    if !mode.Fast? then Some(StrictMode)
    else if blocked then Some(StorageBlocked)
    else if saved.None? then Some(NoCheckpoint)
    else if Verdict(rules, saved.value).Some? then
      Some(if Verdict(rules, saved.value).value.Budget? then BudgetExceeded else InvalidCheckpoint)
    else if saved.value.identity != expected || |current| != |saved.value.files| then Some(IdentityChanged)
    else if !ValidBitmap(revoked, expected.pieceCount) then Some(InvalidCheckpoint)
    else if exists i :: 0 <= i < |current| && !SamePlace(current[i], saved.value.files[i]) then Some(IdentityChanged)
    else None
  }

  /** Every file of the first n that overlaps the piece has present, long-enough and unchanged evidence. */
  predicate Vouched(saved: Checkpoint, current: seq<File>, n: nat, piece: nat)
    requires n <= |current| == |saved.files|
  {
    forall i :: 0 <= i < n && Overlaps(current[i], piece, saved.identity.pieceLength) ==>
      Intact(current[i], saved.files[i])
  }

  /** Some saved piece is revoked. */
  ghost predicate Hits(pieces: seq<Byte>, revoked: seq<Byte>)
    requires |pieces| == |revoked|
  {
    exists piece: nat :: piece < 8 * |revoked| && Has(pieces, piece) && Has(revoked, piece)
  }

  method Filter(rules: Rules, mode: Mode, saved: Option<Checkpoint>, expected: Identity, current: seq<File>,
                revoked: seq<Byte>, blocked: bool) returns (c: Candidate)
    ensures var no := Rejection(rules, mode, saved, expected, current, revoked, blocked);
            if no.Some? then c == Candidate(no.value, []) else
              && |c.bits| == |saved.value.pieces| == |revoked| && |current| == |saved.value.files|
              && ValidBitmap(c.bits, expected.pieceCount)
              && (forall piece: nat :: piece < 8 * |c.bits| ==>
                    (Has(c.bits, piece) <==>
                       && Has(saved.value.pieces, piece) && !Has(revoked, piece)
                       && Vouched(saved.value, current, |current|, piece)))
              && c.reason ==
                   (if exists i :: 0 <= i < |current| && !Intact(current[i], saved.value.files[i]) then FilesChanged
                    else if Hits(saved.value.pieces, revoked) then PiecesRevoked
                    else Restored)
  {
    var no := Rejection(rules, mode, saved, expected, current, revoked, blocked);
    if no.Some? { return Candidate(no.value, []); }
    var s := saved.value;
    VerdictIsSound(rules, s);
    var bits := new Byte[|s.pieces|](i requires 0 <= i < |s.pieces| => s.pieces[i]);
    assert bits[..] == s.pieces;
    var anyRevoked := Revoke(bits, revoked);
    var anyChanged := DropChangedFiles(rules, s, current, bits);
    StrayBitsStayClear(s.pieces, bits[..], expected.pieceCount);
    c := Candidate(if anyChanged then FilesChanged else if anyRevoked then PiecesRevoked else Restored, bits[..]);
  }

  /** The loop over the current files: clear the pieces of each one whose evidence does not hold. */
  method DropChangedFiles(rules: Rules, s: Checkpoint, current: seq<File>, bits: array<Byte>) returns (any: bool)
    requires Sound(rules, s) && |current| == |s.files| && bits.Length == |s.pieces|
    requires forall i :: 0 <= i < |current| ==> SamePlace(current[i], s.files[i])
    modifies bits
    ensures forall piece: nat :: piece < 8 * bits.Length ==>
              (Has(bits[..], piece) <==> Has(old(bits[..]), piece) && Vouched(s, current, |current|, piece))
    ensures any <==> exists i :: 0 <= i < |current| && !Intact(current[i], s.files[i])
  {
    any := false;
    for n := 0 to |current|
      invariant forall piece: nat :: piece < 8 * bits.Length ==>
                  (Has(bits[..], piece) <==> Has(old(bits[..]), piece) && Vouched(s, current, n, piece))
      invariant any <==> exists i :: 0 <= i < n && !Intact(current[i], s.files[i])
    {
      FileInRange(rules, s, current[n], n);
      if !Intact(current[n], s.files[n]) {
        any := true;
        ClearFilePieces(bits, s.identity.pieceLength, current[n]);
      }
    }
  }

  lemma FileInRange(rules: Rules, s: Checkpoint, f: File, n: nat)
    requires Sound(rules, s) && n < |s.files| && SamePlace(f, s.files[n])
    ensures s.identity.pieceLength > 0 && f.offset >= 0 && f.length >= 0
    ensures f.length > 0 ==> LastPiece(f, s.identity.pieceLength) < 8 * |s.pieces|
  {
    assert Acceptable(rules, s.identity.extentLength, s.files[n]);
    if f.length > 0 { LastPieceInRange(f, s.identity.extentLength, s.identity.pieceLength); }
  }

  lemma StrayBitsStayClear(before: seq<Byte>, after: seq<Byte>, pieces: int)
    requires ValidBitmap(before, pieces) && |after| == |before|
    requires forall piece: nat :: piece < 8 * |before| ==> (Has(after, piece) ==> Has(before, piece))
    ensures ValidBitmap(after, pieces)
  {
    ValidMeansNoStrayBits(before, pieces);
    ValidMeansNoStrayBits(after, pieces);
  }

  /** Removes the revoked pieces and says whether any of them was there. */
  method Revoke(bits: array<Byte>, revoked: seq<Byte>) returns (any: bool)
    requires bits.Length == |revoked|
    modifies bits
    ensures forall piece: nat :: piece < 8 * |revoked| ==>
              (Has(bits[..], piece) <==> Has(old(bits[..]), piece) && !Has(revoked, piece))
    ensures any <==> exists piece: nat :: piece < 8 * |revoked| && Has(old(bits[..]), piece) && Has(revoked, piece)
  {
    ghost var was := bits[..];
    any := false;
    for i := 0 to |revoked|
      invariant forall k :: i <= k < |revoked| ==> bits[k] == was[k]
      invariant forall k :: 0 <= k < i ==> bits[k] == AndNot(was[k], revoked[k])
      invariant any <==> exists k :: 0 <= k < i && And(was[k], revoked[k]) != 0
    {
      if And(bits[i], revoked[i]) != 0 { any := true; }
      bits[i] := AndNot(bits[i], revoked[i]);
    }
    SharedPieces(was, revoked);
  }

  lemma SharedByte(a: seq<Byte>, b: seq<Byte>, k: nat) returns (piece: nat)
    requires |a| == |b| && k < |a| && And(a[k], b[k]) != 0
    ensures piece < 8 * |b| && Has(a, piece) && Has(b, piece)
  {
    var i := SomeBit(And(a[k], b[k]));
    piece := 8 * k + i;
    assert piece / 8 == k && piece % 8 == i;
  }

  lemma SharedPiece(a: seq<Byte>, b: seq<Byte>, piece: nat)
    requires |a| == |b| && piece < 8 * |b| && Has(a, piece) && Has(b, piece)
    ensures And(a[piece / 8], b[piece / 8]) != 0
  {
    NoBitsMeansZero(And(a[piece / 8], b[piece / 8]));
  }

  /** Some byte has a common bit exactly when some piece is in both. */
  lemma SharedPieces(a: seq<Byte>, b: seq<Byte>)
    requires |a| == |b|
    ensures (exists k :: 0 <= k < |a| && And(a[k], b[k]) != 0) <==>
            exists piece: nat :: piece < 8 * |b| && Has(a, piece) && Has(b, piece)
  {
    if k :| 0 <= k < |a| && And(a[k], b[k]) != 0 { var piece := SharedByte(a, b, k); }
    if piece: nat :| piece < 8 * |b| && Has(a, piece) && Has(b, piece) { SharedPiece(a, b, piece); }
  }
}
