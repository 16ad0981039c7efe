/** Verified-byte arithmetic over runs of piece states: prefix sums, their lookup, and the window ahead of a reader. */
module VerifiedBytes {
  import opened Arithmetic

  datatype PieceRun = PieceRun(length: nat, ok: bool, complete: bool, checking: bool, marking: bool)

  predicate Done(r: PieceRun) {
    r.ok && r.complete && !r.checking && !r.marking
  }

  // ------------------------------------------------------------------ what the runs mean

  /** Whether piece p is verified. */
  predicate PieceDone(runs: seq<PieceRun>, p: int)
    decreases |runs|
  {
    runs != [] && 0 <= p && if p < runs[0].length then Done(runs[0]) else PieceDone(runs[1..], p - runs[0].length)
  }

  predicate ByteDone(runs: seq<PieceRun>, l: int, b: int)
    requires l > 0
  {
    PieceDone(runs, b / l)
  }

  /** The number of verified bytes below pos, one by one. */
  function Count(runs: seq<PieceRun>, l: int, pos: int): nat
    requires l > 0
    decreases pos
  {
    if pos <= 0 then 0 else Count(runs, l, pos - 1) + if ByteDone(runs, l, pos - 1) then 1 else 0
  }

  function Pieces(runs: seq<PieceRun>, n: nat): nat
    requires n <= |runs|
  {
    if n == 0 then 0 else Pieces(runs, n - 1) + runs[n - 1].length
  }

  lemma {:induction false} PiecesFront(runs: seq<PieceRun>, n: nat)
    requires 0 < n <= |runs|
    ensures Pieces(runs, n) == runs[0].length + Pieces(runs[1..], n - 1)
    decreases n
  {
    if n > 1 { PiecesFront(runs, n - 1); }
  }

  lemma {:induction false} PieceInRun(runs: seq<PieceRun>, i: nat, p: int)
    requires i < |runs| && Pieces(runs, i) <= p < Pieces(runs, i + 1)
    ensures PieceDone(runs, p) == Done(runs[i])
    decreases i
  {
    if i > 0 {
      PiecesFront(runs, i);
      PiecesFront(runs, i + 1);
      PieceInRun(runs[1..], i - 1, p - runs[0].length);
    }
  }

  lemma {:induction false} PastTheEnd(runs: seq<PieceRun>, p: int)
    requires p >= Pieces(runs, |runs|)
    ensures !PieceDone(runs, p)
    decreases |runs|
  {
    if runs != [] {
      PiecesFront(runs, |runs|);
      PastTheEnd(runs[1..], p - runs[0].length);
    }
  }

  /** Within one run the count grows by every byte or by none. */
  lemma {:induction false} CountInRun(runs: seq<PieceRun>, l: int, i: nat, pos: int)
    requires l > 0 && i < |runs| && Pieces(runs, i) * l <= pos <= Pieces(runs, i + 1) * l
    ensures Count(runs, l, pos) ==
            Count(runs, l, Pieces(runs, i) * l) + if Done(runs[i]) then pos - Pieces(runs, i) * l else 0
    decreases pos
  {
    if pos > Pieces(runs, i) * l {
      CountInRun(runs, l, i, pos - 1);
      DivBelow(pos - 1, l, Pieces(runs, i));
      DivBelow(pos - 1, l, Pieces(runs, i + 1));
      PieceInRun(runs, i, (pos - 1) / l);
    }
  }

  lemma {:induction false} CountPastTheEnd(runs: seq<PieceRun>, l: int, pos: int)
    requires l > 0 && pos >= Pieces(runs, |runs|) * l
    ensures Count(runs, l, pos) == Count(runs, l, Pieces(runs, |runs|) * l)
    decreases pos
  {
    if pos > Pieces(runs, |runs|) * l {
      CountPastTheEnd(runs, l, pos - 1);
      DivBelow(pos - 1, l, Pieces(runs, |runs|));
      PastTheEnd(runs, (pos - 1) / l);
    }
  }

  // ------------------------------------------------------------------ building and looking up the prefix

  datatype Interval = Interval(start: int, end: int, before: int, complete: bool)

  predicate Entry(runs: seq<PieceRun>, l: int, i: nat, v: Interval)
    requires l > 0 && i < |runs|
  {
    v == Interval(Pieces(runs, i) * l, Pieces(runs, i + 1) * l, Count(runs, l, Pieces(runs, i) * l), Done(runs[i]))
  }

  /** The loop of verifiedPrefix: one interval per run with the verified bytes before it. */
  method Build(runs: seq<PieceRun>, l: int) returns (intervals: seq<Interval>, total: int)
    requires l > 0
    ensures |intervals| == |runs| && forall i :: 0 <= i < |runs| ==> Entry(runs, l, i, intervals[i])
    ensures total == Count(runs, l, Pieces(runs, |runs|) * l)
  {
    intervals, total := [], 0;
    var offset := 0;
    for i := 0 to |runs|
      invariant |intervals| == i && forall k :: 0 <= k < i ==> Entry(runs, l, k, intervals[k])
      invariant offset == Pieces(runs, i) * l && total == Count(runs, l, offset)
    {
      var end := offset + runs[i].length * l;
      Distribute(Pieces(runs, i), runs[i].length, l);
      CountInRun(runs, l, i, end);
      intervals := intervals + [Interval(offset, end, total, Done(runs[i]))];
      if Done(runs[i]) { total := total + (end - offset); }
      offset := end;
    }
  }

  lemma Distribute(a: int, b: int, l: int)
    requires b >= 0 && l > 0
    ensures (a + b) * l == a * l + b * l && b * l >= 0
  {
  }

  /** sort.Search: the first interval that ends at or after pos. */
  method Search(intervals: seq<Interval>, pos: int) returns (i: nat)
    requires forall a, b :: 0 <= a < b < |intervals| ==> intervals[a].end <= intervals[b].end
    ensures i <= |intervals|
    ensures forall k :: 0 <= k < i ==> intervals[k].end < pos
    ensures i < |intervals| ==> intervals[i].end >= pos
  {
    i := 0;
    var hi := |intervals|;
    while i < hi
      invariant i <= hi <= |intervals|
      invariant forall k :: 0 <= k < i ==> intervals[k].end < pos
      invariant hi < |intervals| ==> intervals[hi].end >= pos
    {
      var mid := (i + hi) / 2;
      if intervals[mid].end >= pos { hi := mid; } else { i := mid + 1; }
    }
  }

  lemma {:induction false} PiecesMonotone(runs: seq<PieceRun>, a: nat, b: nat)
    requires a <= b <= |runs|
    ensures Pieces(runs, a) <= Pieces(runs, b)
    decreases b
  {
    if a < b { PiecesMonotone(runs, a, b - 1); }
  }

  lemma EndsAscend(runs: seq<PieceRun>, l: int, intervals: seq<Interval>)
    requires l > 0 && |intervals| == |runs| && forall i :: 0 <= i < |runs| ==> Entry(runs, l, i, intervals[i])
    ensures forall a, b :: 0 <= a < b < |intervals| ==> intervals[a].end <= intervals[b].end
  {
    forall a, b | 0 <= a < b < |intervals| ensures intervals[a].end <= intervals[b].end {
      PiecesMonotone(runs, a + 1, b + 1);
      assert Entry(runs, l, a, intervals[a]) && Entry(runs, l, b, intervals[b]);
      Distribute(Pieces(runs, a + 1), Pieces(runs, b + 1) - Pieces(runs, a + 1), l);
    }
  }

  /** The closure verifiedPrefix returns: the number of verified bytes below any position. */
  method Prefix(runs: seq<PieceRun>, l: int, pos: int) returns (n: int)
    requires l > 0
    ensures n == Count(runs, l, pos)
  {
    var intervals, total := Build(runs, l);
    if pos <= 0 || intervals == [] {
      if pos > 0 { CountPastTheEnd(runs, l, pos); }
      return 0;
    }
    EndsAscend(runs, l, intervals);
    var i := Search(intervals, pos);
    if i == |intervals| {
      assert Entry(runs, l, i - 1, intervals[i - 1]);
      CountPastTheEnd(runs, l, pos);
      return total;
    }
    var r := intervals[i];
    assert Entry(runs, l, i, r);
    if i > 0 { assert Entry(runs, l, i - 1, intervals[i - 1]); }
    CountInRun(runs, l, i, pos);
    n := if r.complete then r.before + pos - r.start else r.before;
  }

  // ------------------------------------------------------------------ intervals and files

  predicate AllDone(runs: seq<PieceRun>, l: int, lo: int, hi: int)
    requires l > 0
  {
    forall b :: lo <= b < hi ==> ByteDone(runs, l, b)
  }

  /** The verified bytes among lo..hi-1. */
  function VerifiedIn(runs: seq<PieceRun>, l: int, lo: int, hi: int): set<int>
    requires l > 0
  {
    set b | lo <= b < hi && ByteDone(runs, l, b)
  }

  /** The difference of two prefixes is the number of verified bytes between them. */
  lemma {:induction false} DifferenceCounts(runs: seq<PieceRun>, l: int, lo: int, hi: int)
    requires l > 0 && 0 <= lo <= hi
    ensures Count(runs, l, hi) - Count(runs, l, lo) == |VerifiedIn(runs, l, lo, hi)|
    decreases hi
  {
    if lo < hi {
      DifferenceCounts(runs, l, lo, hi - 1);
      var before := VerifiedIn(runs, l, lo, hi - 1);
      assert VerifiedIn(runs, l, lo, hi) == if ByteDone(runs, l, hi - 1) then before + {hi - 1} else before;
    }
  }

  lemma {:induction false} DifferenceBounds(runs: seq<PieceRun>, l: int, lo: int, hi: int)
    requires l > 0 && 0 <= lo <= hi
    ensures 0 <= Count(runs, l, hi) - Count(runs, l, lo) <= hi - lo
    ensures Count(runs, l, hi) - Count(runs, l, lo) == hi - lo <==> AllDone(runs, l, lo, hi)
    decreases hi
  {
    if lo < hi {
      DifferenceBounds(runs, l, lo, hi - 1);
      if AllDone(runs, l, lo, hi - 1) && ByteDone(runs, l, hi - 1) { assert AllDone(runs, l, lo, hi); }
    }
  }

  predicate PiecesDone(runs: seq<PieceRun>, first: int, last: int) {
    forall p :: first <= p <= last ==> PieceDone(runs, p)
  }

  lemma BytesToPieces(runs: seq<PieceRun>, l: int, offset: int, length: int)
    requires l > 0 && length > 0 && AllDone(runs, l, offset, offset + length)
    ensures PiecesDone(runs, offset / l, (offset + length - 1) / l)
  {
    forall p | offset / l <= p <= (offset + length - 1) / l ensures PieceDone(runs, p) {
      var b := ByteOf(l, offset, length, p);
      assert ByteDone(runs, l, b);
    }
  }

  lemma PiecesToBytes(runs: seq<PieceRun>, l: int, offset: int, length: int)
    requires l > 0 && length > 0 && PiecesDone(runs, offset / l, (offset + length - 1) / l)
    ensures AllDone(runs, l, offset, offset + length)
  {
    forall b | offset <= b < offset + length ensures ByteDone(runs, l, b) {
      DivMonotone(offset, b, l);
      DivMonotone(b, offset + length - 1, l);
    }
  }

  /** A non-empty file's difference is its length exactly when every piece it overlaps is verified. */
  lemma FileCompleteExactly(runs: seq<PieceRun>, l: int, offset: int, length: int)
    requires l > 0 && offset >= 0 && length > 0
    ensures Count(runs, l, offset + length) - Count(runs, l, offset) == length <==>
            PiecesDone(runs, offset / l, (offset + length - 1) / l)
  {
    DifferenceBounds(runs, l, offset, offset + length);
    if AllDone(runs, l, offset, offset + length) { BytesToPieces(runs, l, offset, length); }
    if PiecesDone(runs, offset / l, (offset + length - 1) / l) { PiecesToBytes(runs, l, offset, length); }
  }

  /** A byte of the file inside the overlapped piece. */
  lemma ByteOf(l: int, offset: int, length: int, p: int) returns (b: int)
    requires l > 0 && length > 0 && offset / l <= p <= (offset + length - 1) / l
    ensures offset <= b < offset + length && b / l == p
  {
    b := if p * l < offset then offset else p * l;
    DivBelow(offset, l, p);
    DivBelow(offset, l, p + 1);
    DivBelow(offset + length - 1, l, p);
    DivBelow(b, l, p);
    DivBelow(b, l, p + 1);
  }

  datatype Extent = Extent(offset: int, length: int)

  predicate FileDone(runs: seq<PieceRun>, l: int, f: Extent)
    requires l > 0
  {
    f.length == 0 || PiecesDone(runs, f.offset / l, (f.offset + f.length - 1) / l)
  }

  /** The loop of reconcileSelectionLocked: what it reports is exactly which files have all their pieces. */
  method ObserveSelection(runs: seq<PieceRun>, l: int, files: seq<Extent>, selected: seq<bool>)
    returns (selectionComplete: bool, allComplete: bool, selectedFiles: nat)
    requires l > 0 && |selected| == |files|
    requires forall i :: 0 <= i < |files| ==> files[i].offset >= 0 && files[i].length >= 0
    ensures allComplete <==> forall i :: 0 <= i < |files| ==> FileDone(runs, l, files[i])
    ensures selectionComplete <==> forall i :: 0 <= i < |files| && selected[i] ==> FileDone(runs, l, files[i])
    ensures selectedFiles == |set i | 0 <= i < |files| && selected[i]|
  {
    selectionComplete, allComplete, selectedFiles := true, true, 0;
    ghost var chosen: set<int> := {};
    for i := 0 to |files|
      invariant allComplete <==> forall k :: 0 <= k < i ==> FileDone(runs, l, files[k])
      invariant selectionComplete <==> forall k :: 0 <= k < i && selected[k] ==> FileDone(runs, l, files[k])
      invariant chosen == (set k | 0 <= k < i && selected[k]) && selectedFiles == |chosen|
    {
      var high := Prefix(runs, l, files[i].offset + files[i].length);
      var low := Prefix(runs, l, files[i].offset);
      var complete := high - low == files[i].length;
      if files[i].length > 0 { FileCompleteExactly(runs, l, files[i].offset, files[i].length); }
      allComplete := allComplete && complete;
      if selected[i] {
        selectedFiles := selectedFiles + 1;
        chosen := chosen + {i};
        selectionComplete := selectionComplete && complete;
      }
    }
  }

  // ------------------------------------------------------------------ the window ahead of a reader

  /** Every byte from lo to hi is in a piece the predicate accepts. */
  predicate Solid(complete: int -> bool, l: int, lo: int, hi: int)
    requires l > 0
  {
    forall b :: lo <= b < hi ==> complete(b / l)
  }

  /** How far the bytes before piece p reach, from the start and within the file. */
  function Reached(start: int, end: int, l: int, p: int): int {
    Max(start, Min(p * l, end))
  }

  /** continuousCompleteBytesFromOffset: the longest accepted stretch from the offset within the file. */
  method Continuous(fileStart: int, fileLength: int, currentOffset: int, l: int, complete: int -> bool) returns (n: int)
    requires fileStart >= 0
    ensures fileLength <= 0 || l <= 0 || Max(currentOffset, 0) >= fileLength ==> n == 0
    ensures fileLength > 0 && l > 0 && Max(currentOffset, 0) < fileLength ==>
              var start := fileStart + Max(currentOffset, 0);
              && 0 <= n <= fileStart + fileLength - start
              && Solid(complete, l, start, start + n)
              && (start + n < fileStart + fileLength ==> !complete((start + n) / l))
  {
    if fileLength <= 0 || l <= 0 { return 0; }
    var current := if currentOffset < 0 then 0 else currentOffset;
    if current >= fileLength { return 0; }
    var fileEnd := fileStart + fileLength;
    var start := fileStart + current;
    var first, last := start / l, (fileEnd - 1) / l;
    n := 0;
    var p := first;
    FirstPiece(start, l);
    DivMonotone(start, fileEnd - 1, l);
    while p <= last && complete(p)
      invariant first <= p <= last + 1 && n == Reached(start, fileEnd, l, p) - start
      invariant Solid(complete, l, start, start + n)
    {
      var pieceStart := p * l;
      var pieceEnd := pieceStart + l;
      var segmentStart := Max(start, Max(pieceStart, fileStart));
      var segmentEnd := Min(pieceEnd, fileEnd);
      OnePiece(complete, start, fileEnd, l, p);
      if segmentEnd > segmentStart { n := n + (segmentEnd - segmentStart); }
      p := p + 1;
    }
    StopsThere(start, fileEnd, l, p, last);
  }

  lemma FirstPiece(start: int, l: int)
    requires l > 0 && start >= 0
    ensures (start / l) * l <= start < (start / l + 1) * l
  {
    DivBelow(start, l, start / l);
    DivBelow(start, l, start / l + 1);
  }

  /** Taking in piece p extends the reach to the end of the piece or of the file. */
  lemma OnePiece(complete: int -> bool, start: int, end: int, l: int, p: int)
    requires l > 0 && 0 <= start < end && start / l <= p <= (end - 1) / l && complete(p)
    requires Solid(complete, l, start, Reached(start, end, l, p))
    ensures p * l < end && start < (p + 1) * l && (p + 1) * l == p * l + l
    ensures Reached(start, end, l, p + 1) == Min(p * l + l, end)
    ensures Solid(complete, l, start, Reached(start, end, l, p + 1))
  {
    DivBelow(start, l, p + 1);
    DivBelow(end - 1, l, p);
    forall b | start <= b < Reached(start, end, l, p + 1) ensures complete(b / l) {
      if b >= Reached(start, end, l, p) {
        DivBelow(b, l, p);
        DivBelow(b, l, p + 1);
      }
    }
  }

  /** Where the loop stops short of the file's end, the next byte is in the piece that stopped it. */
  lemma StopsThere(start: int, end: int, l: int, p: int, last: int)
    requires l > 0 && 0 <= start < end && start / l <= p <= last + 1 && last == (end - 1) / l
    ensures p > last ==> Reached(start, end, l, p) == end
    ensures p <= last ==> Reached(start, end, l, p) < end && Reached(start, end, l, p) / l == p
  {
    var r := Reached(start, end, l, p);
    DivBelow(end - 1, l, p);
    DivBelow(start, l, p);
    DivBelow(start, l, p + 1);
    DivBelow(r, l, p);
    DivBelow(r, l, p + 1);
  }

  /** The prefix difference over the next m bytes. */
  function Ahead(runs: seq<PieceRun>, l: int, start: int, m: int): int
    requires l > 0
  {
    Count(runs, l, start + m) - Count(runs, l, start)
  }

  /** n is the largest number up to the limit whose prefix difference is itself. */
  predicate Largest(runs: seq<PieceRun>, l: int, start: int, limit: int, n: int)
    requires l > 0
  {
    0 <= n <= limit && forall m :: 0 <= m <= limit ==> (Ahead(runs, l, start, m) == m <==> m <= n)
  }

  function ByRuns(runs: seq<PieceRun>): int -> bool {
    p => PieceDone(runs, p)
  }

  lemma SolidRuns(runs: seq<PieceRun>, l: int, lo: int, hi: int)
    requires l > 0 && Solid(ByRuns(runs), l, lo, hi)
    ensures AllDone(runs, l, lo, hi)
  {
    forall b | lo <= b < hi ensures ByteDone(runs, l, b) { assert ByRuns(runs)(b / l); }
  }

  /** Asked about the same runs, the reader's window is the largest n whose prefix difference is n. */
  method Window(runs: seq<PieceRun>, l: int, fileStart: int, fileLength: int, currentOffset: int) returns (n: int)
    requires l > 0 && fileStart >= 0 && 0 <= currentOffset < fileLength
    ensures Largest(runs, l, fileStart + currentOffset, fileLength - currentOffset, n)
  {
    n := Continuous(fileStart, fileLength, currentOffset, l, ByRuns(runs));
    var start, end := fileStart + currentOffset, fileStart + fileLength;
    SolidRuns(runs, l, start, start + n);
    forall m | 0 <= m <= end - start ensures Ahead(runs, l, start, m) == m <==> m <= n {
      LargestWindow(runs, l, start, end, n, m);
    }
  }

  lemma LargestWindow(runs: seq<PieceRun>, l: int, start: int, end: int, n: int, m: int)
    requires l > 0 && 0 <= start && 0 <= n && start + n <= end && 0 <= m && start + m <= end
    requires AllDone(runs, l, start, start + n) && (start + n < end ==> !ByteDone(runs, l, start + n))
    ensures Ahead(runs, l, start, m) == m <==> m <= n
  {
    DifferenceBounds(runs, l, start, start + m);
  }
}
