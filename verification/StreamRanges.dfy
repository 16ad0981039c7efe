/** Piece ranges of a stream: merging, and the window a session asks for. */
module StreamRanges {
  import opened Arithmetic

  const HEAD_PREBUFFER := 20 * 0x10_0000
  const TAIL_PIECES := 4
  const BEHIND_PIECES := 2
  const SLIDING_WINDOW := 20 * 0x10_0000

  /** Pieces begin..end-1. */
  datatype Range = Range(begin: int, end: int)

  predicate Covers(ranges: seq<Range>, p: int) {
    exists i :: 0 <= i < |ranges| && ranges[i].begin <= p < ranges[i].end
  }

  predicate Before(a: Range, b: Range) {
    a.begin < b.begin || (a.begin == b.begin && a.end <= b.end)
  }

  predicate Ordered(s: seq<Range>) {
    forall i, j :: 0 <= i < j < |s| ==> Before(s[i], s[j])
  }

  predicate SameElements(a: seq<Range>, b: seq<Range>) {
    (forall r :: r in a ==> r in b) && (forall r :: r in b ==> r in a)
  }

  /** Sorted, non-empty ranges with a gap between each and the next. */
  predicate Normal(s: seq<Range>) {
    && (forall i :: 0 <= i < |s| ==> s[i].begin < s[i].end)
    && (forall i, j :: 0 <= i < j < |s| ==> s[i].end < s[j].begin)
  }

  // ------------------------------------------------------------------ sorting and merging

  /** sort.Slice on (begin, end), by insertion. */
  method Sort(ranges: seq<Range>) returns (s: seq<Range>)
    ensures Ordered(s) && SameElements(s, ranges) && |s| == |ranges|
  {
    s := [];
    for i := 0 to |ranges|
      invariant |s| == i && Ordered(s) && SameElements(s, ranges[..i])
    {
      var r := ranges[i];
      var k := 0;
      while k < i && Before(s[k], r)
        invariant 0 <= k <= i && forall j :: 0 <= j < k ==> Before(s[j], r)
      {
        k := k + 1;
      }
      Inserted(s, r, k, ranges[..i]);
      assert ranges[..i + 1] == ranges[..i] + [r];
      s := s[..k] + [r] + s[k..];
    }
    assert ranges[..|ranges|] == ranges;
  }

  lemma Inserted(s: seq<Range>, r: Range, k: nat, were: seq<Range>)
    requires k <= |s| && Ordered(s) && SameElements(s, were)
    requires (forall j :: 0 <= j < k ==> Before(s[j], r)) && (k < |s| ==> !Before(s[k], r))
    ensures Ordered(s[..k] + [r] + s[k..]) && SameElements(s[..k] + [r] + s[k..], were + [r])
  {
    var t := s[..k] + [r] + s[k..];
    forall i, j | 0 <= i < j < |t| ensures Before(t[i], t[j]) {
      if i == k { assert t[j] == s[j - 1]; if j - 1 > k { assert Before(s[k], s[j - 1]); } }
    }
    assert s == s[..k] + s[k..];
  }

  /** The first loop of mergeStreamPieceRanges: drop empty ranges. */
  method NonEmpty(ranges: seq<Range>) returns (items: seq<Range>)
    ensures forall r :: r in items <==> r in ranges && r.begin < r.end
  {
    items := [];
    for i := 0 to |ranges|
      invariant forall r :: r in items <==> r in ranges[..i] && r.begin < r.end
    {
      assert ranges[..i + 1] == ranges[..i] + [ranges[i]];
      if ranges[i].begin < ranges[i].end { items := items + [ranges[i]]; }
    }
    assert ranges[..|ranges|] == ranges;
  }

  lemma SameCover(a: seq<Range>, b: seq<Range>, p: int)
    requires forall r :: r in a && r.begin <= p < r.end ==> r in b
    ensures Covers(a, p) ==> Covers(b, p)
  {
    if Covers(a, p) {
      var i :| 0 <= i < |a| && a[i].begin <= p < a[i].end;
      assert a[i] in a;
      var j :| 0 <= j < |b| && b[j] == a[i];
      assert b[j].begin <= p < b[j].end;
    }
  }

  /** mergeStreamPieceRanges: the same pieces as sorted ranges that do not even touch. */
  method Merge(ranges: seq<Range>) returns (merged: seq<Range>)
    ensures Normal(merged)
    ensures forall p :: Covers(merged, p) <==> Covers(ranges, p)
  {
    var items := NonEmpty(ranges);
    var sorted := Sort(items);
    forall p ensures Covers(sorted, p) <==> Covers(ranges, p) {
      SameCover(sorted, ranges, p);
      SameCover(ranges, sorted, p);
    }
    if sorted == [] { return []; }
    assert forall i :: 0 <= i < |sorted| ==> sorted[i] in items;
    merged := MergeSorted(sorted);
  }

  /** The part of the sorted list taken in so far, and its last range reaching at least as far. */
  ghost predicate MergedTo(merged: seq<Range>, sorted: seq<Range>, i: nat)
    requires 0 < i <= |sorted|
  {
    && merged != [] && Normal(merged)
    && merged[|merged| - 1].begin <= sorted[i - 1].begin
    && forall p :: Covers(merged, p) <==> Covers(sorted[..i], p)
  }

  method MergeSorted(sorted: seq<Range>) returns (merged: seq<Range>)
    requires sorted != [] && Ordered(sorted) && forall i :: 0 <= i < |sorted| ==> sorted[i].begin < sorted[i].end
    ensures Normal(merged) && forall p :: Covers(merged, p) <==> Covers(sorted, p)
  {
    merged := [sorted[0]];
    assert sorted[..1] == [sorted[0]];
    for i := 1 to |sorted|
      invariant MergedTo(merged, sorted, i)
    {
      var r := sorted[i];
      var n := |merged| - 1;
      if r.begin <= merged[n].end {
        TakenIn(merged, sorted, i);
        if r.end > merged[n].end { merged := merged[..n] + [Range(merged[n].begin, r.end)]; }
      } else {
        Added(merged, sorted, i);
        merged := merged + [r];
      }
    }
    assert sorted[..|sorted|] == sorted;
  }

  lemma TakenIn(merged: seq<Range>, sorted: seq<Range>, i: nat)
    requires 0 < i < |sorted| && Ordered(sorted) && MergedTo(merged, sorted, i)
             && sorted[i].begin <= merged[|merged| - 1].end
    ensures var n := |merged| - 1;
            MergedTo(if sorted[i].end > merged[n].end then merged[..n] + [Range(merged[n].begin, sorted[i].end)]
                else merged, sorted, i + 1)
  {
    var n, r := |merged| - 1, sorted[i];
    assert Before(sorted[i - 1], r);
    var next := if r.end > merged[n].end then r.end else merged[n].end;
    assert merged == merged[..n] + [merged[n]];
    forall p ensures Covers(merged[..n] + [Range(merged[n].begin, next)], p) <==> Covers(sorted[..i + 1], p) {
      Extended(merged, sorted, i, next, p);
    }
  }

  lemma Added(merged: seq<Range>, sorted: seq<Range>, i: nat)
    requires 0 < i < |sorted| && MergedTo(merged, sorted, i)
    requires sorted[i].begin > merged[|merged| - 1].end && sorted[i].begin < sorted[i].end
    ensures MergedTo(merged + [sorted[i]], sorted, i + 1)
  {
    forall p ensures Covers(merged + [sorted[i]], p) <==> Covers(sorted[..i + 1], p) { Appended(merged, sorted, i, p); }
  }

  lemma CoversMore(s: seq<Range>, r: Range, p: int)
    ensures Covers(s + [r], p) <==> Covers(s, p) || r.begin <= p < r.end
  {
    if Covers(s, p) { var i :| 0 <= i < |s| && s[i].begin <= p < s[i].end; assert (s + [r])[i] == s[i]; }
    if r.begin <= p < r.end { assert (s + [r])[|s|] == r; }
  }

  lemma Appended(before: seq<Range>, sorted: seq<Range>, i: nat, p: int)
    requires i < |sorted| && (Covers(before, p) <==> Covers(sorted[..i], p))
    ensures Covers(before + [sorted[i]], p) <==> Covers(sorted[..i + 1], p)
  {
    assert sorted[..i + 1] == sorted[..i] + [sorted[i]];
    CoversMore(before, sorted[i], p);
    CoversMore(sorted[..i], sorted[i], p);
  }

  lemma Extended(before: seq<Range>, sorted: seq<Range>, i: nat, next: int, p: int)
    requires i < |sorted| && before != [] && (Covers(before, p) <==> Covers(sorted[..i], p))
    requires var last, r := before[|before| - 1], sorted[i];
             last.begin <= r.begin <= last.end && next == if r.end > last.end then r.end else last.end
    ensures Covers(before[..|before| - 1] + [Range(before[|before| - 1].begin, next)], p)
            <==> Covers(sorted[..i + 1], p)
  {
    var n := |before| - 1;
    assert before == before[..n] + [before[n]];
    assert sorted[..i + 1] == sorted[..i] + [sorted[i]];
    CoversMore(before[..n], before[n], p);
    CoversMore(before[..n], Range(before[n].begin, next), p);
    CoversMore(sorted[..i], sorted[i], p);
  }

  /** streamRangesContainPiece. */
  method Contains(ranges: seq<Range>, p: int) returns (yes: bool)
    ensures yes == Covers(ranges, p)
  {
    for i := 0 to |ranges|
      invariant !Covers(ranges[..i], p)
    {
      assert ranges[..i + 1] == ranges[..i] + [ranges[i]];
      CoversMore(ranges[..i], ranges[i], p);
      if ranges[i].begin <= p < ranges[i].end { return true; }
    }
    assert ranges[..|ranges|] == ranges;
    yes := false;
  }

  // ------------------------------------------------------------------ the window of a session

  /** A file inside the torrent: its bytes and the pieces that overlap them. */
  datatype Bounds = Bounds(offset: int, length: int, beginPiece: int, endPiece: int, tailMetadata: bool)

  datatype Options = Options(rangeStart: int, windowBytes: int)

  function MinPositive(a: int, b: int): int {
    if a <= 0 then b else if b <= 0 then a else if a < b then a else b
  }

  /** streamByteRegionPieces: the pieces of a byte region of the file, cut to the file; empty when there are none. */
  function RegionPieces(b: Bounds, pieceLength: int, relOffset: int, size: int): Range
    requires pieceLength > 0
  {
    var shift := if relOffset < 0 then relOffset else 0;
    var rel, want := relOffset - shift, size + shift;
    if want <= 0 || rel >= b.length then Range(0, 0)
    else
      var take := if rel + want > b.length then b.length - rel else want;
      var begin := Max((b.offset + rel) / pieceLength, b.beginPiece);
      var end := Min((b.offset + rel + take + pieceLength - 1) / pieceLength, b.endPiece);
      if begin >= end then Range(0, 0) else Range(begin, end)
  }

  function WindowBytes(cache: int, o: Options): int {
    if o.windowBytes > 0 then o.windowBytes else if cache > 0 then cache else SLIDING_WINDOW
  }

  function HeadRange(b: Bounds, pieceLength: int, o: Options): Range
    requires pieceLength > 0
  {
    RegionPieces(b, pieceLength, 0, MinPositive(if o.windowBytes > 0 then o.windowBytes else HEAD_PREBUFFER, b.length))
  }

  function TailRange(b: Bounds): Range {
    if b.tailMetadata then Range(Max(b.endPiece - TAIL_PIECES, b.beginPiece), b.endPiece) else Range(0, 0)
  }

  /** The pieces around the playhead, a little behind it included. */
  function PlayRange(b: Bounds, pieceLength: int, cache: int, o: Options): Range
    requires pieceLength > 0
  {
    var playhead := Max(o.rangeStart, 0);
    if playhead >= b.length then Range(0, 0)
    else
      var r := RegionPieces(b, pieceLength, playhead, Min(WindowBytes(cache, o), b.length - playhead));
      if r.begin >= r.end then r else Range(Max(r.begin - BEHIND_PIECES, b.beginPiece), r.end)
  }

  predicate Inside(b: Bounds, r: Range) {
    r.begin < r.end ==> b.beginPiece <= r.begin && r.end <= b.endPiece
  }

  /** computeStreamPieceRangesForBounds: head, tail and playhead window, merged. */
  method Window(b: Bounds, pieceLength: int, cache: int, o: Options) returns (ranges: seq<Range>)
    ensures Normal(ranges)
    ensures b.length <= 0 || pieceLength <= 0 || b.beginPiece >= b.endPiece ==> ranges == []
    ensures b.length > 0 && pieceLength > 0 && b.beginPiece < b.endPiece ==>
              && (forall p :: Covers(ranges, p) <==>
                    Covers([HeadRange(b, pieceLength, o), TailRange(b), PlayRange(b, pieceLength, cache, o)], p))
              && (forall p :: Covers(ranges, p) ==> b.beginPiece <= p < b.endPiece)
  {
    if b.length <= 0 || pieceLength <= 0 || b.beginPiece >= b.endPiece { return []; }
    var all := [HeadRange(b, pieceLength, o), TailRange(b), PlayRange(b, pieceLength, cache, o)];
    ranges := Merge(all);
    forall p | Covers(ranges, p) ensures b.beginPiece <= p < b.endPiece {
      assert Covers(all, p);
      assert Inside(b, all[0]) && Inside(b, all[1]) && Inside(b, all[2]);
    }
  }

  /** The window holds every piece of every byte from the playhead to the end of the window. */
  lemma WindowCoversPlayhead(b: Bounds, pieceLength: int, cache: int, o: Options, byte: int)
    requires pieceLength > 0 && b.length > 0 && b.offset >= 0
    requires Max(o.rangeStart, 0) <= byte < Min(b.length, Max(o.rangeStart, 0) + WindowBytes(cache, o))
    requires b.beginPiece <= (b.offset + byte) / pieceLength < b.endPiece
    ensures var r := PlayRange(b, pieceLength, cache, o); r.begin <= (b.offset + byte) / pieceLength < r.end
  {
    var playhead := Max(o.rangeStart, 0);
    var take := Min(WindowBytes(cache, o), b.length - playhead);
    var piece := (b.offset + byte) / pieceLength;
    DivMonotone(b.offset + playhead, b.offset + byte, pieceLength);
    assert piece * pieceLength <= b.offset + byte;
    assert (b.offset + byte + pieceLength) / pieceLength == piece + 1 by { DivShift(b.offset + byte, pieceLength); }
    DivMonotone(b.offset + byte + pieceLength, b.offset + playhead + take + pieceLength - 1, pieceLength);
  }
}
