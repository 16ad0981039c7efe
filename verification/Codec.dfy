/** The binary envelope of a checkpoint: encoder, sticky-error decoder, and their exact inverse relation. */
module Codec {
  import opened Bitmap
  import opened Checkpoint
  import opened Wrappers

  datatype Result<T> = Ok(value: T) | Err(error: Error)

  // ------------------------------------------------------------------ little-endian integers

  function Pow256(k: nat): (p: nat)
    ensures p > 0
  {
    if k == 0 then 1 else 256 * Pow256(k - 1)
  }

  /** The k low bytes of n, lowest first. */
  function ToBytes(n: nat, k: nat): (s: seq<Byte>)
    ensures |s| == k
    decreases k
  {
    if k == 0 then [] else [n % 256] + ToBytes(n / 256, k - 1)
  }

  function FromBytes(s: seq<Byte>): (n: nat)
    ensures n < Pow256(|s|)
  {
    if s == [] then 0 else s[0] + 256 * FromBytes(s[1..])
  }

  lemma {:induction false} BytesOfNumber(n: nat, k: nat)
    requires n < Pow256(k)
    ensures FromBytes(ToBytes(n, k)) == n
    decreases k
  {
    if k > 0 {
      BytesOfNumber(n / 256, k - 1);
      assert ToBytes(n, k)[1..] == ToBytes(n / 256, k - 1);
    }
  }

  lemma {:induction false} NumberOfBytes(s: seq<Byte>)
    ensures ToBytes(FromBytes(s), |s|) == s
  {
    if s != [] {
      NumberOfBytes(s[1..]);
      assert FromBytes(s) % 256 == s[0] && FromBytes(s) / 256 == FromBytes(s[1..]);
    }
  }

  const TWO64 := 0x1_0000_0000_0000_0000
  const TWO32 := 0x1_0000_0000

  lemma Widths()
    ensures Pow256(8) == TWO64 && Pow256(4) == TWO32
  {
    assert Pow256(2) == 0x1_0000;
    assert Pow256(4) == 0x1_0000 * Pow256(2);
    assert Pow256(6) == 0x1_0000 * Pow256(4);
    assert Pow256(8) == 0x1_0000 * Pow256(6);
  }

  /** Two's complement. */
  function EncodeInt(n: Int64): (s: seq<Byte>)
    ensures |s| == 8
  {
    ToBytes(if n < 0 then n + TWO64 else n, 8)
  }

  function DecodeInt(s: seq<Byte>): Int64
    requires |s| == 8
  {
    Widths();
    var u := FromBytes(s);
    if u < TWO64 / 2 then u else u - TWO64
  }

  lemma IntRoundTrip(n: Int64)
    ensures DecodeInt(EncodeInt(n)) == n
  {
    Widths();
    BytesOfNumber(if n < 0 then n + TWO64 else n, 8);
  }

  lemma IntBytes(s: seq<Byte>)
    requires |s| == 8
    ensures EncodeInt(DecodeInt(s)) == s
  {
    Widths();
    NumberOfBytes(s);
  }

  /** The length prefix keeps 32 bits. */
  function EncodeText(t: Text): seq<Byte> {
    ToBytes(|t| % TWO32, 4) + t
  }

  function EncodeInts(ns: seq<Int64>): seq<Byte> {
    if ns == [] then [] else EncodeInt(ns[0]) + EncodeInts(ns[1..])
  }

  function EncodeTexts(ts: seq<Text>): seq<Byte> {
    if ts == [] then [] else EncodeText(ts[0]) + EncodeTexts(ts[1..])
  }

  // ------------------------------------------------------------------ the decoder state

  /** The unread bytes and the first error; after an error every read yields nothing. */
  datatype Reader = Reader(rest: seq<Byte>, err: Option<Error>)

  function Take(d: Reader, n: nat): (seq<Byte>, Reader) {
    if d.err.Some? then ([], d)
    else if n > |d.rest| then ([], d.(err := Some(Truncated)))
    else (d.rest[..n], d.(rest := d.rest[n..]))
  }

  function ReadInt(d: Reader): (Int64, Reader) {
    var (p, d1) := Take(d, 8);
    if |p| == 8 then (DecodeInt(p), d1) else (0, d1)
  }

  /** The comparison is on unsigned numbers, so a negative limit would limit nothing. */
  function ReadText(d: Reader, limit: int): (Text, Reader) {
    var (p, d1) := Take(d, 4);
    if |p| != 4 then ([], d1)
    else if 0 <= limit < FromBytes(p) then ([], d1.(err := Some(Budget)))
    else Take(d1, FromBytes(p))
  }

  function ReadInts(d: Reader, n: nat): (r: (seq<Int64>, Reader))
    ensures |r.0| == n
    decreases n
  {
    if n == 0 then ([], d)
    else
      var (x, d1) := ReadInt(d);
      var (xs, d2) := ReadInts(d1, n - 1);
      ([x] + xs, d2)
  }

  function ReadTexts(d: Reader, limits: seq<nat>): (r: (seq<Text>, Reader))
    ensures |r.0| == |limits|
    decreases |limits|
  {
    if limits == [] then ([], d)
    else
      var (x, d1) := ReadText(d, limits[0]);
      var (xs, d2) := ReadTexts(d1, limits[1..]);
      ([x] + xs, d2)
  }

  predicate Fits(ts: seq<Text>, limits: seq<nat>) {
    |ts| == |limits| && forall i :: 0 <= i < |ts| ==> |ts[i]| <= limits[i] < TWO32
  }

  // Reading back what was written.

  lemma Assoc(a: seq<Byte>, b: seq<Byte>, c: seq<Byte>)
    ensures (a + b) + c == a + (b + c)
  {
  }

  lemma TakesPrefix(a: seq<Byte>, rest: seq<Byte>)
    ensures Take(Reader(a + rest, None), |a|) == (a, Reader(rest, None))
  {
    assert (a + rest)[..|a|] == a && (a + rest)[|a|..] == rest;
  }

  lemma ReadsInt(n: Int64, rest: seq<Byte>)
    ensures ReadInt(Reader(EncodeInt(n) + rest, None)) == (n, Reader(rest, None))
  {
    IntRoundTrip(n);
    TakesPrefix(EncodeInt(n), rest);
  }

  lemma ReadsText(t: Text, limit: nat, rest: seq<Byte>)
    requires |t| <= limit < TWO32
    ensures ReadText(Reader(EncodeText(t) + rest, None), limit) == (t, Reader(rest, None))
  {
    var prefix := ToBytes(|t|, 4);
    assert FromBytes(prefix) == |t| by { Widths(); BytesOfNumber(|t|, 4); }
    Assoc(prefix, t, rest);
    TakesPrefix(prefix, t + rest);
    TakesPrefix(t, rest);
  }

  lemma {:induction false} ReadsInts(ns: seq<Int64>, rest: seq<Byte>)
    ensures ReadInts(Reader(EncodeInts(ns) + rest, None), |ns|) == (ns, Reader(rest, None))
  {
    if ns == [] {
      assert EncodeInts(ns) + rest == rest;
    } else {
      var tail := EncodeInts(ns[1..]) + rest;
      Assoc(EncodeInt(ns[0]), EncodeInts(ns[1..]), rest);
      ReadsInt(ns[0], tail);
      ReadsInts(ns[1..], rest);
      assert ns == [ns[0]] + ns[1..];
    }
  }

  lemma {:induction false} ReadsTexts(ts: seq<Text>, limits: seq<nat>, rest: seq<Byte>)
    requires Fits(ts, limits)
    ensures ReadTexts(Reader(EncodeTexts(ts) + rest, None), limits) == (ts, Reader(rest, None))
  {
    if ts == [] {
      assert EncodeTexts(ts) + rest == rest;
    } else {
      Assoc(EncodeText(ts[0]), EncodeTexts(ts[1..]), rest);
      ReadsText(ts[0], limits[0], EncodeTexts(ts[1..]) + rest);
      ReadsTexts(ts[1..], limits[1..], rest);
      assert ts == [ts[0]] + ts[1..];
    }
  }

  // Writing back what was read.

  lemma TookPrefix(d: Reader, n: nat)
    requires Take(d, n).1.err.None?
    ensures d == Reader(Take(d, n).0 + Take(d, n).1.rest, None) && |Take(d, n).0| == n
  {
  }

  lemma IntWasRead(d: Reader)
    requires ReadInt(d).1.err.None?
    ensures d == Reader(EncodeInt(ReadInt(d).0) + ReadInt(d).1.rest, None)
  {
    TookPrefix(d, 8);
    IntBytes(Take(d, 8).0);
  }

  lemma PrefixOfWidth(p: seq<Byte>, k: nat, n: nat)
    requires |p| == k && n == FromBytes(p)
    ensures n < Pow256(k) && ToBytes(n, k) == p
  {
    NumberOfBytes(p);
  }

  lemma LengthPrefix(p: seq<Byte>, n: nat)
    requires |p| == 4 && n == FromBytes(p)
    ensures n < TWO32 && ToBytes(n % TWO32, 4) == p
  {
    PrefixOfWidth(p, |p|, n);
    Fits32(n, |p|);
  }

  lemma Fits32(n: nat, k: nat)
    requires k == 4 && n < Pow256(k)
    ensures n < TWO32 && n % TWO32 == n
  {
    Widths();
  }

  lemma TextWasRead(d: Reader, limit: int)
    requires ReadText(d, limit).1.err.None?
    ensures d == Reader(EncodeText(ReadText(d, limit).0) + ReadText(d, limit).1.rest, None)
    ensures 0 <= limit ==> |ReadText(d, limit).0| <= limit
  {
    var (p, d1) := Take(d, 4);
    TookPrefix(d, 4);
    var n := FromBytes(p);
    LengthPrefix(p, n);
    TookPrefix(d1, n);
    var (t, d2) := Take(d1, n);
    Assoc(p, t, d2.rest);
    assert EncodeText(t) == p + t;
  }

  lemma {:induction false} IntsWereRead(d: Reader, n: nat)
    requires ReadInts(d, n).1.err.None?
    ensures d == Reader(EncodeInts(ReadInts(d, n).0) + ReadInts(d, n).1.rest, None)
    decreases n
  {
    if n == 0 {
      assert EncodeInts([]) + d.rest == d.rest;
    } else {
      var (x, d1) := ReadInt(d);
      var (xs, d2) := ReadInts(d1, n - 1);
      IntsWereRead(d1, n - 1);
      IntWasRead(d);
      assert ([x] + xs)[1..] == xs;
      Assoc(EncodeInt(x), EncodeInts(xs), d2.rest);
    }
  }

  lemma {:induction false} TextsWereRead(d: Reader, limits: seq<nat>)
    requires (forall i :: 0 <= i < |limits| ==> limits[i] < TWO32) && ReadTexts(d, limits).1.err.None?
    ensures d == Reader(EncodeTexts(ReadTexts(d, limits).0) + ReadTexts(d, limits).1.rest, None)
    ensures Fits(ReadTexts(d, limits).0, limits)
    decreases |limits|
  {
    if limits == [] {
      assert EncodeTexts([]) + d.rest == d.rest;
    } else {
      var (x, d1) := ReadText(d, limits[0]);
      var (xs, d2) := ReadTexts(d1, limits[1..]);
      TextsWereRead(d1, limits[1..]);
      TextWasRead(d, limits[0]);
      assert ([x] + xs)[1..] == xs;
      Assoc(EncodeText(x), EncodeTexts(xs), d2.rest);
    }
  }

  // ------------------------------------------------------------------ files

  function Flag(present: bool): Int64 {
    if present then 1 else 0
  }

  function EncodeFile(f: File): seq<Byte> {
    EncodeText(f.path)
    + (EncodeInts([f.offset, f.length, Flag(f.evidence.present)])
       + (EncodeText(f.evidence.identity) + EncodeInts([f.evidence.size, f.evidence.modifiedNs])))
  }

  /** The records one after the other, for any way of writing one. */
  function WriteMany(write: File -> seq<Byte>, files: seq<File>): seq<Byte> {
    if files == [] then [] else write(files[0]) + WriteMany(write, files[1..])
  }

  function EncodeFiles(files: seq<File>): seq<Byte> {
    WriteMany(EncodeFile, files)
  }

  /** One file record, its raw presence number, and the reader after it. */
  function ReadFile(d: Reader, limit: int): (File, Int64, Reader) {
    var (path, d1) := ReadText(d, limit);
    var (nums, d2) := ReadInts(d1, 3);
    var (identity, d3) := ReadText(d2, MAX_IDENTITY_LENGTH);
    var (tail, d4) := ReadInts(d3, 2);
    (File(path, nums[0], nums[1], Evidence(nums[2] == 1, identity, tail[0], tail[1])), nums[2], d4)
  }

  function PathLimit(bytes: int): int {
    if MAX_PATH_LENGTH <= MAX_PATH_BYTES - bytes then MAX_PATH_LENGTH else MAX_PATH_BYTES - bytes
  }

  type FileReader = (Reader, int) -> (File, Int64, Reader)

  function Prepend(f: File, r: Result<(seq<File>, Reader)>): Result<(seq<File>, Reader)> {
    if r.Err? then r else Ok(([f] + r.value.0, r.value.1))
  }

  /** The loop over file records, for any way of reading one. */
  function ReadMany(read: FileReader, d: Reader, count: nat, bytes: int): Result<(seq<File>, Reader)>
    decreases count
  {
    if count == 0 then Ok(([], d))
    else
      var r := read(d, PathLimit(bytes));
      if r.2.err.Some? then Err(r.2.err.value)
      else if r.1 != 0 && r.1 != 1 then Err(Invalid)
      else Prepend(r.0, ReadMany(read, r.2, count - 1, bytes + |r.0.path|))
  }

  function ReadFiles(d: Reader, count: nat, bytes: int): Result<(seq<File>, Reader)> {
    ReadMany(ReadFile, d, count, bytes)
  }

  lemma ReadsFile(f: File, limit: nat, rest: seq<Byte>)
    requires |f.path| <= limit < TWO32 && |f.evidence.identity| <= MAX_IDENTITY_LENGTH
    ensures ReadFile(Reader(EncodeFile(f) + rest, None), limit) == (f, Flag(f.evidence.present), Reader(rest, None))
  {
    var nums := [f.offset, f.length, Flag(f.evidence.present)];
    var tail := [f.evidence.size, f.evidence.modifiedNs];
    var r3 := EncodeInts(tail) + rest;
    var r2 := EncodeText(f.evidence.identity) + r3;
    var r1 := EncodeInts(nums) + r2;
    Assoc(EncodeText(f.evidence.identity), EncodeInts(tail), rest);
    Assoc(EncodeInts(nums), EncodeText(f.evidence.identity) + EncodeInts(tail), rest);
    Assoc(EncodeText(f.path), EncodeInts(nums) + (EncodeText(f.evidence.identity) + EncodeInts(tail)), rest);
    ReadsText(f.path, limit, r1);
    ReadsInts(nums, r2);
    ReadsText(f.evidence.identity, MAX_IDENTITY_LENGTH, r3);
    ReadsInts(tail, rest);
  }

  lemma FileWasRead(d: Reader, limit: int)
    requires ReadFile(d, limit).2.err.None? && (ReadFile(d, limit).1 == 0 || ReadFile(d, limit).1 == 1)
    ensures d == Reader(EncodeFile(ReadFile(d, limit).0) + ReadFile(d, limit).2.rest, None)
  {
    var (path, d1) := ReadText(d, limit);
    var (nums, d2) := ReadInts(d1, 3);
    var (identity, d3) := ReadText(d2, MAX_IDENTITY_LENGTH);
    var (tail, d4) := ReadInts(d3, 2);
    IntsWereRead(d3, 2);
    TextWasRead(d2, MAX_IDENTITY_LENGTH);
    IntsWereRead(d1, 3);
    TextWasRead(d, limit);
    assert nums == [nums[0], nums[1], Flag(nums[2] == 1)] && tail == [tail[0], tail[1]];
    Assoc(EncodeText(identity), EncodeInts(tail), d4.rest);
    Assoc(EncodeInts(nums), EncodeText(identity) + EncodeInts(tail), d4.rest);
    Assoc(EncodeText(path), EncodeInts(nums) + (EncodeText(identity) + EncodeInts(tail)), d4.rest);
  }

  /** Every file record of the list fits the limit its position leaves it. */
  predicate FilesFit(files: seq<File>, bytes: nat) {
    && (forall i :: 0 <= i < |files| ==>
          |files[i].path| <= MAX_PATH_LENGTH && |files[i].evidence.identity| <= MAX_IDENTITY_LENGTH)
    && bytes + PathBytes(files) <= MAX_PATH_BYTES
  }

  lemma {:induction false} PathBytesFront(files: seq<File>)
    requires files != []
    ensures PathBytes(files) == |files[0].path| + PathBytes(files[1..])
    decreases |files|
  {
    if |files| > 1 {
      PathBytesFront(files[..|files| - 1]);
      assert files[..|files| - 1][1..] == files[1..][..|files| - 2];
    }
  }

  predicate FileFits(f: File, limit: int) {
    |f.path| <= limit < TWO32 && |f.evidence.identity| <= MAX_IDENTITY_LENGTH
  }

  /** A record reader that reads back what the writer writes. */
  ghost predicate Faithful(write: File -> seq<Byte>, read: FileReader) {
    forall f: File, limit: int, rest: seq<Byte> :: FileFits(f, limit) ==>
      read(Reader(write(f) + rest, None), limit) == (f, Flag(f.evidence.present), Reader(rest, None))
  }

  lemma {:induction false} ReadsMany(write: File -> seq<Byte>, read: FileReader, files: seq<File>, bytes: nat,
                                     rest: seq<Byte>)
    requires Faithful(write, read) && FilesFit(files, bytes)
    ensures ReadMany(read, Reader(WriteMany(write, files) + rest, None), |files|, bytes)
            == Ok((files, Reader(rest, None)))
    decreases |files|
  {
    if files == [] {
      assert WriteMany(write, files) + rest == rest;
    } else {
      PathBytesFront(files);
      Assoc(write(files[0]), WriteMany(write, files[1..]), rest);
      assert FileFits(files[0], PathLimit(bytes));
      ReadsMany(write, read, files[1..], bytes + |files[0].path|, rest);
      assert files == [files[0]] + files[1..];
    }
  }

  lemma ReadsFiles(files: seq<File>, bytes: nat, rest: seq<Byte>)
    requires FilesFit(files, bytes)
    ensures ReadFiles(Reader(EncodeFiles(files) + rest, None), |files|, bytes) == Ok((files, Reader(rest, None)))
  {
    forall f: File, limit: int, more: seq<Byte> | FileFits(f, limit)
      ensures ReadFile(Reader(EncodeFile(f) + more, None), limit) == (f, Flag(f.evidence.present), Reader(more, None))
    {
      ReadsFile(f, limit, more);
    }
    ReadsMany(EncodeFile, ReadFile, files, bytes, rest);
  }

  predicate Replays(write: File -> seq<Byte>, d: Reader, files: seq<File>, d': Reader) {
    d'.err.None? && d == Reader(WriteMany(write, files) + d'.rest, None)
  }

  /** A record reader whose every accepted record is written back as the bytes it consumed. */
  ghost predicate Exact(write: File -> seq<Byte>, read: FileReader) {
    forall d: Reader, limit: int ::
      read(d, limit).2.err.None? && (read(d, limit).1 == 0 || read(d, limit).1 == 1) ==>
        d == Reader(write(read(d, limit).0) + read(d, limit).2.rest, None)
  }

  lemma {:induction false} ManyWereRead(write: File -> seq<Byte>, read: FileReader, d: Reader, count: nat, bytes: int,
                                        files: seq<File>, d': Reader)
    requires Exact(write, read) && d.err.None? && ReadMany(read, d, count, bytes) == Ok((files, d'))
    ensures |files| == count && Replays(write, d, files, d')
    decreases count
  {
    if count == 0 {
      assert WriteMany(write, []) + d.rest == d.rest;
    } else {
      var r := read(d, PathLimit(bytes));
      var more := ReadMany(read, r.2, count - 1, bytes + |r.0.path|);
      ManyWereRead(write, read, r.2, count - 1, bytes + |r.0.path|, more.value.0, d');
      ReplaysMore(write, d, r.0, r.2, more.value.0, d');
    }
  }

  lemma ReplaysMore(write: File -> seq<Byte>, d: Reader, f: File, d1: Reader, fs: seq<File>, d2: Reader)
    requires d == Reader(write(f) + d1.rest, None) && Replays(write, d1, fs, d2)
    ensures Replays(write, d, [f] + fs, d2)
  {
    assert ([f] + fs)[1..] == fs;
    Assoc(write(f), WriteMany(write, fs), d2.rest);
  }

  lemma FilesWereRead(d: Reader, count: nat, bytes: int, files: seq<File>, d': Reader)
    requires d.err.None? && ReadFiles(d, count, bytes) == Ok((files, d'))
    ensures |files| == count && Replays(EncodeFile, d, files, d')
  {
    forall d: Reader, limit: int | ReadFile(d, limit).2.err.None?
        && (ReadFile(d, limit).1 == 0 || ReadFile(d, limit).1 == 1)
      ensures d == Reader(EncodeFile(ReadFile(d, limit).0) + ReadFile(d, limit).2.rest, None)
    {
      FileWasRead(d, limit);
    }
    ManyWereRead(EncodeFile, ReadFile, d, count, bytes, files, d');
  }

  // ------------------------------------------------------------------ the envelope

  /** TSHRSM01 */
  const MAGIC: seq<Byte> := [84, 83, 72, 82, 83, 77, 48, 49]

  const LIMITS: seq<nat> := [MAX_IDENTITY_LENGTH, MAX_IDENTITY_LENGTH, MAX_PATH_LENGTH, MAX_PATH_LENGTH,
                             DIGEST_LENGTH, DIGEST_LENGTH, MAX_IDENTITY_LENGTH]

  datatype Field = Generation | CreatedAt | Revision | Layout | PieceLength | PieceCount | ExtentLength | FileCount

  const TIMES: seq<Field> := [Generation, CreatedAt]

  const NUMBERS: seq<Field> := [Revision, Layout, PieceLength, PieceCount, ExtentLength, FileCount]

  function Texts(id: Identity): seq<Text> {
    [id.recordId, id.storageId, id.root, id.prefix, id.metainfoDigest, id.catalogDigest, id.volumeId]
  }

  function Numbers(id: Identity, files: Int64): seq<Int64> {
    [id.mappingRevision, id.layoutVersion, id.pieceLength, id.pieceCount, id.extentLength, files]
  }

  function Assemble(texts: seq<Text>, nums: seq<Int64>): Identity
    requires |texts| == 7 && |nums| == 6
  {
    Identity(texts[0], texts[1], nums[0], nums[1], texts[2], texts[3], texts[4], texts[5], texts[6], nums[2],
             nums[3], nums[4])
  }

  function Tail(c: Checkpoint): seq<Byte> {
    EncodeFiles(c.files) + c.pieces
  }

  function Head(c: Checkpoint): seq<Byte>
    requires |c.files| <= MAX_FILES
  {
    EncodeInts([c.generation, c.createdAtMs])
        + (EncodeTexts(Texts(c.identity)) + (EncodeInts(Numbers(c.identity, |c.files|)) + Tail(c)))
  }

  function Body(c: Checkpoint): seq<Byte>
    requires |c.files| <= MAX_FILES
  {
    MAGIC + (EncodeInt(c.schema) + Head(c))
  }

  function Encode(rules: Rules, c: Checkpoint): Result<seq<Byte>> {
    if Verdict(rules, c).Some? then Err(Verdict(rules, c).value)
    else
      VerdictIsSound(rules, c);
      if |Body(c)| > MAX_CHECKPOINT_BYTES then Err(Budget) else Ok(Body(c))
  }

  function DecodeTail(rules: Rules, times: seq<Int64>, id: Identity, files: nat, d: Reader): Result<Checkpoint>
    requires |times| == 2 && id.pieceCount >= 0
  {
    var r := ReadFiles(d, files, 0);
    if r.Err? then Err(r.error)
    else
      var b := Take(r.value.1, BitmapBytes(id.pieceCount));
      if b.1.err.Some? then Err(b.1.err.value)
      else if b.1.rest != [] then Err(Invalid)
      else
        var c := Checkpoint(SCHEMA_VERSION, id, times[0], times[1], r.value.0, b.0);
        if Verdict(rules, c).Some? then Err(Verdict(rules, c).value) else Ok(c)
  }

  function DecodeNumbers(rules: Rules, times: seq<Int64>, texts: seq<Text>, nums: seq<Int64>,
                         d: Reader): Result<Checkpoint>
    requires |times| == 2 && |texts| == 7 && |nums| == 6
  {
    if d.err.Some? then Err(d.err.value)
    else if nums[3] < 0 || nums[1] < 0 || nums[1] > 2 || nums[5] < 1 then Err(Invalid)
    else if nums[3] > MAX_PIECES || nums[5] > MAX_FILES then Err(Budget)
    else
      var id := Assemble(texts, nums);
      if IdentityVerdict(rules, id).Some? then Err(IdentityVerdict(rules, id).value)
      else DecodeTail(rules, times, id, nums[5], d)
  }

  /** Two times, seven texts and six numbers; the group sizes are parameters. */
  function DecodeGroups(rules: Rules, d: Reader, k: nat, limits: seq<nat>, m: nat): Result<Checkpoint>
    requires k == 2 && |limits| == 7 && m == 6
  {
    var t := ReadInts(d, k);
    var x := ReadTexts(t.1, limits);
    var n := ReadInts(x.1, m);
    DecodeNumbers(rules, t.0, x.0, n.0, n.1)
  }

  function DecodeHead(rules: Rules, d: Reader): Result<Checkpoint> {
    DecodeGroups(rules, d, |TIMES|, LIMITS, |NUMBERS|)
  }

  function Decode(rules: Rules, data: seq<Byte>): Result<Checkpoint> {
    if |data| > MAX_CHECKPOINT_BYTES then Err(Budget)
    else
      var m := Take(Reader(data, None), |MAGIC|);
      var v := ReadInt(m.1);
      if m.0 != MAGIC || v.0 != SCHEMA_VERSION then Err(Invalid)
      else DecodeHead(rules, v.1)
  }

  // ------------------------------------------------------------------ Decode after Encode

  lemma TailRoundTrip(rules: Rules, c: Checkpoint)
    requires Verdict(rules, c).None?
    ensures c.identity.pieceCount >= 0 && 0 < |c.files| <= MAX_FILES
    ensures DecodeTail(rules, [c.generation, c.createdAtMs], c.identity, |c.files|, Reader(Tail(c), None)) == Ok(c)
  {
    VerdictIsSound(rules, c);
    FilesFitCatalog(rules, c);
    ReadsFiles(c.files, 0, c.pieces);
    TakesPrefix(c.pieces, []);
    assert c.pieces + [] == c.pieces;
  }

  lemma FilesFitCatalog(rules: Rules, c: Checkpoint)
    requires Sound(rules, c)
    ensures FilesFit(c.files, 0)
  {
    assert c.files[..|c.files|] == c.files;
    forall i | 0 <= i < |c.files| ensures |c.files[i].path| <= MAX_PATH_LENGTH
        && |c.files[i].evidence.identity| <= MAX_IDENTITY_LENGTH {
      assert Acceptable(rules, c.identity.extentLength, c.files[i]);
    }
  }

  lemma NumbersRoundTrip(rules: Rules, c: Checkpoint, times: seq<Int64>, texts: seq<Text>, nums: seq<Int64>, d: Reader)
    requires |times| == 2 && |texts| == 7 && |nums| == 6 && d.err.None? && Assemble(texts, nums) == c.identity
             && nums[5] == |c.files|
    requires IdentityVerdict(rules, c.identity).None? && 0 < |c.files| <= MAX_FILES && c.identity.pieceCount >= 0
    requires DecodeTail(rules, times, c.identity, |c.files|, d) == Ok(c)
    ensures DecodeNumbers(rules, times, texts, nums, d) == Ok(c)
  {
  }

  lemma VerdictParts(rules: Rules, c: Checkpoint)
    requires Verdict(rules, c).None?
    ensures IdentityVerdict(rules, c.identity).None? && 0 < |c.files| <= MAX_FILES && c.identity.pieceCount >= 0
  {
  }

  lemma Reassemble(id: Identity, files: Int64)
    ensures Assemble(Texts(id), Numbers(id, files)) == id
  {
  }

  lemma ReadsGroups(rules: Rules, limits: seq<nat>, times: seq<Int64>, texts: seq<Text>, nums: seq<Int64>,
                    tail: seq<Byte>)
    requires |times| == 2 && |limits| == 7 && Fits(texts, limits) && |nums| == 6
    ensures DecodeGroups(rules, Reader(EncodeInts(times) + (EncodeTexts(texts) + (EncodeInts(nums) + tail)), None),
                         |times|, limits, |nums|)
         == DecodeNumbers(rules, times, texts, nums, Reader(tail, None))
  {
    ReadsInts(times, EncodeTexts(texts) + (EncodeInts(nums) + tail));
    ReadsTexts(texts, limits, EncodeInts(nums) + tail);
    ReadsInts(nums, tail);
  }

  lemma TextsFit(rules: Rules, id: Identity)
    requires IdentityVerdict(rules, id).None?
    ensures Fits(Texts(id), LIMITS)
  {
  }

  lemma HeadRoundTrip(rules: Rules, c: Checkpoint)
    requires Verdict(rules, c).None? && |c.files| <= MAX_FILES
    ensures DecodeHead(rules, Reader(Head(c), None)) == Ok(c)
  {
    VerdictParts(rules, c);
    TailRoundTrip(rules, c);
    TextsFit(rules, c.identity);
    Reassemble(c.identity, |c.files|);
    var times, texts, nums := [c.generation, c.createdAtMs], Texts(c.identity), Numbers(c.identity, |c.files|);
    NumbersRoundTrip(rules, c, times, texts, nums, Reader(Tail(c), None));
    ReadsGroups(rules, LIMITS, times, texts, nums, Tail(c));
  }

  /** For every checkpoint that encodes, decoding its bytes gives it back. */
  lemma DecodeEncode(rules: Rules, c: Checkpoint)
    requires Encode(rules, c).Ok?
    ensures Decode(rules, Encode(rules, c).value) == Ok(c)
  {
    VerdictIsSound(rules, c);
    HeadRoundTrip(rules, c);
    TakesPrefix(MAGIC, EncodeInt(c.schema) + Head(c));
    ReadsInt(c.schema, Head(c));
  }

  // ------------------------------------------------------------------ Encode after Decode

  lemma TailWasRead(rules: Rules, times: seq<Int64>, id: Identity, files: nat, d: Reader, c: Checkpoint)
    requires |times| == 2 && id.pieceCount >= 0 && d.err.None? && DecodeTail(rules, times, id, files, d) == Ok(c)
    ensures d.rest == Tail(c) && |c.files| == files && c.identity == id
    ensures c.schema == SCHEMA_VERSION && c.generation == times[0] && c.createdAtMs == times[1]
            && Verdict(rules, c).None?
  {
    var r := ReadFiles(d, files, 0).value;
    FilesWereRead(d, files, 0, r.0, r.1);
    TookPrefix(r.1, BitmapBytes(id.pieceCount));
    assert c.pieces + [] == c.pieces;
  }

  lemma Disassemble(texts: seq<Text>, nums: seq<Int64>)
    requires |texts| == 7 && |nums| == 6
    ensures Texts(Assemble(texts, nums)) == texts && Numbers(Assemble(texts, nums), nums[5]) == nums
  {
  }

  lemma NumbersWereRead(rules: Rules, times: seq<Int64>, texts: seq<Text>, nums: seq<Int64>, d: Reader, c: Checkpoint)
    requires |times| == 2 && |texts| == 7 && |nums| == 6 && DecodeNumbers(rules, times, texts, nums, d) == Ok(c)
    ensures d == Reader(Tail(c), None) && Verdict(rules, c).None? && |c.files| == nums[5] <= MAX_FILES
    ensures c.identity == Assemble(texts, nums) && c.generation == times[0] && c.createdAtMs == times[1]
            && c.schema == SCHEMA_VERSION
  {
    TailWasRead(rules, times, Assemble(texts, nums), nums[5], d, c);
  }

  /** Three groups of fields read one after the other, for any group sizes. */
  lemma GroupsWereRead(d: Reader, k: nat, limits: seq<nat>, m: nat, times: seq<Int64>, d1: Reader,
                       texts: seq<Text>, d2: Reader, nums: seq<Int64>, d3: Reader)
    requires ReadInts(d, k) == (times, d1) && ReadTexts(d1, limits) == (texts, d2) && ReadInts(d2, m) == (nums, d3)
    requires d3.err.None? && forall i :: 0 <= i < |limits| ==> limits[i] < TWO32
    ensures d == Reader(EncodeInts(times) + (EncodeTexts(texts) + (EncodeInts(nums) + d3.rest)), None)
  {
    IntsWereRead(d2, m);
    TextsWereRead(d1, limits);
    IntsWereRead(d, k);
  }

  lemma HeadOf(c: Checkpoint, times: seq<Int64>, texts: seq<Text>, nums: seq<Int64>)
    requires |times| == 2 && |texts| == 7 && |nums| == 6 && |c.files| == nums[5] <= MAX_FILES
    requires c.identity == Assemble(texts, nums) && c.generation == times[0] && c.createdAtMs == times[1]
    ensures Head(c) == EncodeInts(times) + (EncodeTexts(texts) + (EncodeInts(nums) + Tail(c)))
  {
    Disassemble(texts, nums);
    assert times == [c.generation, c.createdAtMs];
  }

  lemma GroupsDecode(rules: Rules, d: Reader, k: nat, limits: seq<nat>, m: nat, c: Checkpoint)
    requires k == 2 && Small(limits) && m == 6
    requires DecodeGroups(rules, d, k, limits, m) == Ok(c)
    ensures |c.files| <= MAX_FILES && d == Reader(Head(c), None) && Verdict(rules, c).None?
            && c.schema == SCHEMA_VERSION
  {
    var t := ReadInts(d, k);
    var x := ReadTexts(t.1, limits);
    var n := ReadInts(x.1, m);
    NumbersWereRead(rules, t.0, x.0, n.0, n.1, c);
    GroupsWereRead(d, k, limits, m, t.0, t.1, x.0, x.1, n.0, n.1);
    HeadOf(c, t.0, x.0, n.0);
  }

  predicate Small(limits: seq<nat>) {
    |limits| == 7 && forall i :: 0 <= i < |limits| ==> limits[i] < TWO32
  }

  lemma GroupSizes()
    ensures Small(LIMITS) && |TIMES| == 2 && |NUMBERS| == 6
  {
  }

  /** Every byte string that decodes is the encoding of what it decodes to. */
  lemma EncodeDecode(rules: Rules, data: seq<Byte>, c: Checkpoint)
    requires Decode(rules, data) == Ok(c)
    ensures Encode(rules, c) == Ok(data)
  {
    var d := Reader(data, None);
    var m := Take(d, |MAGIC|);
    GroupSizes();
    GroupsDecode(rules, ReadInt(m.1).1, |TIMES|, LIMITS, |NUMBERS|, c);
    IntWasRead(m.1);
    TookPrefix(d, |MAGIC|);
  }
}
