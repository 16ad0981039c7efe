/** The encoder and decoder objects: an appended buffer and a consumed slice with a sticky error. */
module CodecObjects {
  import opened Bitmap
  import opened Checkpoint
  import opened Codec
  import opened Wrappers

  class Encoder {
    var data: seq<Byte>

    constructor (start: seq<Byte>)
      ensures data == start
    {
      data := start;
    }

    method Integer(n: Int64)
      modifies this
      ensures data == old(data) + EncodeInt(n)
    {
      data := data + EncodeInt(n);
    }

    method Str(t: seq<Byte>)
      modifies this
      ensures data == old(data) + EncodeText(t)
    {
      data := data + ToBytes(|t| % TWO32, 4);
      data := data + t;
      Assoc(old(data), ToBytes(|t| % TWO32, 4), t);
    }

    method Integers(ns: seq<Int64>)
      modifies this
      ensures data == old(data) + EncodeInts(ns)
    {
      for k := 0 to |ns|
        invariant data + EncodeInts(ns[k..]) == old(data) + EncodeInts(ns)
      {
        assert ns[k..][1..] == ns[k + 1..];
        Assoc(data, EncodeInt(ns[k]), EncodeInts(ns[k + 1..]));
        Integer(ns[k]);
      }
      assert data + [] == data;
    }

    method Strs(ts: seq<seq<Byte>>)
      modifies this
      ensures data == old(data) + EncodeTexts(ts)
    {
      for k := 0 to |ts|
        invariant data + EncodeTexts(ts[k..]) == old(data) + EncodeTexts(ts)
      {
        assert ts[k..][1..] == ts[k + 1..];
        Assoc(data, EncodeText(ts[k]), EncodeTexts(ts[k + 1..]));
        Str(ts[k]);
      }
      assert data + [] == data;
    }

    method WriteFile(f: File)
      modifies this
      ensures data == old(data) + EncodeFile(f)
    {
      var nums := [f.offset, f.length, Flag(f.evidence.present)];
      var last := [f.evidence.size, f.evidence.modifiedNs];
      Str(f.path);
      Integers(nums);
      Str(f.evidence.identity);
      Integers(last);
      Regroup(old(data), EncodeText(f.path), EncodeInts(nums), EncodeText(f.evidence.identity), EncodeInts(last));
    }

    method WriteFiles(files: seq<File>)
      modifies this
      ensures data == old(data) + EncodeFiles(files)
    {
      for k := 0 to |files|
        invariant data + EncodeFiles(files[k..]) == old(data) + EncodeFiles(files)
      {
        FilesFront(files, k);
        Assoc(data, EncodeFile(files[k]), EncodeFiles(files[k + 1..]));
        WriteFile(files[k]);
      }
      assert data + [] == data;
    }
  }

  lemma FilesFront(files: seq<File>, k: nat)
    requires k < |files|
    ensures EncodeFiles(files[k..]) == EncodeFile(files[k]) + EncodeFiles(files[k + 1..])
  {
    assert files[k..][1..] == files[k + 1..];
  }

  lemma Regroup(a: seq<Byte>, b: seq<Byte>, c: seq<Byte>, d: seq<Byte>, e: seq<Byte>)
    ensures (((a + b) + c) + d) + e == a + (b + (c + (d + e)))
  {
    Assoc(a + b + c, d, e);
    Assoc(a + b, c, d + e);
    Assoc(a, b, c + (d + e));
  }

  method EncodeCheckpoint(rules: Rules, c: Checkpoint) returns (r: Result<seq<Byte>>)
    ensures r == Encode(rules, c)
  {
    if Verdict(rules, c).Some? { return Err(Verdict(rules, c).value); }
    VerdictIsSound(rules, c);
    var e := new Encoder(MAGIC);
    var texts, nums := Texts(c.identity), Numbers(c.identity, |c.files|);
    e.Integer(c.schema);
    e.Integers([c.generation, c.createdAtMs]);
    e.Strs(texts);
    e.Integers(nums);
    e.WriteFiles(c.files);
    e.data := e.data + c.pieces;
    Regroup(MAGIC + EncodeInt(c.schema), EncodeInts([c.generation, c.createdAtMs]), EncodeTexts(texts),
            EncodeInts(nums), EncodeFiles(c.files));
    Regroup(MAGIC, EncodeInt(c.schema), EncodeInts([c.generation, c.createdAtMs]), EncodeTexts(texts),
            EncodeInts(nums));
    EnvelopeParts(c, MAGIC + EncodeInt(c.schema), EncodeInts([c.generation, c.createdAtMs]), EncodeTexts(texts),
                  EncodeInts(nums), EncodeFiles(c.files));
    if |e.data| > MAX_CHECKPOINT_BYTES { return Err(Budget); }
    r := Ok(e.data);
  }

  lemma EnvelopeParts(c: Checkpoint, front: seq<Byte>, times: seq<Byte>, texts: seq<Byte>, nums: seq<Byte>,
                      files: seq<Byte>)
    requires |c.files| <= MAX_FILES && front == MAGIC + EncodeInt(c.schema)
    requires times == EncodeInts([c.generation, c.createdAtMs]) && texts == EncodeTexts(Texts(c.identity))
    requires nums == EncodeInts(Numbers(c.identity, |c.files|)) && files == EncodeFiles(c.files)
    ensures ((((front + times) + texts) + nums) + files) + c.pieces == Body(c)
  {
    Assoc(((front + times) + texts) + nums, files, c.pieces);
    Regroup(front, times, texts, nums, files + c.pieces);
    Assoc(MAGIC, EncodeInt(c.schema), times + (texts + (nums + (files + c.pieces))));
  }

  class Decoder {
    var data: seq<Byte>
    var err: Option<Error>

    ghost function View(): Reader
      reads this
    {
      Reader(data, err)
    }

    constructor (bytes: seq<Byte>)
      ensures View() == Reader(bytes, None)
    {
      data, err := bytes, None;
    }

    method Next(n: nat) returns (p: seq<Byte>)
      modifies this
      ensures (p, View()) == Take(old(View()), n)
    {
      if err.Some? { return []; }
      if n > |data| {
        err := Some(Truncated);
        return [];
      }
      p, data := data[..n], data[n..];
    }

    method Integer() returns (n: Int64)
      modifies this
      ensures (n, View()) == ReadInt(old(View()))
    {
      var p := Next(8);
      if |p| != 8 { return 0; }
      n := DecodeInt(p);
    }

    method Str(limit: int) returns (t: seq<Byte>)
      modifies this
      ensures (t, View()) == ReadText(old(View()), limit)
    {
      var p := Next(4);
      if |p| != 4 { return []; }
      var n := FromBytes(p);
      if 0 <= limit < n {
        err := Some(Budget);
        return [];
      }
      t := Next(n);
    }

    method Integers(n: nat) returns (ns: seq<Int64>)
      modifies this
      ensures (ns, View()) == ReadInts(old(View()), n)
    {
      ns := [];
      ghost var whole := ReadInts(View(), n);
      assert [] + whole.0 == whole.0;
      for k := 0 to n
        invariant ns + ReadInts(View(), n - k).0 == whole.0 && ReadInts(View(), n - k).1 == whole.1
      {
        ghost var later := ReadInts(View(), n - k);
        var x := Integer();
        assert later.0 == [x] + ReadInts(View(), n - k - 1).0;
        assert ns + later.0 == (ns + [x]) + ReadInts(View(), n - k - 1).0;
        ns := ns + [x];
      }
      assert ns + [] == ns;
    }

    method Strs(limits: seq<nat>) returns (ts: seq<seq<Byte>>)
      modifies this
      ensures (ts, View()) == ReadTexts(old(View()), limits)
    {
      ts := [];
      ghost var whole := ReadTexts(View(), limits);
      assert [] + whole.0 == whole.0 && limits[0..] == limits;
      for k := 0 to |limits|
        invariant ts + ReadTexts(View(), limits[k..]).0 == whole.0 && ReadTexts(View(), limits[k..]).1 == whole.1
      {
        ghost var later := ReadTexts(View(), limits[k..]);
        assert limits[k..][1..] == limits[k + 1..];
        var x := Str(limits[k]);
        assert later.0 == [x] + ReadTexts(View(), limits[k + 1..]).0;
        assert ts + later.0 == (ts + [x]) + ReadTexts(View(), limits[k + 1..]).0;
        ts := ts + [x];
      }
      assert ts + [] == ts;
    }

    /** The file records, read by the loop below from where this decoder stands. */
    method Files(count: nat) returns (r: Result<seq<File>>)
      modifies this
      ensures var whole := ReadFiles(old(View()), count, 0);
              if whole.Err? then r == Err(whole.error) else r == Ok(whole.value.0) && View() == whole.value.1
    {
      var whole := ReadRecords(ReadFile, Reader(data, err), count);
      if whole.Err? { return Err(whole.error); }
      data, err := whole.value.1.rest, whole.value.1.err;
      r := Ok(whole.value.0);
    }
  }

  /** The loop over the file records, which stops at the first error or bad presence number. */
  method ReadRecords(read: FileReader, start: Reader, count: nat) returns (r: Result<(seq<File>, Reader)>)
    ensures r == ReadMany(read, start, count, 0)
  {
    var files: seq<File> := [];
    var bytes, d := 0, start;
    ghost var whole := ReadMany(read, start, count, 0);
    assert After([], whole) == whole by { if whole.Ok? { assert [] + whole.value.0 == whole.value.0; } }
    for k := 0 to count
      invariant whole == After(files, ReadMany(read, d, count - k, bytes))
    {
      var next := read(d, PathLimit(bytes));
      if next.2.err.Some? { return Err(next.2.err.value); }
      if next.1 != 0 && next.1 != 1 { return Err(Invalid); }
      AfterMore(files, next.0, ReadMany(read, next.2, count - k - 1, bytes + |next.0.path|));
      files := files + [next.0];
      bytes, d := bytes + |next.0.path|, next.2;
    }
    assert files + [] == files;
    r := Ok((files, d));
  }

  function After(files: seq<File>, r: Result<(seq<File>, Reader)>): Result<(seq<File>, Reader)> {
    if r.Err? then r else Ok((files + r.value.0, r.value.1))
  }

  lemma AfterMore(files: seq<File>, f: File, r: Result<(seq<File>, Reader)>)
    ensures After(files, Prepend(f, r)) == After(files + [f], r)
  {
    if r.Ok? { assert files + ([f] + r.value.0) == (files + [f]) + r.value.0; }
  }

  method DecodeCheckpoint(rules: Rules, bytes: seq<Byte>) returns (r: Result<Checkpoint>)
    ensures r == Decode(rules, bytes)
  {
    if |bytes| > MAX_CHECKPOINT_BYTES { return Err(Budget); }
    var d := new Decoder(bytes);
    var magic := d.Next(|MAGIC|);
    var schema := d.Integer();
    if magic != MAGIC || schema != SCHEMA_VERSION { return Err(Invalid); }
    r := DecodeRest(rules, d);
  }

  method DecodeRest(rules: Rules, d: Decoder) returns (r: Result<Checkpoint>)
    modifies d
    ensures r == DecodeHead(rules, old(d.View()))
  {
    var times := d.Integers(|TIMES|);
    var texts := d.Strs(LIMITS);
    var nums := d.Integers(|NUMBERS|);
    if d.err.Some? { return Err(d.err.value); }
    if nums[3] < 0 || nums[1] < 0 || nums[1] > 2 || nums[5] < 1 { return Err(Invalid); }
    if nums[3] > MAX_PIECES || nums[5] > MAX_FILES { return Err(Budget); }
    var id := Assemble(texts, nums);
    if IdentityVerdict(rules, id).Some? { return Err(IdentityVerdict(rules, id).value); }
    r := DecodeFilesAndPieces(rules, times, id, nums[5], d);
  }

  method DecodeFilesAndPieces(rules: Rules, times: seq<Int64>, id: Identity, count: nat, d: Decoder)
      returns (r: Result<Checkpoint>)
    requires |times| == 2 && id.pieceCount >= 0
    modifies d
    ensures r == DecodeTail(rules, times, id, count, old(d.View()))
  {
    var files := d.Files(count);
    if files.Err? { return Err(files.error); }
    var bits := d.Next(BitmapBytes(id.pieceCount));
    if d.err.Some? { return Err(d.err.value); }
    if d.data != [] { return Err(Invalid); }
    var c := Checkpoint(SCHEMA_VERSION, id, times[0], times[1], files.value, bits);
    if Verdict(rules, c).Some? { return Err(Verdict(rules, c).value); }
    r := Ok(c);
  }
}
