/** The fast-resume checkpoint, its limits and its validation. */
module Checkpoint {
  import opened Bitmap
  import opened Wrappers

  const SCHEMA_VERSION := 1
  const MAX_FILES := 4096
  const MAX_CHECKPOINT_BYTES := 0x40_0000
  const MAX_PATH_BYTES := 0x10_0000
  const MAX_PATH_LENGTH := 4096
  const MAX_PATH_DEPTH := 128
  const MAX_IDENTITY_LENGTH := 256
  const DIGEST_LENGTH := 64

  type Int64 = x: int | -0x8000_0000_0000_0000 <= x < 0x8000_0000_0000_0000

  /** A Go string: bytes, not characters. */
  type Text = seq<Byte>

  datatype Error = Invalid | Budget | Truncated

  datatype Identity = Identity(recordId: Text, storageId: Text, mappingRevision: Int64, layoutVersion: Int64,
                               root: Text, prefix: Text, metainfoDigest: Text, catalogDigest: Text, volumeId: Text,
                               pieceLength: Int64, pieceCount: Int64, extentLength: Int64)

  datatype Evidence = Evidence(present: bool, identity: Text, size: Int64, modifiedNs: Int64)

  datatype File = File(path: Text, offset: Int64, length: Int64, evidence: Evidence)

  datatype Checkpoint = Checkpoint(schema: Int64, identity: Identity, generation: Int64, createdAtMs: Int64,
                                   files: seq<File>, pieces: seq<Byte>)

  /**
   * The path rules of the payload package: whether a layout of a supported version is acceptable,
   * whether a path is local and clean, the collision key of a path, and the parents of a key.
   */
  datatype Rules = Rules(layout: (int, Text, Text) -> bool, path: Text -> bool, key: Text -> Text,
                         parents: Text -> set<Text>)

  // ------------------------------------------------------------------ identity

  predicate HexDigit(b: Byte) {
    48 <= b <= 57 || 65 <= b <= 70 || 97 <= b <= 102
  }

  predicate ValidDigest(t: Text) {
    |t| == DIGEST_LENGTH && forall i :: 0 <= i < |t| ==> HexDigit(t[i])
  }

  predicate ValidName(t: Text) {
    0 < |t| <= MAX_IDENTITY_LENGTH
  }

  /** The number of pieces an extent takes, computed without overflow. */
  function PieceTotal(extent: nat, pieceLength: nat): nat
    requires pieceLength > 0
  {
    extent / pieceLength + if extent % pieceLength != 0 then 1 else 0
  }

  function IdentityVerdict(rules: Rules, id: Identity): Option<Error> {
    if id.pieceCount < 0 then Some(Invalid)
    else if id.pieceCount > MAX_PIECES then Some(Budget)
    else if !ValidName(id.recordId) || !ValidName(id.storageId) || !ValidName(id.volumeId) || id.mappingRevision <= 0
            || !ValidDigest(id.metainfoDigest) || !ValidDigest(id.catalogDigest) then Some(Invalid)
    else if |id.root| > MAX_PATH_LENGTH || |id.prefix| > MAX_PATH_LENGTH then Some(Budget)
    else if 0 in id.root || 0 in id.prefix then Some(Invalid)
    else if !(id.layoutVersion == 1 || id.layoutVersion == 2)
        || !rules.layout(id.layoutVersion, id.root, id.prefix) then Some(Invalid)
    else if id.pieceLength <= 0 || id.extentLength < 0 then Some(Invalid)
    else if PieceTotal(id.extentLength, id.pieceLength) != id.pieceCount then Some(Invalid)
    else None
  }

  // ------------------------------------------------------------------ files

  function Separators(t: Text): nat {
    if t == [] then 0 else (if t[0] == 47 then 1 else 0) + Separators(t[1..])
  }

  predicate WithinBudget(f: File) {
    |f.path| <= MAX_PATH_LENGTH && Separators(f.path) < MAX_PATH_DEPTH && |f.evidence.identity| <= MAX_IDENTITY_LENGTH
  }

  predicate Placed(rules: Rules, extent: int, f: File) {
    0 !in f.path && rules.path(f.path) && 0 <= f.length && f.offset <= extent && f.length <= extent - f.offset
  }

  predicate Plausible(e: Evidence) {
    e.size >= 0 && (e.present ==> e.identity != [])
  }

  /** The checks of one file, given the end of the previous one, the path bytes so far and the keys so far. */
  function FileVerdict(rules: Rules, extent: int, f: File, end: int, bytes: nat, keys: set<Text>): Option<Error> {
    if bytes > MAX_PATH_BYTES || !WithinBudget(f) then Some(Budget)
    else if f.offset < end || !Placed(rules, extent, f) then Some(Invalid)
    else if rules.key(f.path) in keys then Some(Invalid)
    else if !Plausible(f.evidence) then Some(Invalid)
    else None
  }

  function PathBytes(files: seq<File>): nat {
    if files == [] then 0 else PathBytes(files[..|files| - 1]) + |files[|files| - 1].path|
  }

  function Keys(rules: Rules, files: seq<File>): set<Text> {
    set f | f in files :: rules.key(f.path)
  }

  function End(files: seq<File>): int {
    if files == [] then 0 else files[|files| - 1].offset + files[|files| - 1].length
  }

  /** The first problem among files[n..], those before n being accepted. */
  function FilesVerdict(rules: Rules, extent: int, files: seq<File>, n: nat): Option<Error>
    requires n <= |files|
    decreases |files| - n
  {
    if n == |files| then
      if exists k, l :: k in Keys(rules, files) && l in Keys(rules, files) && l in rules.parents(k)
      then Some(Invalid) else None
    else
      var v := FileVerdict(rules, extent, files[n], End(files[..n]), PathBytes(files[..n]) + |files[n].path|,
                           Keys(rules, files[..n]));
      if v.Some? then v else FilesVerdict(rules, extent, files, n + 1)
  }

  function Verdict(rules: Rules, c: Checkpoint): Option<Error> {
    if c.schema != SCHEMA_VERSION || c.generation <= 0 || c.createdAtMs <= 0 then Some(Invalid)
    else if IdentityVerdict(rules, c.identity).Some? then IdentityVerdict(rules, c.identity)
    else if |c.files| > MAX_FILES then Some(Budget)
    else if c.files == [] || !ValidBitmap(c.pieces, c.identity.pieceCount) then Some(Invalid)
    else FilesVerdict(rules, c.identity.extentLength, c.files, 0)
  }

  /** The running values after one more file. */
  lemma OneMoreFile(rules: Rules, files: seq<File>, n: nat)
    requires n < |files|
    ensures Keys(rules, files[..n + 1]) == Keys(rules, files[..n]) + {rules.key(files[n].path)}
    ensures PathBytes(files[..n + 1]) == PathBytes(files[..n]) + |files[n].path|
    ensures End(files[..n + 1]) == files[n].offset + files[n].length
  {
    assert files[..n + 1] == files[..n] + [files[n]] && files[..n + 1][..n] == files[..n];
  }

  /** The loop of Validate: one pass with the running path total, end and set of keys. */
  method ValidateFiles(rules: Rules, extent: int, files: seq<File>) returns (e: Option<Error>)
    ensures e == FilesVerdict(rules, extent, files, 0)
  {
    var keys: set<Text> := {};
    var bytes, end := 0, 0;
    for n := 0 to |files|
      invariant keys == Keys(rules, files[..n]) && bytes == PathBytes(files[..n]) && end == End(files[..n])
      invariant FilesVerdict(rules, extent, files, 0) == FilesVerdict(rules, extent, files, n)
    {
      var f := files[n];
      OneMoreFile(rules, files, n);
      bytes := bytes + |f.path|;
      e := FileVerdict(rules, extent, f, end, bytes, keys);
      if e.Some? { return; }
      keys := keys + {rules.key(f.path)};
      end := f.offset + f.length;
    }
    assert files[..|files|] == files;
    if exists k, l :: k in keys && l in keys && l in rules.parents(k) { e := Some(Invalid); } else { e := None; }
  }

  // ------------------------------------------------------------------ what an accepted checkpoint is

  predicate Acceptable(rules: Rules, extent: int, f: File) {
    WithinBudget(f) && f.offset >= 0 && Placed(rules, extent, f) && Plausible(f.evidence)
  }

  predicate Apart(rules: Rules, f: File, g: File) {
    f.offset + f.length <= g.offset && rules.key(f.path) != rules.key(g.path)
  }

  /** Accepted files are in order, do not overlap, lie inside the extent, and have distinct keys. */
  predicate Catalog(rules: Rules, extent: int, files: seq<File>, n: nat)
    requires n <= |files|
  {
    && (forall i :: 0 <= i < n ==> Acceptable(rules, extent, files[i]))
    && (forall i, j :: 0 <= i < j < n ==> Apart(rules, files[i], files[j]))
    && PathBytes(files[..n]) <= MAX_PATH_BYTES
  }

  predicate NoParentIsAFile(rules: Rules, files: seq<File>) {
    forall k, l :: k in Keys(rules, files) && l in Keys(rules, files) ==> l !in rules.parents(k)
  }

  lemma {:induction false} AcceptedFiles(rules: Rules, extent: int, files: seq<File>, n: nat)
    requires n <= |files| && Catalog(rules, extent, files, n)
    ensures FilesVerdict(rules, extent, files, n).None? <==>
              Catalog(rules, extent, files, |files|) && NoParentIsAFile(rules, files)
    decreases |files| - n
  {
    if n < |files| {
      CatalogStep(rules, extent, files, n);
      if Catalog(rules, extent, files, n + 1) {
        AcceptedFiles(rules, extent, files, n + 1);
      } else if Catalog(rules, extent, files, |files|) {
        CatalogShrinks(rules, extent, files, n + 1);
      }
    }
  }

  lemma CatalogShrinks(rules: Rules, extent: int, files: seq<File>, n: nat)
    requires n <= |files| && Catalog(rules, extent, files, |files|)
    ensures Catalog(rules, extent, files, n)
  {
    assert files[..|files|] == files;
    PathBytesMonotone(files, n);
  }

  predicate Step(rules: Rules, extent: int, files: seq<File>, n: nat)
    requires n < |files|
  {
    FileVerdict(rules, extent, files[n], End(files[..n]), PathBytes(files[..n]) + |files[n].path|,
                Keys(rules, files[..n])).None?
  }

  lemma KeysOfPrefix(rules: Rules, files: seq<File>, n: nat, k: Text)
    requires n <= |files|
    ensures k in Keys(rules, files[..n]) <==> exists i :: 0 <= i < n && rules.key(files[i].path) == k
  {
    if k in Keys(rules, files[..n]) {
      var f :| f in files[..n] && rules.key(f.path) == k;
      var i :| 0 <= i < n && files[..n][i] == f;
      assert rules.key(files[i].path) == k;
    }
    if i :| 0 <= i < n && rules.key(files[i].path) == k { assert files[..n][i] in files[..n]; }
  }

  lemma EndIsLast(rules: Rules, extent: int, files: seq<File>, n: nat, i: nat)
    requires i < n <= |files| && Catalog(rules, extent, files, n)
    ensures files[i].offset + files[i].length <= End(files[..n])
  {
    if i < n - 1 { assert Apart(rules, files[i], files[n - 1]); assert Acceptable(rules, extent, files[n - 1]); }
  }

  lemma CatalogStep(rules: Rules, extent: int, files: seq<File>, n: nat)
    requires n < |files| && Catalog(rules, extent, files, n)
    ensures Catalog(rules, extent, files, n + 1) <==> Step(rules, extent, files, n)
  {
    assert files[..n + 1][..n] == files[..n] && files[..n + 1][n] == files[n];
    KeysOfPrefix(rules, files, n, rules.key(files[n].path));
    if Step(rules, extent, files, n) {
      assert n > 0 ==> Acceptable(rules, extent, files[n - 1]);
      assert Acceptable(rules, extent, files[n]);
      forall i | 0 <= i < n ensures Apart(rules, files[i], files[n]) { EndIsLast(rules, extent, files, n, i); }
    }
  }

  lemma {:induction false} PathBytesMonotone(files: seq<File>, n: nat)
    requires n <= |files|
    ensures PathBytes(files[..n]) <= PathBytes(files)
    decreases |files| - n
  {
    assert files[..|files|] == files;
    if n < |files| {
      assert files[..n + 1][..n] == files[..n];
      PathBytesMonotone(files, n + 1);
    }
  }

  /** Validation accepts exactly the checkpoints that meet every rule, whatever the order of its checks. */
  predicate Sound(rules: Rules, c: Checkpoint) {
    && c.schema == SCHEMA_VERSION && c.generation > 0 && c.createdAtMs > 0
    && IdentityVerdict(rules, c.identity).None?
    && 0 < |c.files| <= MAX_FILES && ValidBitmap(c.pieces, c.identity.pieceCount)
    && Catalog(rules, c.identity.extentLength, c.files, |c.files|) && NoParentIsAFile(rules, c.files)
  }

  lemma VerdictIsSound(rules: Rules, c: Checkpoint)
    ensures Verdict(rules, c).None? <==> Sound(rules, c)
  {
    AcceptedFiles(rules, c.identity.extentLength, c.files, 0);
  }
}
