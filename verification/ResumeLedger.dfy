/**
 * The durable fast-resume ledger of one storage owner: a head row carrying a mutation epoch and a
 * checkpoint row with its revoked pieces. Each operation is one SQL transaction. Whether the
 * durability and ownership fence admits it is an input; so is the digest, of which only its being
 * a function matters. Database triggers on mapping, record, deletion and journal changes are the
 * Barrier step.
 */
module ResumeLedger {
  import opened Bitmap
  import opened Checkpoint
  import opened Codec
  import opened Wrappers

  const MAX_INT64 := 0x7fff_ffff_ffff_ffff

  datatype Token = Token(storageId: Text, recordId: Text, revision: Int64, epoch: Int64, generation: Int64)

  datatype Mapping = Mapping(storageId: Text, revision: Int64, version: Int64, root: Text, prefix: Text)

  datatype Row = Row(blob: seq<Byte>, revoked: seq<Byte>, integrity: seq<Byte>)

  datatype Ledger = Ledger(token: Option<Token>, invalidated: bool, row: Option<Row>)

  datatype Failure = Conflict | Integrity | Refused | Bad(error: Error)

  datatype Outcome<T> = Done(value: T) | Failed(failure: Failure)

  datatype Snapshot = Snapshot(token: Token, invalidated: bool, checkpoint: Option<Checkpoint>, revoked: seq<Byte>)

  /** The fixed surroundings: the codec, the integrity digest, and the storage owner. */
  datatype Setting = Setting(encode: Checkpoint -> Result<seq<Byte>>, decode: seq<Byte> -> Result<Checkpoint>,
                             digest: (Token, seq<Byte>, seq<Byte>) -> seq<Byte>, owner: Text)

  /** What the ledger relies on: the codec is exact both ways, bounded, and carries valid bitmaps. */
  ghost predicate Lawful(x: Setting) {
    && (forall c :: x.encode(c).Ok? ==> x.decode(x.encode(c).value) == Ok(c) && Bounded(x.encode(c).value, c))
    && (forall b :: x.decode(b).Ok? ==> x.encode(x.decode(b).value) == Ok(b))
  }

  predicate Bounded(blob: seq<Byte>, c: Checkpoint) {
    |blob| <= MAX_CHECKPOINT_BYTES && ValidBitmap(c.pieces, c.identity.pieceCount)
  }

  /** The ledger over the real envelope. */
  function Over(rules: Rules, digest: (Token, seq<Byte>, seq<Byte>) -> seq<Byte>, owner: Text): Setting {
    Setting(c => Encode(rules, c), b => Decode(rules, b), digest, owner)
  }

  lemma CodecIsLawful(rules: Rules, digest: (Token, seq<Byte>, seq<Byte>) -> seq<Byte>, owner: Text)
    ensures Lawful(Over(rules, digest, owner))
  {
    forall c | Encode(rules, c).Ok?
      ensures Decode(rules, Encode(rules, c).value) == Ok(c) && Bounded(Encode(rules, c).value, c)
    {
      DecodeEncode(rules, c);
      VerdictIsSound(rules, c);
    }
    forall b | Decode(rules, b).Ok? ensures Encode(rules, Decode(rules, b).value) == Ok(b) {
      EncodeDecode(rules, b, Decode(rules, b).value);
    }
  }

  // ------------------------------------------------------------------ reading

  /** decodeResume. */
  function DecodeRow(x: Setting, t: Token, row: Row): Outcome<Checkpoint> {
    var r := x.decode(row.blob);
    if r.Err? then Failed(Bad(r.error))
    else
      var c := r.value;
      if c.identity.storageId != t.storageId || c.identity.recordId != t.recordId
         || c.identity.mappingRevision != t.revision || c.generation != t.generation then Failed(Integrity)
      else if !ValidBitmap(row.revoked, c.identity.pieceCount) then Failed(Bad(Invalid))
      else Done(c)
  }

  /** readResumePayload followed by decodeResume. */
  function ReadRow(x: Setting, l: Ledger, t: Token): Outcome<Checkpoint> {
    if l.row.None? then Failed(Integrity)
    else if |l.row.value.blob| > MAX_CHECKPOINT_BYTES || |l.row.value.revoked| > MAX_PIECES / 8 then Failed(Bad(Budget))
    else if l.row.value.integrity != x.digest(t, l.row.value.blob, l.row.value.revoked) then Failed(Integrity)
    else DecodeRow(x, t, l.row.value)
  }

  function Load(x: Setting, l: Ledger, m: Mapping, record: Text, admitted: bool): Outcome<Option<Snapshot>> {
    if !admitted then Failed(Refused)
    else if l.token.None? then Done(None)
    else
      var t := l.token.value;
      if t.recordId != record || t.revision != m.revision then Failed(Conflict)
      else if l.invalidated then Done(Some(Snapshot(t, true, None, [])))
      else
        var r := ReadRow(x, l, t);
        if r.Failed? then Failed(r.failure) else Done(Some(Snapshot(t, false, Some(r.value), l.row.value.revoked)))
  }

  // ------------------------------------------------------------------ writing

  /** Each write yields the new ledger and the caller's token. */
  type Written = (Ledger, Outcome<Token>)

  function DoCapture(x: Setting, l: Ledger, m: Mapping, record: Text, admitted: bool): Written {
    if !admitted || m.revision <= 0 then (l, Failed(Refused))
    else if l.token.None? then
      var t := Token(x.owner, record, m.revision, 1, 0);
      (Ledger(Some(t), true, l.row), Done(t))
    else if l.token.value.recordId != record || l.token.value.revision != m.revision then
      if l.token.value.epoch == MAX_INT64 then (l, Failed(Conflict))
      else
        var t := l.token.value.(recordId := record, revision := m.revision, epoch := l.token.value.epoch + 1);
        (l.(token := Some(t), invalidated := true), Done(t))
    else (l, Done(l.token.value))
  }

  predicate Exactly(l: Ledger, m: Mapping, t: Token) {
    t.storageId == m.storageId && t.revision == m.revision && l.token == Some(t) && 0 < t.epoch < MAX_INT64
  }

  predicate Describes(c: Checkpoint, m: Mapping, t: Token) {
    && t.generation < MAX_INT64 && c.generation == t.generation + 1
    && c.identity.recordId == t.recordId && c.identity.storageId == t.storageId
    && c.identity.mappingRevision == t.revision
    && c.identity.layoutVersion == m.version && c.identity.root == m.root && c.identity.prefix == m.prefix
  }

  function Zero(n: nat): seq<Byte> {
    seq(n, _ => 0)
  }

  function DoCommit(x: Setting, l: Ledger, m: Mapping, t: Token, c: Checkpoint, admitted: bool): Written {
    if !Describes(c, m, t) then (l, Failed(Conflict))
    else if x.encode(c).Err? then (l, Failed(Bad(x.encode(c).error)))
    else if !admitted then (l, Failed(Refused))
    else if !Exactly(l, m, t) then (l, Failed(Conflict))
    else
      var blob, revoked := x.encode(c).value, Zero(|c.pieces|);
      var next := t.(generation := t.generation + 1, epoch := t.epoch + 1);
      (Ledger(Some(next), false, Some(Row(blob, revoked, x.digest(next, blob, revoked)))), Done(next))
  }

  /** The revoked bits after a mask: a piece is added only if the checkpoint claims it. */
  function Revoked(pieces: seq<Byte>, revoked: seq<Byte>, mask: seq<Byte>): (r: seq<Byte>)
    requires |pieces| == |revoked| == |mask|
    ensures |r| == |revoked|
  {
    seq(|revoked|, i requires 0 <= i < |revoked| => Or(revoked[i], And(mask[i], pieces[i])))
  }

  /** Whether the mask hits a claimed piece that is not revoked yet. */
  predicate Changes(pieces: seq<Byte>, revoked: seq<Byte>, mask: seq<Byte>)
    requires |pieces| == |revoked| == |mask|
  {
    exists i :: 0 <= i < |revoked| && AndNot(And(mask[i], pieces[i]), revoked[i]) != 0
  }

  function DoRevoke(x: Setting, l: Ledger, m: Mapping, t: Token, mask: seq<Byte>, admitted: bool): Written {
    if !admitted then (l, Failed(Refused))
    else if !Exactly(l, m, t) then (l, Failed(Conflict))
    else if l.invalidated then (l, Done(t))
    else
      var r := ReadRow(x, l, t);
      if r.Failed? then (l, Failed(r.failure))
      // A decoded bitmap has the mask's length.
      else if !ValidBitmap(mask, r.value.identity.pieceCount) || |r.value.pieces| != |mask| then
        (l, Failed(Bad(Invalid)))
      else
        var row := l.row.value;
        if !Changes(r.value.pieces, row.revoked, mask) then (l, Done(t))
        else
          var revoked := Revoked(r.value.pieces, row.revoked, mask);
          var next := t.(epoch := t.epoch + 1);
          (l.(token := Some(next), row := Some(Row(row.blob, revoked, x.digest(next, row.blob, revoked)))), Done(next))
  }

  function DoInvalidate(l: Ledger, m: Mapping, t: Token, admitted: bool): Written {
    if !admitted then (l, Failed(Refused))
    else if !Exactly(l, m, t) then (l, Failed(Conflict))
    else
      var next := t.(epoch := t.epoch + 1);
      (l.(token := Some(next), invalidated := true), Done(next))
  }

  /** InvalidateResumeMutation and the database triggers: no token is needed, only room in the epoch. */
  function DoBarrier(l: Ledger, admitted: bool): Ledger {
    if !admitted || l.token.None? || l.token.value.epoch == MAX_INT64 then l
    else l.(token := Some(l.token.value.(epoch := l.token.value.epoch + 1)), invalidated := true)
  }

  datatype Step =
    | Capture(m: Mapping, record: Text, admitted: bool)
    | Commit(m: Mapping, t: Token, c: Checkpoint, admitted: bool)
    | Revoke(m: Mapping, t: Token, mask: seq<Byte>, admitted: bool)
    | Invalidate(m: Mapping, t: Token, admitted: bool)
    | Barrier(admitted: bool)

  function Do(x: Setting, l: Ledger, a: Step): Ledger {
    match a
    case Capture(m, record, admitted) => DoCapture(x, l, m, record, admitted).0
    case Commit(m, t, c, admitted) => DoCommit(x, l, m, t, c, admitted).0
    case Revoke(m, t, mask, admitted) => DoRevoke(x, l, m, t, mask, admitted).0
    case Invalidate(m, t, admitted) => DoInvalidate(l, m, t, admitted).0
    case Barrier(admitted) => DoBarrier(l, admitted)
  }

  function Run(x: Setting, l: Ledger, steps: seq<Step>): Ledger
    decreases |steps|
  {
    if steps == [] then l else Run(x, Do(x, l, steps[0]), steps[1..])
  }

  function Blank(): Ledger {
    Ledger(None, true, None)
  }

  // ------------------------------------------------------------------ bits

  lemma RevokedBits(pieces: seq<Byte>, revoked: seq<Byte>, mask: seq<Byte>, p: nat)
    requires |pieces| == |revoked| == |mask| && p < 8 * |revoked|
    ensures Has(Revoked(pieces, revoked, mask), p) <==> Has(revoked, p) || (Has(mask, p) && Has(pieces, p))
  {
    assert Revoked(pieces, revoked, mask)[p / 8] == Or(revoked[p / 8], And(mask[p / 8], pieces[p / 8]));
  }

  lemma NewByte(pieces: seq<Byte>, revoked: seq<Byte>, mask: seq<Byte>, i: nat) returns (p: nat)
    requires |pieces| == |revoked| == |mask| && i < |revoked| && AndNot(And(mask[i], pieces[i]), revoked[i]) != 0
    ensures p < 8 * |revoked| && Has(pieces, p) && Has(mask, p) && !Has(revoked, p)
  {
    var k := SomeBit(AndNot(And(mask[i], pieces[i]), revoked[i]));
    p := 8 * i + k;
    assert p / 8 == i && p % 8 == k;
  }

  lemma NewPiece(pieces: seq<Byte>, revoked: seq<Byte>, mask: seq<Byte>, p: nat)
    requires |pieces| == |revoked| == |mask| && p < 8 * |revoked| && Has(pieces, p) && Has(mask, p) && !Has(revoked, p)
    ensures Changes(pieces, revoked, mask)
  {
    NoBitsMeansZero(AndNot(And(mask[p / 8], pieces[p / 8]), revoked[p / 8]));
  }

  /** The change flag is set exactly when some claimed piece becomes newly revoked. */
  lemma ChangesMeansNewlyRevoked(pieces: seq<Byte>, revoked: seq<Byte>, mask: seq<Byte>)
    requires |pieces| == |revoked| == |mask|
    ensures Changes(pieces, revoked, mask) <==>
            exists p: nat :: p < 8 * |revoked| && Has(pieces, p) && Has(mask, p) && !Has(revoked, p)
  {
    if i :| 0 <= i < |revoked| && AndNot(And(mask[i], pieces[i]), revoked[i]) != 0 {
      var p := NewByte(pieces, revoked, mask, i);
    }
    if p: nat :| p < 8 * |revoked| && Has(pieces, p) && Has(mask, p) && !Has(revoked, p) {
      NewPiece(pieces, revoked, mask, p);
    }
  }

  /** The loop of RevokeResume over the bytes of the bitmaps. */
  method RevokeBits(pieces: seq<Byte>, revoked: seq<Byte>, mask: seq<Byte>) returns (next: seq<Byte>, changed: bool)
    requires |pieces| == |revoked| == |mask|
    ensures next == Revoked(pieces, revoked, mask) && changed == Changes(pieces, revoked, mask)
  {
    next, changed := [], false;
    for i := 0 to |revoked|
      invariant |next| == i && next == Revoked(pieces, revoked, mask)[..i]
      invariant changed == exists k :: 0 <= k < i && AndNot(And(mask[k], pieces[k]), revoked[k]) != 0
    {
      var bits := And(mask[i], pieces[i]);
      changed := changed || AndNot(bits, revoked[i]) != 0;
      next := next + [Or(revoked[i], bits)];
    }
    assert Revoked(pieces, revoked, mask)[..|revoked|] == Revoked(pieces, revoked, mask);
  }

  predicate Within(revoked: seq<Byte>, pieces: seq<Byte>) {
    |revoked| == |pieces| && forall p: nat :: p < 8 * |pieces| ==> (Has(revoked, p) ==> Has(pieces, p))
  }

  lemma RevokedStaysWithin(pieces: seq<Byte>, revoked: seq<Byte>, mask: seq<Byte>, count: nat)
    requires |mask| == |revoked| && Within(revoked, pieces) && ValidBitmap(pieces, count)
    ensures Within(Revoked(pieces, revoked, mask), pieces) && ValidBitmap(Revoked(pieces, revoked, mask), count)
  {
    var r := Revoked(pieces, revoked, mask);
    forall p: nat | p < 8 * |pieces| ensures Has(r, p) ==> Has(pieces, p) { RevokedBits(pieces, revoked, mask, p); }
    ValidMeansNoStrayBits(pieces, count);
    ValidMeansNoStrayBits(r, count);
  }

  lemma ZeroIsWithin(pieces: seq<Byte>, count: nat)
    requires ValidBitmap(pieces, count)
    ensures Within(Zero(|pieces|), pieces) && ValidBitmap(Zero(|pieces|), count)
    ensures forall p: nat :: p < 8 * |pieces| ==> !Has(Zero(|pieces|), p)
  {
    forall p: nat | p < 8 * |pieces| ensures !Has(Zero(|pieces|), p) { ZeroHasNoBits(p % 8); }
    ValidMeansNoStrayBits(Zero(|pieces|), count);
  }

  // ------------------------------------------------------------------ the invariant

  /** The checkpoint row proves checkpoint c for this token, with well-formed revocations of its pieces. */
  predicate Backs(x: Setting, row: Row, t: Token, c: Checkpoint) {
    && x.encode(c) == Ok(row.blob)
    && row.integrity == x.digest(t, row.blob, row.revoked)
    && c.identity.storageId == t.storageId && c.identity.recordId == t.recordId
    && c.identity.mappingRevision == t.revision && c.generation == t.generation
    && ValidBitmap(c.pieces, c.identity.pieceCount) && ValidBitmap(row.revoked, c.identity.pieceCount)
    && Within(row.revoked, c.pieces)
  }

  predicate Consistent(x: Setting, l: Ledger) {
    && (l.token.None? ==> l.invalidated)
    && (l.token.Some? ==>
          l.token.value.storageId == x.owner && l.token.value.epoch > 0 && l.token.value.generation >= 0)
    && (!l.invalidated ==> l.row.Some? && x.decode(l.row.value.blob).Ok?
                           && Backs(x, l.row.value, l.token.value, x.decode(l.row.value.blob).value))
  }

  /** Backing a checkpoint is what makes reading the row succeed. */
  lemma BackedReads(x: Setting, l: Ledger, t: Token, c: Checkpoint)
    requires Lawful(x) && l.row.Some? && Backs(x, l.row.value, t, c)
    ensures x.decode(l.row.value.blob) == Ok(c) && ReadRow(x, l, t) == Done(c)
  {
  }

  lemma CommitSound(x: Setting, l: Ledger, m: Mapping, t: Token, c: Checkpoint, admitted: bool)
    requires Lawful(x) && Consistent(x, l)
    ensures Consistent(x, DoCommit(x, l, m, t, c, admitted).0)
  {
    var w := DoCommit(x, l, m, t, c, admitted);
    if w.1.Done? {
      ZeroIsWithin(c.pieces, c.identity.pieceCount);
      assert Backs(x, w.0.row.value, w.1.value, c);
      BackedReads(x, w.0, w.1.value, c);
    }
  }

  lemma RevokeSound(x: Setting, l: Ledger, m: Mapping, t: Token, mask: seq<Byte>, admitted: bool)
    requires Lawful(x) && Consistent(x, l)
    ensures Consistent(x, DoRevoke(x, l, m, t, mask, admitted).0)
  {
    var l' := DoRevoke(x, l, m, t, mask, admitted).0;
    if l' != l {
      var c := x.decode(l.row.value.blob).value;
      BackedReads(x, l, t, c);
      RevokedStaysWithin(c.pieces, l.row.value.revoked, mask, c.identity.pieceCount);
      assert Backs(x, l'.row.value, l'.token.value, c);
    }
  }

  lemma StepSound(x: Setting, l: Ledger, a: Step)
    requires Lawful(x) && Consistent(x, l)
    ensures Consistent(x, Do(x, l, a))
  {
    match a
    case Commit(m, t, c, admitted) => CommitSound(x, l, m, t, c, admitted);
    case Revoke(m, t, mask, admitted) => RevokeSound(x, l, m, t, mask, admitted);
    case _ =>
  }

  lemma {:induction false} RunSound(x: Setting, l: Ledger, steps: seq<Step>)
    requires Lawful(x) && Consistent(x, l)
    ensures Consistent(x, Run(x, l, steps))
    decreases |steps|
  {
    if steps != [] {
      StepSound(x, l, steps[0]);
      RunSound(x, Do(x, l, steps[0]), steps[1..]);
    }
  }

  // ------------------------------------------------------------------ what every run guarantees

  /** After any run, an admitted load fails only because the caller's record or mapping is not the head's. */
  lemma LoadNeverReportsDamage(x: Setting, steps: seq<Step>, m: Mapping, record: Text)
    requires Lawful(x)
    ensures var l := Run(x, Blank(), steps);
            var r := Load(x, l, m, record, true);
            && (r.Failed? <==>
                  l.token.Some? && (l.token.value.recordId != record || l.token.value.revision != m.revision))
            && (r.Failed? ==> r.failure.Conflict?)
  {
    RunSound(x, Blank(), steps);
    var l := Run(x, Blank(), steps);
    if !l.invalidated { BackedReads(x, l, l.token.value, x.decode(l.row.value.blob).value); }
  }

  /** A piece the ledger lets a restart trust: claimed by the current checkpoint and not revoked. */
  predicate Trusted(x: Setting, l: Ledger, p: nat) {
    && !l.invalidated && l.token.Some? && l.row.Some? && x.decode(l.row.value.blob).Ok?
    && var c := x.decode(l.row.value.blob).value;
    && p < 8 * |c.pieces| && |c.pieces| == |l.row.value.revoked| && Has(c.pieces, p) && !Has(l.row.value.revoked, p)
  }

  /** Only a successful commit can make a piece trusted. */
  lemma TrustOnlyShrinks(x: Setting, l: Ledger, a: Step, p: nat)
    requires Lawful(x) && Consistent(x, l)
    requires Trusted(x, Do(x, l, a), p) && !(a.Commit? && DoCommit(x, l, a.m, a.t, a.c, a.admitted).1.Done?)
    ensures Trusted(x, l, p)
  {
    if a.Revoke? && Do(x, l, a) != l {
      var c := x.decode(l.row.value.blob).value;
      BackedReads(x, l, a.t, c);
      RevokedBits(c.pieces, l.row.value.revoked, a.mask, p);
    }
  }

  predicate NoCommit(x: Setting, l: Ledger, steps: seq<Step>)
    decreases |steps|
  {
    steps == [] || (!(steps[0].Commit? && DoCommit(x, l, steps[0].m, steps[0].t, steps[0].c, steps[0].admitted).1.Done?)
                    && NoCommit(x, Do(x, l, steps[0]), steps[1..]))
  }

  /** Between two successful commits the trusted set only shrinks, whatever runs in between. */
  lemma {:induction false} TrustShrinksBetweenCommits(x: Setting, l: Ledger, steps: seq<Step>, p: nat)
    requires Lawful(x) && Consistent(x, l) && NoCommit(x, l, steps) && Trusted(x, Run(x, l, steps), p)
    ensures Trusted(x, l, p)
    decreases |steps|
  {
    if steps != [] {
      StepSound(x, l, steps[0]);
      TrustShrinksBetweenCommits(x, Do(x, l, steps[0]), steps[1..], p);
      TrustOnlyShrinks(x, l, steps[0], p);
    }
  }

  /** A successful commit trusts exactly the pieces of the committed checkpoint. */
  lemma CommitTrustsItsPieces(x: Setting, l: Ledger, m: Mapping, t: Token, c: Checkpoint, admitted: bool, p: nat)
    requires Lawful(x) && DoCommit(x, l, m, t, c, admitted).1.Done?
    ensures Trusted(x, DoCommit(x, l, m, t, c, admitted).0, p) <==> p < 8 * |c.pieces| && Has(c.pieces, p)
  {
    ZeroIsWithin(c.pieces, c.identity.pieceCount);
  }

  /** A successful revocation leaves no trusted piece of its mask. */
  lemma RevokeIsEffective(x: Setting, l: Ledger, m: Mapping, t: Token, mask: seq<Byte>, admitted: bool, p: nat)
    requires Lawful(x) && Consistent(x, l) && DoRevoke(x, l, m, t, mask, admitted).1.Done?
    requires p < 8 * |mask| && Has(mask, p)
    ensures !Trusted(x, DoRevoke(x, l, m, t, mask, admitted).0, p)
  {
    if !l.invalidated {
      var c := x.decode(l.row.value.blob).value;
      BackedReads(x, l, t, c);
      ChangesMeansNewlyRevoked(c.pieces, l.row.value.revoked, mask);
      if p < 8 * |c.pieces| { RevokedBits(c.pieces, l.row.value.revoked, mask, p); }
    }
  }

  // ------------------------------------------------------------------ stale tokens

  function Epoch(l: Ledger): int {
    if l.token.Some? then l.token.value.epoch else 0
  }

  /** The step revoked a bit, invalidated, rebound the head or committed. */
  predicate Disturbs(x: Setting, l: Ledger, a: Step) {
    Do(x, l, a) != l
  }

  /** Every effective step raises the epoch, and nothing lowers it. */
  lemma EffectRaisesEpoch(x: Setting, l: Ledger, a: Step)
    requires Lawful(x) && Consistent(x, l)
    ensures if Disturbs(x, l, a) then Epoch(Do(x, l, a)) > Epoch(l) else Epoch(Do(x, l, a)) == Epoch(l)
  {
  }

  predicate DisturbedDuring(x: Setting, l: Ledger, steps: seq<Step>)
    decreases |steps|
  {
    steps != [] && (Disturbs(x, l, steps[0]) || DisturbedDuring(x, Do(x, l, steps[0]), steps[1..]))
  }

  lemma {:induction false} EpochRises(x: Setting, l: Ledger, steps: seq<Step>)
    requires Lawful(x) && Consistent(x, l)
    ensures Epoch(Run(x, l, steps)) >= Epoch(l)
    ensures DisturbedDuring(x, l, steps) ==> Epoch(Run(x, l, steps)) > Epoch(l)
    ensures !DisturbedDuring(x, l, steps) ==> Run(x, l, steps) == l
    decreases |steps|
  {
    if steps != [] {
      EffectRaisesEpoch(x, l, steps[0]);
      StepSound(x, l, steps[0]);
      EpochRises(x, Do(x, l, steps[0]), steps[1..]);
    }
  }

  /**
   * A commit with a token captured at l succeeds after a run only if nothing in the run revoked a
   * bit, invalidated or rebound the owner or committed: then the ledger is still exactly l.
   */
  lemma StaleCommitFails(x: Setting, l: Ledger, steps: seq<Step>, m: Mapping, t: Token, c: Checkpoint, admitted: bool)
    requires Lawful(x) && Consistent(x, l) && l.token == Some(t)
    ensures DisturbedDuring(x, l, steps) ==>
              DoCommit(x, Run(x, l, steps), m, t, c, admitted).1.Failed?
              && DoCommit(x, Run(x, l, steps), m, t, c, admitted).0 == Run(x, l, steps)
    ensures !DisturbedDuring(x, l, steps) ==>
              DoCommit(x, Run(x, l, steps), m, t, c, admitted) == DoCommit(x, l, m, t, c, admitted)
  {
    EpochRises(x, l, steps);
  }

  /**
   * Which steps are effective: a revocation exactly when it hits a trusted piece, the barriers always while
   * there is room.
   */
  lemma WhatDisturbs(x: Setting, l: Ledger, a: Step)
    requires Lawful(x) && Consistent(x, l) && l.token.Some?
    ensures a.Barrier? && a.admitted && l.token.value.epoch < MAX_INT64 ==> Disturbs(x, l, a)
    ensures a.Invalidate? && DoInvalidate(l, a.m, a.t, a.admitted).1.Done? ==> Disturbs(x, l, a)
    ensures a.Capture? && DoCapture(x, l, a.m, a.record, a.admitted).1.Done? ==>
              (Disturbs(x, l, a) <==> l.token.value.recordId != a.record || l.token.value.revision != a.m.revision)
    ensures a.Revoke? && DoRevoke(x, l, a.m, a.t, a.mask, a.admitted).1.Done? ==>
              (Disturbs(x, l, a) <==> exists p: nat :: p < 8 * |a.mask| && Has(a.mask, p) && Trusted(x, l, p))
  {
    if a.Revoke? && DoRevoke(x, l, a.m, a.t, a.mask, a.admitted).1.Done? && !l.invalidated {
      var c := x.decode(l.row.value.blob).value;
      BackedReads(x, l, a.t, c);
      ChangesMeansNewlyRevoked(c.pieces, l.row.value.revoked, a.mask);
      if p: nat :| p < 8 * |l.row.value.revoked| && Has(c.pieces, p) && Has(a.mask, p) && !Has(l.row.value.revoked, p) {
        assert Has(a.mask, p) && Trusted(x, l, p);
      }
    }
  }

  // ------------------------------------------------------------------ the store

  /** The two rows of one owner, updated in place by the repository's transactions. */
  class ResumeStore {
    const x: Setting
    var token: Option<Token>
    var invalidated: bool
    var row: Option<Row>

    ghost function View(): Ledger
      reads this
    {
      Ledger(token, invalidated, row)
    }

    constructor (x: Setting)
      ensures this.x == x && View() == Blank()
    {
      this.x, token, invalidated, row := x, None, true, None;
    }

    method CaptureResume(m: Mapping, record: Text, admitted: bool) returns (r: Outcome<Token>)
      modifies this
      ensures (View(), r) == DoCapture(x, old(View()), m, record, admitted)
    {
      if !admitted || m.revision <= 0 { return Failed(Refused); }
      if token.None? {
        token, invalidated := Some(Token(x.owner, record, m.revision, 1, 0)), true;
      } else if token.value.recordId != record || token.value.revision != m.revision {
        if token.value.epoch == MAX_INT64 { return Failed(Conflict); }
        token := Some(token.value.(recordId := record, revision := m.revision, epoch := token.value.epoch + 1));
        invalidated := true;
      }
      r := Done(token.value);
    }

    method CommitResume(m: Mapping, t: Token, c: Checkpoint, admitted: bool) returns (r: Outcome<Token>)
      modifies this
      ensures (View(), r) == DoCommit(x, old(View()), m, t, c, admitted)
    {
      if !Describes(c, m, t) { return Failed(Conflict); }
      var blob := x.encode(c);
      if blob.Err? { return Failed(Bad(blob.error)); }
      if !admitted { return Failed(Refused); }
      if t.storageId != m.storageId || t.revision != m.revision { return Failed(Conflict); }
      if token != Some(t) || t.epoch <= 0 || t.epoch == MAX_INT64 { return Failed(Conflict); }
      var next := t.(generation := t.generation + 1, epoch := t.epoch + 1);
      var revoked := Zero(|c.pieces|);
      row := Some(Row(blob.value, revoked, x.digest(next, blob.value, revoked)));
      token, invalidated := Some(next), false;
      r := Done(next);
    }

    method RevokeResume(m: Mapping, t: Token, mask: seq<Byte>, admitted: bool) returns (r: Outcome<Token>)
      modifies this
      ensures (View(), r) == DoRevoke(x, old(View()), m, t, mask, admitted)
    {
      if !admitted { return Failed(Refused); }
      if t.storageId != m.storageId || t.revision != m.revision { return Failed(Conflict); }
      if token != Some(t) || t.epoch <= 0 || t.epoch == MAX_INT64 { return Failed(Conflict); }
      if invalidated { return Done(t); }
      var c := ReadRow(x, Ledger(token, invalidated, row), t);
      if c.Failed? { return Failed(c.failure); }
      if !ValidBitmap(mask, c.value.identity.pieceCount) || |c.value.pieces| != |mask| { return Failed(Bad(Invalid)); }
      var revoked, changed := RevokeBits(c.value.pieces, row.value.revoked, mask);
      if !changed { return Done(t); }
      var next := t.(epoch := t.epoch + 1);
      row := Some(Row(row.value.blob, revoked, x.digest(next, row.value.blob, revoked)));
      token := Some(next);
      r := Done(next);
    }

    method InvalidateResume(m: Mapping, t: Token, admitted: bool) returns (r: Outcome<Token>)
      modifies this
      ensures (View(), r) == DoInvalidate(old(View()), m, t, admitted)
    {
      if !admitted { return Failed(Refused); }
      if !Exactly(Ledger(token, invalidated, row), m, t) { return Failed(Conflict); }
      var next := t.(epoch := t.epoch + 1);
      token, invalidated := Some(next), true;
      r := Done(next);
    }

    method InvalidateResumeMutation(admitted: bool)
      modifies this
      ensures View() == DoBarrier(old(View()), admitted)
    {
      if admitted && token.Some? && token.value.epoch != MAX_INT64 {
        token, invalidated := Some(token.value.(epoch := token.value.epoch + 1)), true;
      }
    }

    /** The bitmap a backend starts from when it opens a loaded checkpoint: exactly the trusted pieces. */
    method PendingPieces() returns (pending: seq<Byte>)
      requires Lawful(x) && Consistent(x, View()) && !invalidated
      ensures forall p: nat :: p < 8 * |pending| ==> (Has(pending, p) <==> Trusted(x, View(), p))
      ensures forall p: nat :: Trusted(x, View(), p) ==> p < 8 * |pending|
    {
      var c := x.decode(row.value.blob).value;
      var revoked := row.value.revoked;
      pending := [];
      for i := 0 to |c.pieces|
        invariant |pending| == i && forall k :: 0 <= k < i ==> pending[k] == AndNot(c.pieces[k], revoked[k])
      {
        pending := pending + [AndNot(c.pieces[i], revoked[i])];
      }
    }
  }
}
