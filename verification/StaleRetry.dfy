/**
 * Recovery after any run at all. A command captures the row and writes its journal back later,
 * under a compare-and-swap on the stage alone, so a retry can put back a journal older than the
 * one it replaces, and a running worker keeps working from its own copy. Over every run, with any
 * number of such writes, each journal in circulation says only what is true of the disk, but the
 * row may not say enough. When the process stops, the move can still be completed if and only if
 * the row then says enough for its stage (Recovers): a staging directory with anything below it is
 * named, and so is every staged file with bytes; a rename that would have to become a copy finds
 * staging empty; a target that is there is described; the quarantine of a cleanup is usable.
 */
module StaleRetry {
  import opened StorageMove
  import opened StorageRecovery
  import opened Wrappers

  // ------------------------------------------------------------------ what is true at every stage

  /** Staged files are prefixes of the recorded ones. */
  predicate StagedPrefixes(p: Plan, d: Disk) {
    && (!Vacant(d) ==> d.stgDir.Some?)
    && forall i :: i in d.stg ==> i in p.files && d.stg[i].data <= p.files[i].data
  }

  /** Whatever is left of the source, in place or in quarantine, is the recorded file. */
  predicate Remains(p: Plan, d: Disk) {
    && d.srcDir == Some(p.srcId) && (d.clnDir.None? ==> d.qua == map[])
    && (forall i :: i in d.src ==> i in p.files && d.src[i] == p.files[i] && i !in d.qua)
    && (forall i :: i in d.qua ==> i in p.files && d.qua[i] == p.files[i])
  }

  /** The stages before anything is removed from the source. */
  predicate Unswept(stage: Stage) {
    stage.Planned? || (Moving(stage) && !stage.Cleanup?)
  }

  predicate DiskTrue(p: Plan, d: Disk, stage: Stage) {
    && (stage.Planned? || Waits(stage) ==> Vacant(d))
    && (Unswept(stage) ==> d.clnDir.None? && d.qua == map[])
    && (stage.Copying? || (stage.Publishing? && d.tgtDir.None?) ==> SourceIntact(p, d) && StagedPrefixes(p, d))
    && (Late(stage) && d.srcDir.Some? && !stage.Cleanup? && !stage.Completed? ==> SourceIntact(p, d))
    && (stage.Cleanup? && d.srcDir.Some? ==> Remains(p, d))
  }

  predicate Unstaged(j: Journal) {
    j.stgId.None? && j.copies == map[] && !j.complete
  }

  /** What the journal says about staging is so. */
  predicate Knows(p: Plan, j: Journal, d: Disk) {
    && (if j.stgId.Some? then d.stgDir == j.stgId else j.copies == map[])
    && forall i :: i in j.copies ==> i in p.files && i in d.stg && d.stg[i].id == j.copies[i]
  }

  /** What a journal of this stage says is so, whether the row, the worker or a command holds it. */
  predicate JournalTrue(p: Plan, d: Disk, stage: Stage, j: Journal) {
    && (Unswept(stage) ==> j.clnId.None? && j.removed == {})
    && (stage.Planned? || Waits(stage) ==> Unstaged(j))
    && (stage.Copying? ==> j.how.Copy? && !j.complete && Knows(p, j, d))
    && (stage.Publishing? ==> if j.how.Rename? then Unstaged(j) else d.tgtDir.None? ==> Knows(p, j, d))
    && (stage.Published? || stage.Committed? ==> Landed(p, j, d))
    && (stage.Cleanup? ==> CleanupTrue(p, d, j))
  }

  predicate CleanupTrue(p: Plan, d: Disk, j: Journal) {
    && TargetMatches(p, j, d) && (j.how.Rename? ==> d.srcDir.None?)
    && (d.srcDir.Some? ==> forall i :: i in j.removed ==> i !in d.src && i !in d.qua)
  }

  predicate WorkerTrue(p: Plan, x: Worker, d: Disk) {
    && (x.stage.Prepared? && x.at.Checked? ==> SourceIntact(p, d) && d.tgtDir.None?)
    && (CopyStage(x.stage) && x.at.Ready? ==>
          d.tgtDir.None? && (x.journal.how.Copy? ==> CopiesMatch(p, x.journal, d.stgDir, d.stg)))
    && (x.stage.Publishing? && x.at.Settled? ==> Landed(p, x.journal, d))
  }

  predicate CopyStage(stage: Stage) {
    stage.Copying? || stage.Publishing?
  }

  /** Row and worker agree with the disk, though not with each other. */
  predicate Core(p: Plan, w: World) {
    && DiskTrue(p, w.disk, w.stage) && JournalTrue(p, w.disk, w.stage, w.journal)
    && (w.worker.Some? && w.worker.value.stage == w.stage ==>
          JournalTrue(p, w.disk, w.stage, w.worker.value.journal) && WorkerTrue(p, w.worker.value, w.disk))
  }

  /** Stages only go up, so a captured journal is of the row's stage or of one that never returns. */
  function Rank(stage: Stage): nat {
    match stage
    case Planned => 0
    case Queued => 1
    case WaitingReaders => 2
    case Prepared => 3
    case Copying => 4
    case Publishing => 5
    case Published => 6
    case Committed => 7
    case Cleanup => 8
    case Completed => 9
    case CancelRequested => 10
    case Cancelled => 11
  }

  predicate CommandTrue(p: Plan, w: World, c: Command) {
    Rank(c.stage) <= Rank(w.stage) && (c.stage == w.stage ==> JournalTrue(p, w.disk, w.stage, c.journal))
  }

  predicate Truthful(p: Plan, w: World) {
    Safe(p, w) && Core(p, w) && forall c :: c in w.captured ==> CommandTrue(p, w, c)
  }

  // ------------------------------------------------------------------ row and worker, step by step

  predicate Foreign(a: Act) {
    a.Crash? || a.Attach? || a.Write? || a.Capture? || a.Submit? || a.Start? || a.Stop? || a.FinishCancel?
  }

  lemma SubmitCore(p: Plan, w: World, c: Command)
    requires Truthful(p, w)
    ensures Core(p, DoSubmit(w, c))
  {
    if c in w.captured { assert CommandTrue(p, w, c); }
  }

  lemma ForeignCore(p: Plan, w: World, a: Act)
    requires Truthful(p, w) && Foreign(a)
    ensures Core(p, Do(p, w, a))
  {
    if a.Submit? { SubmitCore(p, w, a.cmd); }
    else if a.Write? { EngineCore(p, w, a.i, a.data); }
  }

  lemma EngineCore(p: Plan, w: World, i: nat, data: Data)
    requires Safe(p, w) && Core(p, w)
    ensures Core(p, DoWrite(w, i, data))
  {
  }

  lemma PrepareCore(p: Plan, w: World, a: Act)
    requires Safe(p, w) && Core(p, w) && (a.Queue? || a.Detach? || a.Prepare? || a.CheckSource? || a.Begin?)
    ensures Core(p, Do(p, w, a))
  {
  }

  /** A change below staging, or of what the worker knows about it, that both journals survive. */
  lemma StagingCore(p: Plan, w: World, d: Disk, x: Worker)
    requires Safe(p, w) && Core(p, w) && Copies(w)
    requires d == w.disk.(stgDir := d.stgDir, stg := d.stg, folders := d.folders, next := d.next)
    requires x == w.worker.value.(journal := x.journal, saved := x.saved) && (x.at.Checked? || x.at.Opened?)
    requires x.journal == w.worker.value.journal.(stgId := x.journal.stgId, copies := x.journal.copies)
    requires w.stage == x.stage ==>
               StagedPrefixes(p, d) && Knows(p, x.journal, d) && (w.journal.how.Copy? ==> Knows(p, w.journal, d))
    ensures Core(p, w.(disk := d, worker := Some(x)))
  {
  }

  lemma StagedFacts(p: Plan, w: World)
    requires Core(p, w) && Copies(w) && w.stage == w.worker.value.stage
    ensures SourceIntact(p, w.disk) && StagedPrefixes(p, w.disk) && Knows(p, w.worker.value.journal, w.disk)
    ensures w.journal.how.Copy? ==> Knows(p, w.journal, w.disk)
  {
  }

  /** A directory appears where none was, or keeps its identity. */
  lemma OpenedKnown(p: Plan, d: Disk, j: Journal, id: nat, next: nat)
    requires Knows(p, j, d) && id == DirectoryId(d.stgDir, next)
    ensures Knows(p, j, d.(stgDir := Some(id), next := next + 1))
  {
  }

  lemma EnsureCore(p: Plan, w: World)
    requires Safe(p, w) && Core(p, w)
    ensures Core(p, DoEnsureStaging(w))
  {
    if DoEnsureStaging(w) != w {
      var w' := DoEnsureStaging(w);
      if w.stage == w.worker.value.stage {
        StagedFacts(p, w);
        if w.journal.how.Copy? { OpenedKnown(p, w.disk, w.journal, w'.disk.stgDir.value, w.disk.next); }
      }
      StagingCore(p, w, w'.disk, w'.worker.value);
    }
  }

  lemma SaveCore(p: Plan, w: World, a: Act)
    requires Safe(p, w) && Core(p, w) && (a.OpenStaging? || a.Persist? || a.OpenCleanup?)
    ensures Core(p, Do(p, w, a))
  {
  }

  /** A new empty file is a prefix, and does not touch what is known. */
  lemma CreatedKnown(p: Plan, d: Disk, j: Journal, i: nat)
    requires Knows(p, j, d) && StagedPrefixes(p, d) && i in p.files && i !in d.stg && d.stgDir.Some?
    ensures var e := d.(stg := d.stg[i := File(d.next, [])], next := d.next + 1);
            Knows(p, j, e) && StagedPrefixes(p, e)
  {
  }

  lemma CreateCore(p: Plan, w: World, i: nat)
    requires Safe(p, w) && Core(p, w)
    ensures Core(p, DoCreateCopy(p, w, i))
  {
    if DoCreateCopy(p, w, i) != w {
      var w' := DoCreateCopy(p, w, i);
      if w.stage == w.worker.value.stage {
        StagedFacts(p, w);
        if i !in w.disk.stg {
          CreatedKnown(p, w.disk, w.worker.value.journal, i);
          if w.journal.how.Copy? { CreatedKnown(p, w.disk, w.journal, i); }
        }
      }
      StagingCore(p, w, w'.disk, w'.worker.value);
    }
  }

  lemma FoldersCore(p: Plan, w: World)
    requires Safe(p, w) && Core(p, w)
    ensures Core(p, DoMakeFolders(p, w))
  {
    if DoMakeFolders(p, w) != w {
      if w.stage == w.worker.value.stage { StagedFacts(p, w); }
      StagingCore(p, w, DoMakeFolders(p, w).disk, w.worker.value);
    }
  }

  lemma WrittenKnown(p: Plan, d: Disk, j: Journal, i: nat, data: Data)
    requires Knows(p, j, d) && StagedPrefixes(p, d) && i in d.stg && data <= p.files[i].data
    ensures var e := d.(stg := d.stg[i := d.stg[i].(data := data)]);
            Knows(p, j, e) && StagedPrefixes(p, e)
  {
  }

  lemma WriteCore(p: Plan, w: World, i: nat, data: Data)
    requires Safe(p, w) && Core(p, w) && MayWrite(w, i) && data <= w.disk.src[i].data
    ensures Core(p, w.(disk := w.disk.(stg := w.disk.stg[i := w.disk.stg[i].(data := data)])))
  {
    if w.stage == w.worker.value.stage {
      StagedFacts(p, w);
      WrittenKnown(p, w.disk, w.worker.value.journal, i, data);
      if w.journal.how.Copy? { WrittenKnown(p, w.disk, w.journal, i, data); }
    }
    StagingCore(p, w, w.disk.(stg := w.disk.stg[i := w.disk.stg[i].(data := data)]), w.worker.value);
  }

  lemma FillCore(p: Plan, w: World, a: Act)
    requires Safe(p, w) && Core(p, w) && (a.TruncateCopy? || a.AppendCopy?)
    ensures Core(p, Do(p, w, a))
  {
    if Do(p, w, a) != w { WriteCore(p, w, a.i, if a.AppendCopy? then w.disk.src[a.i].data[..a.n] else []); }
  }

  lemma VerifyCore(p: Plan, w: World)
    requires Safe(p, w) && Core(p, w)
    ensures Core(p, DoVerifyCopies(p, w)) && Core(p, DoFinishCopying(w))
  {
  }

  lemma MethodCore(p: Plan, w: World)
    requires Safe(p, w) && Core(p, w)
    ensures Core(p, DoSaveComplete(w)) && Core(p, DoFallBack(p, w))
  {
  }

  lemma MoveCore(p: Plan, w: World)
    requires Safe(p, w) && Core(p, w)
    ensures Core(p, DoMoveDirectory(p, w))
  {
  }

  lemma ReadyCore(p: Plan, w: World)
    requires Safe(p, w) && Core(p, w)
    ensures Core(p, DoCheckReady(p, w)) && Core(p, DoFoundTarget(p, w))
  {
  }

  lemma PublishCore(p: Plan, w: World, a: Act)
    requires Safe(p, w) && Core(p, w) && (a.ToPublished? || a.Commit? || a.ToCleanup?)
    ensures Core(p, Do(p, w, a))
  {
  }

  lemma CleanupCore(p: Plan, w: World)
    requires Safe(p, w) && Core(p, w)
    ensures Core(p, DoEnsureCleanup(p, w))
  {
  }

  lemma CompleteCore(p: Plan, w: World)
    requires Safe(p, w) && Core(p, w)
    ensures Core(p, DoCheckTarget(p, w)) && Core(p, DoComplete(p, w))
  {
  }

  lemma DirectoryCore(p: Plan, w: World)
    requires Safe(p, w) && Core(p, w)
    ensures Core(p, DoRemoveCleanup(p, w)) && Core(p, DoRemoveSource(p, w))
  {
  }

  lemma QuarantineCore(p: Plan, w: World, i: nat)
    requires Safe(p, w) && Core(p, w)
    ensures Core(p, DoQuarantine(p, w, i))
  {
  }

  lemma UnlinkCore(p: Plan, w: World, i: nat)
    requires Safe(p, w) && Core(p, w)
    ensures Core(p, DoUnlink(p, w, i))
  {
  }

  lemma MarkCore(p: Plan, w: World, i: nat)
    requires Safe(p, w) && Core(p, w)
    ensures Core(p, DoMarkGone(p, w, i))
  {
  }

  /** The steps that change the disk; none of them reads or writes the row's journal. */
  predicate Stages(a: Act) {
    a.EnsureStaging? || a.MakeFolders? || a.CreateCopy? || a.TruncateCopy? || a.AppendCopy? || a.MoveDirectory?
  }

  predicate Sweeps(a: Act) {
    a.EnsureCleanup? || a.Quarantine? || a.Unlink? || a.RemoveCleanup? || a.RemoveSource?
  }

  predicate Touches(a: Act) {
    a.Write? || Stages(a) || Sweeps(a)
  }

  lemma StageCore(p: Plan, w: World, a: Act)
    requires Safe(p, w) && Core(p, w) && Stages(a)
    ensures Core(p, Do(p, w, a))
  {
    if a.EnsureStaging? { EnsureCore(p, w); }
    else if a.MakeFolders? { FoldersCore(p, w); }
    else if a.CreateCopy? { CreateCore(p, w, a.i); }
    else if a.MoveDirectory? { MoveCore(p, w); }
    else { FillCore(p, w, a); }
  }

  lemma SweepCore(p: Plan, w: World, a: Act)
    requires Safe(p, w) && Core(p, w) && Sweeps(a)
    ensures Core(p, Do(p, w, a))
  {
    if a.EnsureCleanup? { CleanupCore(p, w); }
    else if a.Quarantine? { QuarantineCore(p, w, a.i); }
    else if a.Unlink? { UnlinkCore(p, w, a.i); }
    else { DirectoryCore(p, w); }
  }

  lemma TouchCore(p: Plan, w: World, a: Act)
    requires Safe(p, w) && Core(p, w) && Touches(a)
    ensures Core(p, Do(p, w, a))
  {
    if a.Write? { EngineCore(p, w, a.i, a.data); }
    else if Stages(a) { StageCore(p, w, a); }
    else { SweepCore(p, w, a); }
  }

  lemma StepCore(p: Plan, w: World, a: Act)
    requires Truthful(p, w)
    ensures Core(p, Do(p, w, a))
  {
    if Touches(a) { TouchCore(p, w, a); }
    else if Foreign(a) { ForeignCore(p, w, a); }
    else if a.Queue? || a.Detach? || a.Prepare? || a.CheckSource? || a.Begin? { PrepareCore(p, w, a); }
    else if a.OpenStaging? || a.Persist? || a.OpenCleanup? { SaveCore(p, w, a); }
    else if a.VerifyCopies? || a.FinishCopying? { VerifyCore(p, w); }
    else if a.SaveComplete? || a.FallBack? { MethodCore(p, w); }
    else if a.CheckReady? || a.FoundTarget? { ReadyCore(p, w); }
    else if a.ToPublished? || a.Commit? || a.ToCleanup? { PublishCore(p, w, a); }
    else if a.MarkGone? { MarkCore(p, w, a.i); }
    else { CompleteCore(p, w); }
  }

  // ------------------------------------------------------------------ captured commands

  lemma EnsureStays(p: Plan, w: World, j: Journal)
    requires Safe(p, w) && Core(p, w) && JournalTrue(p, w.disk, w.stage, j)
    ensures JournalTrue(p, DoEnsureStaging(w).disk, w.stage, j)
  {
    var v := w.(journal := j);
    EnsureCore(p, v);
    assert DoEnsureStaging(v).disk == DoEnsureStaging(w).disk && DoEnsureStaging(v).journal == j
        && DoEnsureStaging(v).stage == w.stage;
  }

  lemma FoldersStay(p: Plan, w: World, j: Journal)
    requires JournalTrue(p, w.disk, w.stage, j)
    ensures JournalTrue(p, DoMakeFolders(p, w).disk, w.stage, j)
  {
  }

  lemma CreateStays(p: Plan, w: World, i: nat, j: Journal)
    requires Safe(p, w) && Core(p, w) && JournalTrue(p, w.disk, w.stage, j)
    ensures JournalTrue(p, DoCreateCopy(p, w, i).disk, w.stage, j)
  {
    if DoCreateCopy(p, w, i).disk != w.disk && w.stage == w.worker.value.stage {
      StagedFacts(p, w);
      if j.how.Copy? { CreatedKnown(p, w.disk, j, i); }
    }
  }

  lemma MoveStays(p: Plan, w: World, j: Journal)
    requires Safe(p, w) && Core(p, w) && JournalTrue(p, w.disk, w.stage, j)
    ensures JournalTrue(p, DoMoveDirectory(p, w).disk, w.stage, j)
  {
    var v := w.(journal := j);
    MoveCore(p, v);
    assert DoMoveDirectory(p, v).disk == DoMoveDirectory(p, w).disk && DoMoveDirectory(p, v).journal == j
        && DoMoveDirectory(p, v).stage == w.stage;
  }

  lemma QuarantineStays(p: Plan, w: World, i: nat, j: Journal)
    requires Safe(p, w) && Core(p, w) && JournalTrue(p, w.disk, w.stage, j)
    ensures JournalTrue(p, DoQuarantine(p, w, i).disk, w.stage, j)
  {
    var v := w.(journal := j);
    QuarantineCore(p, v, i);
    assert DoQuarantine(p, v, i).disk == DoQuarantine(p, w, i).disk && DoQuarantine(p, v, i).journal == j
        && DoQuarantine(p, v, i).stage == w.stage;
  }

  lemma UnlinkStays(p: Plan, w: World, i: nat, j: Journal)
    requires Safe(p, w) && Core(p, w) && JournalTrue(p, w.disk, w.stage, j)
    ensures JournalTrue(p, DoUnlink(p, w, i).disk, w.stage, j)
  {
    var v := w.(journal := j);
    UnlinkCore(p, v, i);
    assert DoUnlink(p, v, i).disk == DoUnlink(p, w, i).disk && DoUnlink(p, v, i).journal == j
        && DoUnlink(p, v, i).stage == w.stage;
  }

  lemma SourceStays(p: Plan, w: World, j: Journal)
    requires Safe(p, w) && Core(p, w) && JournalTrue(p, w.disk, w.stage, j)
    ensures JournalTrue(p, DoRemoveSource(p, w).disk, w.stage, j)
  {
    var v := w.(journal := j);
    DirectoryCore(p, v);
    assert DoRemoveSource(p, v).disk == DoRemoveSource(p, w).disk && DoRemoveSource(p, v).journal == j
        && DoRemoveSource(p, v).stage == w.stage;
  }

  lemma EngineStays(p: Plan, w: World, i: nat, data: Data, j: Journal)
    requires Safe(p, w) && Core(p, w) && JournalTrue(p, w.disk, w.stage, j)
    ensures JournalTrue(p, DoWrite(w, i, data).disk, w.stage, j)
  {
    var v := w.(journal := j);
    EngineCore(p, v, i, data);
    assert DoWrite(v, i, data).disk == DoWrite(w, i, data).disk && DoWrite(v, i, data).journal == j
        && DoWrite(v, i, data).stage == w.stage;
  }

  lemma WriteStays(p: Plan, w: World, i: nat, data: Data, j: Journal)
    requires Safe(p, w) && Core(p, w) && JournalTrue(p, w.disk, w.stage, j) && MayWrite(w, i)
             && data <= w.disk.src[i].data
    ensures JournalTrue(p, w.disk.(stg := w.disk.stg[i := w.disk.stg[i].(data := data)]), w.stage, j)
  {
    WriteCore(p, w.(journal := j), i, data);
  }

  lemma FillStays(p: Plan, w: World, i: nat, n: nat, j: Journal)
    requires Safe(p, w) && Core(p, w) && JournalTrue(p, w.disk, w.stage, j)
    ensures JournalTrue(p, DoTruncateCopy(w, i).disk, w.stage, j)
            && JournalTrue(p, DoAppendCopy(w, i, n).disk, w.stage, j)
  {
    if MayWrite(w, i) {
      WriteStays(p, w, i, [], j);
      if n <= |w.disk.src[i].data| { WriteStays(p, w, i, w.disk.src[i].data[..n], j); }
    }
  }

  /** The cleanup directory itself is not something a journal of cleanup speaks about. */
  lemma CleanupStays(p: Plan, w: World, j: Journal)
    requires Safe(p, w) && Core(p, w) && JournalTrue(p, w.disk, w.stage, j)
    ensures JournalTrue(p, DoEnsureCleanup(p, w).disk, w.stage, j)
            && JournalTrue(p, DoRemoveCleanup(p, w).disk, w.stage, j)
  {
  }

  lemma StageCases(p: Plan, w: World, a: Act, ok: Disk -> bool)
    requires Stages(a) && ok(w.disk)
    requires a.EnsureStaging? ==> ok(DoEnsureStaging(w).disk)
    requires a.MakeFolders? ==> ok(DoMakeFolders(p, w).disk)
    requires a.CreateCopy? ==> ok(DoCreateCopy(p, w, a.i).disk)
    requires a.TruncateCopy? ==> ok(DoTruncateCopy(w, a.i).disk)
    requires a.AppendCopy? ==> ok(DoAppendCopy(w, a.i, a.n).disk)
    requires a.MoveDirectory? ==> ok(DoMoveDirectory(p, w).disk)
    ensures ok(Do(p, w, a).disk)
  {
  }

  lemma StageStays(p: Plan, w: World, a: Act, j: Journal)
    requires Safe(p, w) && Core(p, w) && JournalTrue(p, w.disk, w.stage, j) && Stages(a)
    ensures JournalTrue(p, Do(p, w, a).disk, w.stage, j)
  {
    if a.EnsureStaging? { EnsureStays(p, w, j); }
    else if a.MakeFolders? { FoldersStay(p, w, j); }
    else if a.CreateCopy? { CreateStays(p, w, a.i, j); }
    else if a.MoveDirectory? { MoveStays(p, w, j); }
    else { FillStays(p, w, a.i, if a.AppendCopy? then a.n else 0, j); }
    StageCases(p, w, a, d => JournalTrue(p, d, w.stage, j));
  }

  lemma SweepCases(p: Plan, w: World, a: Act, ok: Disk -> bool)
    requires Sweeps(a)
    requires a.EnsureCleanup? ==> ok(DoEnsureCleanup(p, w).disk)
    requires a.Quarantine? ==> ok(DoQuarantine(p, w, a.i).disk)
    requires a.Unlink? ==> ok(DoUnlink(p, w, a.i).disk)
    requires a.RemoveCleanup? ==> ok(DoRemoveCleanup(p, w).disk)
    requires a.RemoveSource? ==> ok(DoRemoveSource(p, w).disk)
    ensures ok(Do(p, w, a).disk)
  {
  }

  lemma SweepStays(p: Plan, w: World, a: Act, j: Journal)
    requires Safe(p, w) && Core(p, w) && JournalTrue(p, w.disk, w.stage, j) && Sweeps(a)
    ensures JournalTrue(p, Do(p, w, a).disk, w.stage, j)
  {
    if a.Quarantine? { QuarantineStays(p, w, a.i, j); }
    else if a.Unlink? { UnlinkStays(p, w, a.i, j); }
    else if a.RemoveSource? { SourceStays(p, w, j); }
    else { CleanupStays(p, w, j); }
    SweepCases(p, w, a, d => JournalTrue(p, d, w.stage, j));
  }

  lemma DiskStays(p: Plan, w: World, a: Act)
    requires !Touches(a)
    ensures Do(p, w, a).disk == w.disk
  {
    if Foreign(a) || a.MarkGone? || a.CheckTarget? || a.OpenCleanup? || a.Complete? {} else { WorkStays(p, w, a); }
  }

  lemma WorkStays(p: Plan, w: World, a: Act)
    requires !Touches(a) && !Foreign(a) && !a.MarkGone? && !a.CheckTarget? && !a.OpenCleanup? && !a.Complete?
    ensures Do(p, w, a).disk == w.disk
  {
  }

  /** A journal that was true stays true as long as the stage does, whoever holds it. */
  lemma JournalStays(p: Plan, w: World, a: Act, j: Journal)
    requires Safe(p, w) && Core(p, w) && JournalTrue(p, w.disk, w.stage, j) && Do(p, w, a).stage == w.stage
    ensures JournalTrue(p, Do(p, w, a).disk, w.stage, j)
  {
    if a.Write? { EngineStays(p, w, a.i, a.data, j); }
    else if Stages(a) { StageStays(p, w, a, j); }
    else if Sweeps(a) { SweepStays(p, w, a, j); }
    else { DiskStays(p, w, a); }
  }

  lemma StageRises(p: Plan, w: World, a: Act)
    ensures Rank(w.stage) <= Rank(Do(p, w, a).stage)
  {
    if !Restages(a) { StageFrame(p, w, a); }
  }

  lemma CapturedStay(p: Plan, w: World, a: Act)
    requires !a.Capture?
    ensures Do(p, w, a).captured <= w.captured
  {
    if !Foreign(a) { WorkerKeepsCaptured(p, w, a); }
  }

  lemma WorkerKeepsCaptured(p: Plan, w: World, a: Act)
    requires !Foreign(a)
    ensures Do(p, w, a).captured == w.captured
  {
  }

  lemma CommandStays(p: Plan, w: World, a: Act, c: Command)
    requires Safe(p, w) && Core(p, w) && CommandTrue(p, w, c)
    ensures CommandTrue(p, Do(p, w, a), c)
  {
    StageRises(p, w, a);
    if c.stage == Do(p, w, a).stage { JournalStays(p, w, a, c.journal); }
  }

  lemma CaptureTruthful(p: Plan, w: World, kind: Kind)
    requires Truthful(p, w)
    ensures Truthful(p, w.(captured := w.captured + {Command(kind, w.stage, w.journal)}))
  {
    var v := w.(captured := w.captured + {Command(kind, w.stage, w.journal)});
    forall c | c in v.captured ensures CommandTrue(p, v, c) {
      if c in w.captured { assert CommandTrue(p, w, c); }
    }
  }

  lemma StepTruthful(p: Plan, w: World, a: Act)
    requires Truthful(p, w)
    ensures Truthful(p, Do(p, w, a))
  {
    if a.Capture? {
      CaptureTruthful(p, w, a.kind);
    } else {
      StepSafe(p, w, a);
      StepCore(p, w, a);
      CapturedStay(p, w, a);
      forall c | c in Do(p, w, a).captured ensures CommandTrue(p, Do(p, w, a), c) {
        assert CommandTrue(p, w, c);
        CommandStays(p, w, a, c);
      }
    }
  }

  /** Over every run whatsoever, everything any journal says is true. */
  lemma {:induction false} RunTruthful(p: Plan, w: World, acts: seq<Act>)
    requires Truthful(p, w)
    ensures Truthful(p, Run(p, w, acts))
    decreases |acts|
  {
    if acts != [] {
      StepTruthful(p, w, acts[0]);
      RunTruthful(p, Do(p, w, acts[0]), acts[1..]);
    }
  }

  // ------------------------------------------------------------------ when the row says enough

  /** The journal names a staging directory that has anything below it, and every staged file that has bytes. */
  predicate Remembers(j: Journal, d: Disk) {
    (j.stgId.None? ==> Vacant(d)) && forall i :: i in d.stg && d.stg[i].data != [] ==> i in j.copies
  }

  /** A journal that calls the copy complete describes it; one that does not can still complete it. */
  predicate CanCopy(p: Plan, j: Journal, d: Disk) {
    if j.complete then CopiesMatch(p, j, d.stgDir, d.stg) else Remembers(j, d)
  }

  /** A rename that crosses devices goes on as a copy, under a journal that knows nothing of staging. */
  predicate CanPublish(p: Plan, j: Journal, d: Disk) {
    if j.how.Copy? then CanCopy(p, j, d) else !p.crosses || Vacant(d)
  }

  /** Cleanup can go on: with the recorded quarantine, or with one that is not in use. */
  predicate CanSweep(p: Plan, j: Journal, d: Disk) {
    if j.clnId.Some? then d.clnDir == j.clnId || (d.clnDir.None? && AllRemoved(p, j))
    else d.clnDir.None? || (d.qua == map[] && !AllRemoved(p, j))
  }

  /** What row and disk have to satisfy when the process stops, stage by stage. */
  predicate Recovers(p: Plan, d: Disk, stage: Stage, j: Journal) {
    match stage
    case Queued => SourceIntact(p, d)
    case WaitingReaders => SourceIntact(p, d)
    case Prepared => SourceIntact(p, d)
    case Copying => Remembers(j, d)
    case Publishing => if d.tgtDir.Some? then Landed(p, j, d) else CanPublish(p, j, d)
    case Cleanup => d.srcDir.None? || CanSweep(p, j, d)
    case CancelRequested => false
    case _ => true
  }

  lemma CopyingExact(p: Plan, d: Disk, j: Journal)
    requires DiskTrue(p, d, Copying) && JournalTrue(p, d, Copying, j)
    ensures Resumable(p, d, Copying, j) <==> Remembers(j, d)
  {
  }

  /** A complete copy is in particular a staging area whose files are all recorded. */
  lemma CompleteStaging(p: Plan, j: Journal, d: Disk)
    requires CopiesMatch(p, j, d.stgDir, d.stg)
    ensures Remembers(j, d)
  {
    forall i | i in d.stg ensures i in j.copies { assert CopyMatches(p, j, i, d.stg[i]); }
  }

  lemma PublishingExact(p: Plan, d: Disk, j: Journal)
    requires DiskTrue(p, d, Publishing) && JournalTrue(p, d, Publishing, j) && d.tgtDir.None? && j.how.Copy?
    ensures Resumable(p, d, Publishing, j) <==> CanCopy(p, j, d)
  {
    if j.complete && CopiesMatch(p, j, d.stgDir, d.stg) { CompleteStaging(p, j, d); }
  }

  lemma LandedExact(p: Plan, d: Disk, j: Journal)
    requires DiskTrue(p, d, Publishing) && JournalTrue(p, d, Publishing, j) && d.tgtDir.Some?
    ensures Resumable(p, d, Publishing, j) <==> Landed(p, j, d)
  {
  }

  lemma CleanupExact(p: Plan, d: Disk, j: Journal)
    requires DiskTrue(p, d, Cleanup) && JournalTrue(p, d, Cleanup, j)
    ensures Resumable(p, d, Cleanup, j) <==> d.srcDir.None? || CanSweep(p, j, d)
  {
  }

  // ------------------------------------------------------------------ otherwise the operation never completes

  /** Cancelled for good. */
  predicate Withdrawn(stage: Stage) {
    stage.CancelRequested? || stage.Cancelled?
  }

  lemma WithdrawnStep(p: Plan, w: World, a: Act)
    requires Withdrawn(w.stage)
    ensures Withdrawn(Do(p, w, a).stage)
  {
    if !Restages(a) { StageFrame(p, w, a); }
  }

  /** Nothing can bring the recorded source back once no engine is attached. */
  predicate StuckWaiting(p: Plan, w: World) {
    && Waits(w.stage) && !w.attached && !SourceIntact(p, w.disk)
    && (w.worker.Some? ==>
          Waits(w.worker.value.stage) && !(w.worker.value.stage.Prepared? && w.worker.value.at.Checked?))
  }

  /**
   * This journal can never finish the copy, or the rename that will become one: staged files or
   * directories it does not know are in the way, file k among them if it knows the staging directory.
   */
  predicate Barred(p: Plan, j: Journal, d: Disk, k: nat) {
    && !j.complete && (j.how.Rename? ==> p.crosses && j.stgId.None?)
    && if j.stgId.None? then !Vacant(d) else k in d.stg && d.stg[k].data != [] && k !in j.copies
  }

  predicate StuckCopying(p: Plan, w: World, k: nat) {
    && CopyStage(w.stage) && w.disk.tgtDir.None? && w.disk.stgDir.Some? && Barred(p, w.journal, w.disk, k)
    && (w.worker.Some? ==> HeldBack(p, w.worker.value, w.disk, k))
    && forall c :: c in w.captured && CopyStage(c.stage) ==> Barred(p, c.journal, w.disk, k)
  }

  predicate HeldBack(p: Plan, x: Worker, d: Disk, k: nat) {
    && CopyStage(x.stage) && Barred(p, x.journal, d, k) && !x.at.Settled?
    && (x.at.Ready? ==> x.stage.Publishing? && x.journal.how.Rename?)
  }

  /** The journal calls a copy complete that is not there. */
  predicate Mistaken(p: Plan, j: Journal, d: Disk) {
    j.how.Copy? && j.complete && !CopiesMatch(p, j, d.stgDir, d.stg)
  }

  predicate StuckComplete(p: Plan, w: World) {
    && w.stage.Publishing? && w.disk.tgtDir.None? && Mistaken(p, w.journal, w.disk)
    && (w.worker.Some? ==> w.worker.value.stage.Publishing? && w.worker.value.at.Entered?
                           && Mistaken(p, w.worker.value.journal, w.disk))
    && forall c :: c in w.captured && c.stage.Publishing? ==> Mistaken(p, c.journal, w.disk)
  }

  /** The target is there and no journal anybody holds describes it. */
  predicate StuckLanded(p: Plan, w: World) {
    && w.stage.Publishing? && !w.moved && w.disk.tgtDir.Some? && !Landed(p, w.journal, w.disk)
    && (w.worker.Some? ==> w.worker.value.stage.Publishing? && w.worker.value.at.Entered?
                           && !Landed(p, w.worker.value.journal, w.disk))
    && forall c :: c in w.captured && c.stage.Publishing? ==> !Landed(p, c.journal, w.disk)
  }

  /** The source is still there and the quarantine the journal needs is missing or not its own. */
  predicate Unsweepable(p: Plan, j: Journal, d: Disk) {
    j.how.Copy? && d.srcDir.Some? && !CanSweep(p, j, d)
  }

  predicate StuckCleanup(p: Plan, w: World) {
    && w.stage.Cleanup? && w.moved && Unsweepable(p, w.journal, w.disk) && (w.disk.clnDir.None? ==> w.disk.qua == map[])
    && (w.worker.Some? ==> w.worker.value.stage.Cleanup? && (w.worker.value.at.Entered? || w.worker.value.at.Checked?)
                           && Unsweepable(p, w.worker.value.journal, w.disk))
    && forall c :: c in w.captured && c.stage.Cleanup? ==> Unsweepable(p, c.journal, w.disk)
  }

  lemma WaitingStep(p: Plan, w: World, a: Act)
    requires StuckWaiting(p, w)
    ensures StuckWaiting(p, Do(p, w, a)) || Withdrawn(Do(p, w, a).stage)
  {
    if !Foreign(a) { WaitingRests(p, w, a); }
  }

  lemma WaitingRests(p: Plan, w: World, a: Act)
    requires StuckWaiting(p, w) && !Foreign(a)
    ensures StuckWaiting(p, Do(p, w, a))
  {
    if !a.Queue? && !a.Detach? && !a.Prepare? && !a.Persist? { WaitingIdles(p, w, a); }
  }

  lemma WaitingIdles(p: Plan, w: World, a: Act)
    requires StuckWaiting(p, w) && !Foreign(a) && !a.Queue? && !a.Detach? && !a.Prepare? && !a.Persist?
    ensures Do(p, w, a) == w
  {
  }

  lemma CopyingForeign(p: Plan, w: World, a: Act, k: nat)
    requires StuckCopying(p, w, k) && (Foreign(a) || a.Persist? || a.OpenStaging?)
    ensures StuckCopying(p, Do(p, w, a), k) || Withdrawn(Do(p, w, a).stage)
  {
  }

  /** Nothing that was in the way goes away. */
  predicate Remaining(d: Disk, e: Disk, k: nat) {
    && e == d.(stg := e.stg, folders := e.folders, next := e.next) && (!Vacant(d) ==> !Vacant(e))
    && (k in d.stg && d.stg[k].data != [] ==> k in e.stg && e.stg[k].data != [])
  }

  lemma CopyingStays(p: Plan, w: World, e: Disk, x: Worker, k: nat)
    requires StuckCopying(p, w, k) && w.worker.Some? && Remaining(w.disk, e, k)
    requires x == w.worker.value.(journal := x.journal, saved := x.saved)
    requires x.journal == w.worker.value.journal.(copies := x.journal.copies)
    requires k in w.worker.value.journal.copies <==> k in x.journal.copies
    ensures StuckCopying(p, w.(disk := e, worker := Some(x)), k)
  {
    forall c | c in w.captured && CopyStage(c.stage) ensures Barred(p, c.journal, e, k) {
      assert Barred(p, c.journal, w.disk, k);
    }
  }

  lemma CopyingCreates(p: Plan, w: World, i: nat, k: nat)
    requires StuckCopying(p, w, k)
    ensures StuckCopying(p, DoCreateCopy(p, w, i), k)
  {
    var w' := DoCreateCopy(p, w, i);
    if w' != w {
      CreateKeepsOut(p, w, i, k);
      CopyingStays(p, w, w'.disk, w'.worker.value, k);
    }
  }

  /** The file in the way is not created again and not adopted. */
  lemma CreateKeepsOut(p: Plan, w: World, i: nat, k: nat)
    requires w.worker.Some? && Barred(p, w.worker.value.journal, w.disk, k) && DoCreateCopy(p, w, i) != w
    ensures i != k && Remaining(w.disk, DoCreateCopy(p, w, i).disk, k)
    ensures var x := DoCreateCopy(p, w, i).worker.value.journal;
            x == w.worker.value.journal.(copies := x.copies) && (k in w.worker.value.journal.copies <==> k in x.copies)
    ensures var x := DoCreateCopy(p, w, i).worker.value; x == w.worker.value.(journal := x.journal, saved := x.saved)
    ensures DoCreateCopy(p, w, i) ==
            w.(disk := DoCreateCopy(p, w, i).disk, worker := DoCreateCopy(p, w, i).worker)
  {
  }

  lemma CopyingWrites(p: Plan, w: World, i: nat, data: Data, k: nat)
    requires StuckCopying(p, w, k) && MayWrite(w, i)
    ensures StuckCopying(p, w.(disk := w.disk.(stg := w.disk.stg[i := w.disk.stg[i].(data := data)])), k)
  {
    CopyingStays(p, w, w.disk.(stg := w.disk.stg[i := w.disk.stg[i].(data := data)]), w.worker.value, k);
  }

  lemma CopyingFills(p: Plan, w: World, a: Act, k: nat)
    requires StuckCopying(p, w, k) && (a.TruncateCopy? || a.AppendCopy?)
    ensures StuckCopying(p, Do(p, w, a), k)
  {
    if Do(p, w, a) != w { CopyingWrites(p, w, a.i, if a.AppendCopy? then w.disk.src[a.i].data[..a.n] else [], k); }
  }

  lemma CopyingMakes(p: Plan, w: World, k: nat)
    requires StuckCopying(p, w, k)
    ensures StuckCopying(p, DoMakeFolders(p, w), k)
  {
    if DoMakeFolders(p, w) != w { CopyingStays(p, w, w.disk.(folders := true), w.worker.value, k); }
  }

  /** The worker forgets nothing by falling back, but it has nothing to remember either. */
  lemma CopyingFallsBack(p: Plan, w: World, k: nat)
    requires StuckCopying(p, w, k)
    ensures StuckCopying(p, DoFallBack(p, w), k)
  {
  }

  lemma CopyingRests(p: Plan, w: World, a: Act, k: nat)
    requires StuckCopying(p, w, k)
    requires !Foreign(a) && !a.Persist? && !a.OpenStaging? && !a.FallBack?
    requires !a.MakeFolders? && !a.CreateCopy? && !a.TruncateCopy? && !a.AppendCopy?
    ensures Do(p, w, a) == w || (a.CheckSource? && Do(p, w, a) == Advance(w, Checked))
            || (a.CheckReady? && Do(p, w, a) == Advance(w, Ready)
                && HeldBack(p, Advance(w, Ready).worker.value, w.disk, k))
  {
  }

  lemma CopyingStep(p: Plan, w: World, a: Act, k: nat)
    requires StuckCopying(p, w, k)
    ensures StuckCopying(p, Do(p, w, a), k) || Withdrawn(Do(p, w, a).stage)
  {
    if Foreign(a) || a.Persist? || a.OpenStaging? { CopyingForeign(p, w, a, k); }
    else if a.CreateCopy? { CopyingCreates(p, w, a.i, k); }
    else if a.FallBack? { CopyingFallsBack(p, w, k); }
    else if a.MakeFolders? { CopyingMakes(p, w, k); }
    else if a.TruncateCopy? || a.AppendCopy? { CopyingFills(p, w, a, k); }
    else { CopyingRests(p, w, a, k); }
  }

  lemma CompleteStep(p: Plan, w: World, a: Act)
    requires StuckComplete(p, w)
    ensures StuckComplete(p, Do(p, w, a))
  {
    if !Foreign(a) && !a.Persist? { CompleteRests(p, w, a); }
  }

  lemma CompleteRests(p: Plan, w: World, a: Act)
    requires StuckComplete(p, w) && !Foreign(a) && !a.Persist?
    ensures Do(p, w, a) == w
  {
  }

  lemma LandedStep(p: Plan, w: World, a: Act)
    requires StuckLanded(p, w)
    ensures StuckLanded(p, Do(p, w, a))
  {
    if !Foreign(a) && !a.Persist? { LandedRests(p, w, a); }
  }

  lemma LandedRests(p: Plan, w: World, a: Act)
    requires StuckLanded(p, w) && !Foreign(a) && !a.Persist?
    ensures Do(p, w, a) == w
  {
  }

  lemma CleanupStep(p: Plan, w: World, a: Act)
    requires StuckCleanup(p, w)
    ensures StuckCleanup(p, Do(p, w, a))
  {
    if !Foreign(a) && !a.Persist? { CleanupRests(p, w, a); }
  }

  lemma CleanupRests(p: Plan, w: World, a: Act)
    requires StuckCleanup(p, w) && !Foreign(a) && !a.Persist?
    ensures Do(p, w, a) == w || (a.CheckTarget? && Do(p, w, a) == Advance(w, Checked))
  {
  }

  predicate Stuck(p: Plan, w: World, k: nat) {
    || Withdrawn(w.stage) || StuckWaiting(p, w) || StuckCopying(p, w, k)
    || StuckComplete(p, w) || StuckLanded(p, w) || StuckCleanup(p, w)
  }

  lemma StuckStep(p: Plan, w: World, k: nat, a: Act)
    requires Stuck(p, w, k)
    ensures Stuck(p, Do(p, w, a), k)
  {
    if Withdrawn(w.stage) { WithdrawnStep(p, w, a); }
    else if StuckWaiting(p, w) { WaitingStep(p, w, a); }
    else if StuckCopying(p, w, k) { CopyingStep(p, w, a, k); }
    else if StuckComplete(p, w) { CompleteStep(p, w, a); }
    else if StuckLanded(p, w) { LandedStep(p, w, a); }
    else { CleanupStep(p, w, a); }
  }

  lemma {:induction false} StuckForever(p: Plan, w: World, k: nat, acts: seq<Act>)
    requires Stuck(p, w, k)
    ensures !Run(p, w, acts).stage.Completed?
    decreases |acts|
  {
    if acts != [] {
      StuckStep(p, w, k, acts[0]);
      StuckForever(p, Do(p, w, acts[0]), k, acts[1..]);
    }
  }

  lemma BarredFile(p: Plan, j: Journal, d: Disk) returns (k: nat)
    requires j.how.Copy? && !j.complete && !Remembers(j, d)
    ensures Barred(p, j, d, k)
  {
    k := 0;
    if j.stgId.Some? { k :| k in d.stg && d.stg[k].data != [] && k !in j.copies; }
  }

  /** What is left when the process has stopped. */
  predicate Stopped(w: World) {
    w.worker.None? && w.captured == {} && !w.attached
  }

  lemma StopsThere(p: Plan, w: World) returns (k: nat)
    requires Safe(p, w) && Core(p, w) && Stopped(w) && Pending(w.stage) && !Recovers(p, w.disk, w.stage, w.journal)
    ensures Stuck(p, w, k)
  {
    k := 0;
    if CopyStage(w.stage) && w.disk.tgtDir.None? && w.journal.how.Copy? && !w.journal.complete {
      k := BarredFile(p, w.journal, w.disk);
    }
  }

  // ------------------------------------------------------------------ the exact condition

  /** Some way of going on completes the operation. */
  ghost predicate Completable(p: Plan, w: World) {
    exists more :: Run(p, w, more).stage.Completed?
  }

  /** A journal that says rename is carried out by a rename where source and target are on one device. */
  lemma RenamesAfterAll(p: Plan, u: World) returns (acts: seq<Act>)
    requires Safe(p, u) && u.stage.Publishing? && Stopped(u) && !p.crosses
    requires u.journal.how.Rename? && u.disk.tgtDir.None? && SourceIntact(p, u.disk) && Uncleaned(u.journal, u.disk)
    ensures Done(Run(p, u, acts))
  {
    var c := Command(Retry, u.stage, u.journal);
    var w1 := Run(p, u, Resume(u));
    RunFour(p, u, Crash, Capture(Retry), Submit(c), Start);
    Resumes(p, u);
    RunSafe(p, u, Resume(u));
    Renames(p, w1);
    var w2 := Do(p, Do(p, w1, CheckReady), MoveDirectory);
    var rest := FromSettled(p, w2);
    RunTwo(p, w1, CheckReady, MoveDirectory);
    RunConcat(p, w1, [CheckReady, MoveDirectory], rest);
    RunConcat(p, u, Resume(u), [CheckReady, MoveDirectory] + rest);
    acts := Resume(u) + ([CheckReady, MoveDirectory] + rest);
  }

  lemma Resumes(p: Plan, u: World)
    requires Safe(p, u) && u.stage.Publishing? && Stopped(u)
    ensures var c := Command(Retry, u.stage, u.journal);
            Do(p, Do(p, Do(p, Do(p, u, Crash), Capture(Retry)), Submit(c)), Start) ==
            u.(error := false, worker := Some(Worker(Publishing, u.journal, Entered, true)))
  {
  }

  lemma Renames(p: Plan, w: World)
    requires Safe(p, w) && w.stage.Publishing? && w.worker == Some(Worker(Publishing, w.journal, Entered, true))
    requires !p.crosses && w.journal.how.Rename? && w.disk.tgtDir.None?
    requires SourceIntact(p, w.disk) && Uncleaned(w.journal, w.disk)
    ensures Poised(p, Do(p, Do(p, w, CheckReady), MoveDirectory), Settled)
  {
    StepSafe(p, w, CheckReady);
    StepSafe(p, Do(p, w, CheckReady), MoveDirectory);
    RenameSteps(p, w);
    RenamedFits(p, w);
  }

  /** The source directory under the target name. */
  function Renamed(w: World): World
    requires w.worker.Some?
  {
    Advance(w.(disk := w.disk.(tgtDir := w.disk.srcDir, tgt := w.disk.src, srcDir := None, src := map[])), Settled)
  }

  lemma RenameSteps(p: Plan, w: World)
    requires !p.crosses && w.worker == Some(Worker(Publishing, w.journal, Entered, true))
    requires w.journal.how.Rename? && w.disk.tgtDir.None? && SourceIntact(p, w.disk)
    ensures Do(p, Do(p, w, CheckReady), MoveDirectory) == Renamed(w)
  {
    assert Do(p, w, CheckReady) == Advance(w, Ready);
  }

  lemma RenamedFits(p: Plan, w: World)
    requires w.stage.Publishing? && w.worker == Some(Worker(Publishing, w.journal, Entered, true))
    requires w.journal.how.Rename? && SourceIntact(p, w.disk) && Uncleaned(w.journal, w.disk)
    ensures Agrees(p, Renamed(w))
  {
  }

  lemma GoesOn(p: Plan, w: World) returns (acts: seq<Act>)
    requires Safe(p, w) && Core(p, w) && Stopped(w) && Pending(w.stage) && Recovers(p, w.disk, w.stage, w.journal)
    ensures Done(Run(p, w, acts))
  {
    if w.stage.Publishing? && w.disk.tgtDir.None? && w.journal.how.Rename? && !Vacant(w.disk) {
      acts := RenamesAfterAll(p, w);
    } else {
      SaysEnough(p, w);
      acts := RestartCompletes(p, w);
    }
  }

  lemma SaysEnough(p: Plan, w: World)
    requires Core(p, w) && Pending(w.stage) && Recovers(p, w.disk, w.stage, w.journal)
    requires !(w.stage.Publishing? && w.disk.tgtDir.None? && w.journal.how.Rename? && !Vacant(w.disk))
    ensures Resumable(p, w.disk, w.stage, w.journal)
  {
    if w.stage.Copying? { CopyingExact(p, w.disk, w.journal); }
    else if w.stage.Cleanup? { CleanupExact(p, w.disk, w.journal); }
    else if w.stage.Publishing? {
      if w.disk.tgtDir.Some? { LandedExact(p, w.disk, w.journal); }
      else if w.journal.how.Copy? { PublishingExact(p, w.disk, w.journal); }
    }
  }

  /**
   * From the start of an operation, after any run at all, stale writes by any number of commands
   * included, let the process stop. A restart can complete the move if and only if row and disk
   * meet the condition of their stage at that moment.
   */
  lemma CrashExact(p: Plan, w: World, acts: seq<Act>)
    requires Init(p, w) && Pristine(w.journal, w.disk) && w.captured == {} && Pending(Run(p, w, acts).stage)
    ensures var v := Run(p, w, acts);
            Completable(p, Do(p, v, Crash)) <==> Recovers(p, v.disk, v.stage, v.journal)
  {
    RunTruthful(p, w, acts);
    var v := Run(p, w, acts);
    StepTruthful(p, v, Crash);
    var u := Do(p, v, Crash);
    if Recovers(p, v.disk, v.stage, v.journal) {
      var more := GoesOn(p, u);
      assert Run(p, u, more).stage.Completed?;
    } else {
      var k := StopsThere(p, u);
      forall more ensures !Run(p, u, more).stage.Completed? { StuckForever(p, u, k, more); }
    }
  }

  /**
   * In particular for one stale write: a command writes its captured journal back, the worker goes
   * on in any way that does not write the row, and the process stops. What counts is the disk at
   * the stop, not at the write.
   */
  lemma StaleWriteExact(p: Plan, w: World, acts: seq<Act>, c: Command, mid: seq<Act>)
    requires Init(p, w) && Pristine(w.journal, w.disk) && w.captured == {}
    requires var v := Run(p, w, acts);
             c in v.captured && Target(c) == Some(c.stage) && c.stage == v.stage && Pending(v.stage)
    requires var u := Run(p, Run(p, w, acts + [Submit(c)]), mid); u.stage == c.stage && u.journal == c.journal
    ensures var u := Run(p, Run(p, w, acts + [Submit(c)]), mid);
            Completable(p, Do(p, u, Crash)) <==> Recovers(p, u.disk, c.stage, c.journal)
  {
    RunConcat(p, w, acts + [Submit(c)], mid);
    CrashExact(p, w, acts + [Submit(c)] + mid);
  }

  // ------------------------------------------------------------------ three runs that nothing completes

  function Example(folders: bool, crosses: bool): Plan {
    Plan(0, map[0 := File(1, [7])], folders, crosses)
  }

  /** The planned journal: nothing staged, nothing removed. */
  function Fresh(how: Method): Journal {
    Journal(how, None, map[], false, None, {})
  }

  function Before(how: Method): World {
    World(Disk(Some(0), None, None, None, map[0 := File(1, [7])], map[], map[], map[], false, 2),
          Planned, Fresh(how), false, false, None, {}, false, map[0 := [7]])
  }

  function Entering(how: Method, stage: Stage): World {
    Before(how).(stage := stage, worker := Some(Worker(stage, Fresh(how), Entered, true)))
  }

  function Applied(how: Method): seq<Act> {
    [Capture(Apply), Submit(Command(Apply, Planned, Fresh(how)))] + [Start, Queue]
  }

  function Readied(): seq<Act> {
    [Detach, Prepare] + [CheckSource, Begin]
  }

  lemma ReachesWaiting(p: Plan, how: Method)
    ensures Run(p, Before(how), Applied(how)) == Entering(how, WaitingReaders)
  {
    RunFour(p, Before(how), Capture(Apply), Submit(Command(Apply, Planned, Fresh(how))), Start, Queue);
  }

  lemma ReachesWork(folders: bool, crosses: bool, how: Method)
    ensures Run(Example(folders, crosses), Entering(how, WaitingReaders), Readied())
         == Entering(how, if how.Rename? then Publishing else Copying)
  {
    RunFour(Example(folders, crosses), Entering(how, WaitingReaders), Detach, Prepare, CheckSource, Begin);
  }

  /** Both stretches together, from the planned operation to its first stage of work. */
  lemma Started(folders: bool, crosses: bool, how: Method)
    ensures Run(Example(folders, crosses), Before(how), Applied(how) + Readied())
         == Entering(how, if how.Rename? then Publishing else Copying)
  {
    ReachesWaiting(Example(folders, crosses), how);
    ReachesWork(folders, crosses, how);
    RunConcat(Example(folders, crosses), Before(how), Applied(how), Readied());
  }

  /** A run from the start that ends where the row does not name what the disk holds is lost when it stops. */
  lemma EndsLost(folders: bool, crosses: bool, how: Method, acts: seq<Act>)
    requires var v := Run(Example(folders, crosses), Before(how), acts);
             Pending(v.stage) && !Recovers(Example(folders, crosses), v.disk, v.stage, v.journal)
    ensures var p := Example(folders, crosses); !Completable(p, Do(p, Run(p, Before(how), acts), Crash))
  {
    CrashExact(Example(folders, crosses), Before(how), acts);
  }

  // A retry captured as copying begins, put back once the staging directory is not empty.

  const STALE := Command(Retry, Copying, Journal(Copy, None, map[], false, None, {}))

  function Opening(): seq<Act> {
    [Capture(Retry), CheckSource] + [EnsureStaging, OpenStaging]
  }

  function AtOpened(): World {
    var j := Fresh(Copy).(stgId := Some(2));
    Entering(Copy, Copying).(disk := Before(Copy).disk.(stgDir := Some(2), next := 3), journal := j,
                             captured := {STALE}, worker := Some(Worker(Copying, j, Opened, true)))
  }

  lemma OpeningGoes(folders: bool, crosses: bool)
    ensures Run(Example(folders, crosses), Entering(Copy, Copying), Opening()) == AtOpened()
  {
    var p := Example(folders, crosses);
    RunFour(p, Entering(Copy, Copying), Capture(Retry), CheckSource, EnsureStaging, OpenStaging);
  }

  lemma ReachesOpened(folders: bool, crosses: bool)
    ensures Run(Example(folders, crosses), Before(Copy), (Applied(Copy) + Readied()) + Opening()) == AtOpened()
  {
    Started(folders, crosses, Copy);
    OpeningGoes(folders, crosses);
    RunConcat(Example(folders, crosses), Before(Copy), Applied(Copy) + Readied(), Opening());
  }

  lemma FileInTheWay()
    ensures var v := Do(Example(false, false), Do(Example(false, false), AtOpened(), CreateCopy(0)), Submit(STALE));
            v.stage.Copying? && v.journal == STALE.journal && 0 in v.disk.stg
  {
  }

  lemma FolderInTheWay()
    ensures var v := Do(Example(true, false), Do(Example(true, false), AtOpened(), MakeFolders), Submit(STALE));
            v.stage.Copying? && v.journal == STALE.journal && v.disk.folders
  {
  }

  /** One staged file, still empty, that the row does not know of. */
  lemma StaleRetryExample()
    ensures var p := Example(false, false);
            var acts := ((Applied(Copy) + Readied()) + Opening()) + [CreateCopy(0), Submit(STALE)];
            !Completable(p, Do(p, Run(p, Before(Copy), acts), Crash))
  {
    var p := Example(false, false);
    ReachesOpened(false, false);
    FileInTheWay();
    RunTwo(p, AtOpened(), CreateCopy(0), Submit(STALE));
    RunConcat(p, Before(Copy), (Applied(Copy) + Readied()) + Opening(), [CreateCopy(0), Submit(STALE)]);
    EndsLost(false, false, Copy, ((Applied(Copy) + Readied()) + Opening()) + [CreateCopy(0), Submit(STALE)]);
  }

  /** A directory below staging is enough, before any file exists. */
  lemma StaleFolderExample()
    ensures var p := Example(true, false);
            var acts := ((Applied(Copy) + Readied()) + Opening()) + [MakeFolders, Submit(STALE)];
            !Completable(p, Do(p, Run(p, Before(Copy), acts), Crash))
  {
    var p := Example(true, false);
    ReachesOpened(true, false);
    FolderInTheWay();
    RunTwo(p, AtOpened(), MakeFolders, Submit(STALE));
    RunConcat(p, Before(Copy), (Applied(Copy) + Readied()) + Opening(), [MakeFolders, Submit(STALE)]);
    EndsLost(true, false, Copy, ((Applied(Copy) + Readied()) + Opening()) + [MakeFolders, Submit(STALE)]);
  }

  // A retry captured while the row said rename, put back after the rename crossed devices and copying began.

  const RENAMING := Command(Retry, Publishing, Journal(Rename, None, map[], false, None, {}))

  function FallingBack(): seq<Act> {
    [Capture(Retry), CheckReady] + [FallBack, CheckSource]
  }

  function Copied(): seq<Act> {
    [EnsureStaging, OpenStaging] + [CreateCopy(0), Submit(RENAMING)]
  }

  function FellBack(): World {
    Entering(Copy, Publishing).(captured := {RENAMING}, worker := Some(Worker(Publishing, Fresh(Copy), Checked, true)))
  }

  lemma ReachesFallBack()
    ensures Run(Example(false, true), Entering(Rename, Publishing), FallingBack()) == FellBack()
  {
    RunFour(Example(false, true), Entering(Rename, Publishing), Capture(Retry), CheckReady, FallBack, CheckSource);
  }

  lemma CopyInTheWay()
    ensures var v := Run(Example(false, true), FellBack(), Copied());
            v.stage.Publishing? && v.journal == RENAMING.journal && 0 in v.disk.stg && v.disk.tgtDir.None?
  {
    var p := Example(false, true);
    StagesAgain();
    CreatesAndReturns();
    RunTwo(p, FellBack(), EnsureStaging, OpenStaging);
    RunTwo(p, Restaged(), CreateCopy(0), Submit(RENAMING));
    RunConcat(p, FellBack(), [EnsureStaging, OpenStaging], [CreateCopy(0), Submit(RENAMING)]);
  }

  function Restaged(): World {
    var j := Fresh(Copy).(stgId := Some(2));
    FellBack().(disk := FellBack().disk.(stgDir := Some(2), next := 3), journal := j,
                worker := Some(Worker(Publishing, j, Opened, true)))
  }

  lemma StagesAgain()
    ensures Do(Example(false, true), Do(Example(false, true), FellBack(), EnsureStaging), OpenStaging) == Restaged()
  {
  }

  lemma CreatesAndReturns()
    ensures var v := Do(Example(false, true), Do(Example(false, true), Restaged(), CreateCopy(0)), Submit(RENAMING));
            v.stage.Publishing? && v.journal == RENAMING.journal && 0 in v.disk.stg && v.disk.tgtDir.None?
  {
  }

  lemma StaleRenameExample()
    ensures var p := Example(false, true);
            var acts := (Applied(Rename) + Readied()) + (FallingBack() + Copied());
            !Completable(p, Do(p, Run(p, Before(Rename), acts), Crash))
  {
    var p := Example(false, true);
    Started(false, true, Rename);
    ReachesFallBack();
    CopyInTheWay();
    RunConcat(p, Entering(Rename, Publishing), FallingBack(), Copied());
    RunConcat(p, Before(Rename), Applied(Rename) + Readied(), FallingBack() + Copied());
    EndsLost(false, true, Rename, (Applied(Rename) + Readied()) + (FallingBack() + Copied()));
  }

  // The same worker can undo a harmless write: a retry captured after the staging identity is durable,
  // put back when the only copy is still empty, and then one byte copied.

  const LATE := Command(Retry, Copying, Journal(Copy, Some(2), map[], false, None, {}))

  function EmptyCopy(): World {
    AtOpened().(disk := AtOpened().disk.(stg := map[0 := File(3, [])], next := 4), captured := {STALE},
                worker := Some(Worker(Copying, AtOpened().journal.(copies := map[0 := 3]), Opened, true)))
  }

  lemma ReachesEmptyCopy()
    ensures Run(Example(false, false), AtOpened(), [Capture(Retry), CreateCopy(0)] + [Persist, Submit(LATE)])
         == EmptyCopy()
  {
    RunFour(Example(false, false), AtOpened(), Capture(Retry), CreateCopy(0), Persist, Submit(LATE));
    assert {STALE} + {LATE} - {LATE} == {STALE};
  }

  /** The condition holds when the retry is written and no longer after the worker's next write. */
  lemma LaterWriteMatters()
    ensures Recovers(Example(false, false), EmptyCopy().disk, Copying, EmptyCopy().journal)
    ensures var u := Do(Example(false, false), EmptyCopy(), AppendCopy(0, 1));
            u.journal == LATE.journal && !Recovers(Example(false, false), u.disk, Copying, u.journal)
  {
    var u := Do(Example(false, false), EmptyCopy(), AppendCopy(0, 1));
    assert MayWrite(EmptyCopy(), 0);
    assert 0 in u.disk.stg && u.disk.stg[0].data != [] && 0 !in LATE.journal.copies;
  }
}
