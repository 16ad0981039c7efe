/**
 * Recovery of an interrupted move. When no command writes a stale journal, the durable row and
 * the disk agree at every crash point, so a restart can always carry the operation to completion.
 */
module StorageRecovery {
  import opened StorageMove
  import opened Wrappers

  // ------------------------------------------------------------------ what the row says about the disk

  predicate SourceIntact(p: Plan, d: Disk) {
    TreeMatches(p, d.srcDir, d.src)
  }

  /** Nothing was copied or cleaned up yet. */
  predicate Pristine(j: Journal, d: Disk) {
    j.stgId.None? && j.copies == map[] && !j.complete && Vacant(d) && Uncleaned(j, d)
  }

  predicate Uncleaned(j: Journal, d: Disk) {
    j.clnId.None? && j.removed == {} && d.clnDir.None? && d.qua == map[]
  }

  /** Staged files are prefixes of the source, and only those whose identity is recorded have bytes. */
  predicate Staging(p: Plan, j: Journal, d: Disk) {
    && (if j.stgId.Some? then d.stgDir == j.stgId else Vacant(d) && j.copies == map[])
    && (forall i :: i in d.stg ==>
          i in p.files && d.stg[i].data <= p.files[i].data && (i !in j.copies ==> d.stg[i].data == []))
    && (forall i :: i in j.copies ==> i in p.files && i in d.stg && d.stg[i].id == j.copies[i])
  }

  /** The target is this operation's directory and the place it came from is gone. */
  predicate Landed(p: Plan, j: Journal, d: Disk) {
    TargetMatches(p, j, d) && if j.how.Rename? then d.srcDir.None? else d.stgDir.None?
  }

  /** What is left below the source is unchanged, and nothing recorded as removed is there. */
  predicate Cleaning(p: Plan, j: Journal, d: Disk) {
    && (forall i :: i in d.src ==> i in p.files && d.src[i] == p.files[i] && i !in j.removed)
    && (forall i :: i in d.qua ==> i in p.files && d.qua[i] == p.files[i] && i !in j.removed && i !in d.src)
  }

  predicate CleanupDirectory(p: Plan, j: Journal, d: Disk) {
    && (d.clnDir.None? ==> d.qua == map[])
    && (j.clnId.None? && d.clnDir.Some? ==> !AllRemoved(p, j))
    && if j.clnId.None? then d.qua == map[] else d.clnDir == j.clnId || (d.clnDir.None? && AllRemoved(p, j))
  }

  predicate Resumable(p: Plan, d: Disk, stage: Stage, j: Journal) {
    match stage
    case Planned => Pristine(j, d)
    case Queued => Pristine(j, d)
    case WaitingReaders => Pristine(j, d)
    case Prepared => Pristine(j, d)
    case Copying => j.how.Copy? && !j.complete && SourceIntact(p, d) && Staging(p, j, d) && Uncleaned(j, d)
    case Publishing =>
      && Uncleaned(j, d)
      && (if d.tgtDir.Some? then Landed(p, j, d) && (j.how.Copy? && d.srcDir.Some? ==> SourceIntact(p, d))
          else SourceIntact(p, d) && (j.how.Rename? ==> Pristine(j, d))
               && (j.how.Copy? ==> Staging(p, j, d) && (j.complete ==> CopiesMatch(p, j, d.stgDir, d.stg))))
    case Published => Uncleaned(j, d) && Landed(p, j, d) && (j.how.Copy? && d.srcDir.Some? ==> SourceIntact(p, d))
    case Committed => Uncleaned(j, d) && Landed(p, j, d) && (j.how.Copy? && d.srcDir.Some? ==> SourceIntact(p, d))
    case Cleanup =>
      TargetMatches(p, j, d) && (j.how.Rename? ==> d.srcDir.None?)
      && (j.how.Copy? && d.srcDir.Some? ==> d.srcDir == Some(p.srcId) && Cleaning(p, j, d) && CleanupDirectory(p, j, d))
    case _ => true
  }

  /** The worker's journal extends the durable one, and equals it whenever it was saved. */
  predicate Tracks(p: Plan, x: Worker, d: Disk, j: Journal) {
    && (x.saved ==> x.journal == j)
    && (!x.saved ==> x.stage.Copying? || x.stage.Publishing? || x.stage.Cleanup?)
    && (x.stage.Prepared? && x.at.Checked? ==> SourceIntact(p, d) && d.tgtDir.None?)
    && (x.stage.Copying? || x.stage.Publishing? ==> TracksCopy(p, x, d, j))
    && (x.stage.Cleanup? ==> TracksCleanup(p, x, d, j))
  }

  predicate TracksCopy(p: Plan, x: Worker, d: Disk, j: Journal) {
    && x.journal.how == j.how && x.journal.complete == j.complete
    && x.journal.clnId == j.clnId && x.journal.removed == j.removed
    && (!x.saved ==>
          d.tgtDir.None? && j.how.Copy? && !j.complete && Staging(p, x.journal, d) && !x.at.Ready? && !x.at.Settled?)
    && (x.at.Ready? && j.how.Copy? ==> CopiesMatch(p, j, d.stgDir, d.stg))
    && (x.at.Ready? ==> d.tgtDir.None? && SourceIntact(p, d))
    && (x.at.Opened? ==> j.stgId.Some?) && (j.stgId.Some? ==> x.journal.stgId == j.stgId)
    && (x.at.Settled? ==> x.stage.Publishing? && d.tgtDir.Some?)
  }

  predicate TracksCleanup(p: Plan, x: Worker, d: Disk, j: Journal) {
    && x.journal == j.(clnId := x.journal.clnId, removed := x.journal.removed)
    && (d.srcDir.Some? && j.how.Copy? ==> Cleaning(p, x.journal, d))
    && j.removed <= x.journal.removed && (x.journal.clnId.None? ==> x.journal.removed == j.removed)
    && (x.at.Opened? ==> x.journal.clnId.Some? || AllRemoved(p, x.journal))
         && (j.clnId.Some? || x.at.Opened? ==> x.journal.clnId == j.clnId)
    && (x.journal.clnId.Some? && j.clnId.None? ==> x.journal.clnId == d.clnDir)
    && (x.at.Settled? ==> d.srcDir.None?)
  }

  /** The row agrees with the disk, and a worker that is at the row's stage agrees with the row. */
  predicate Agrees(p: Plan, w: World) {
    && Resumable(p, w.disk, w.stage, w.journal)
    && (w.worker.Some? && w.worker.value.stage == w.stage && !w.stage.CancelRequested? ==>
          Tracks(p, w.worker.value, w.disk, w.journal))
  }

  predicate Sound(p: Plan, w: World) {
    Safe(p, w) && Agrees(p, w)
  }

  predicate Coupled(w: World) {
    w.worker.Some? ==> InStep(w.worker.value, w.stage)
  }

  /** A command that takes effect writes back the journal it finds, unless it cancels. */
  predicate Current(w: World, a: Act) {
    a.Submit? && !a.cmd.kind.Cancel? && a.cmd.stage == w.stage ==> a.cmd.journal == w.journal
  }

  // ------------------------------------------------------------------ every current step keeps it

  lemma OutsideAgrees(p: Plan, w: World, a: Act)
    requires Coupled(w) && Agrees(p, w)
             && (a.Crash? || a.Attach? || a.Capture? || a.Submit? || a.Start? || a.Stop? || a.FinishCancel?)
    requires Current(w, a)
    ensures Agrees(p, Do(p, w, a))
  {
  }

  lemma PrepareAgrees(p: Plan, w: World, a: Act)
    requires Coupled(w) && Agrees(p, w) && (a.Queue? || a.Detach? || a.Prepare? || a.CheckSource? || a.Begin?)
    ensures Agrees(p, Do(p, w, a))
  {
  }

  lemma StagingOpened(p: Plan, j: Journal, d: Disk, id: nat, next: nat)
    requires Staging(p, j, d) && j.stgId.None?
    ensures Staging(p, j, d.(stgDir := Some(id), next := next))
    ensures Staging(p, j.(stgId := Some(id)), d.(stgDir := Some(id), next := next))
  {
  }

  lemma StagingCreated(p: Plan, j: Journal, d: Disk, i: nat, id: nat, next: nat)
    requires Staging(p, j, d) && j.stgId.Some? && i in p.files && i !in d.stg
    ensures Staging(p, j, d.(stg := d.stg[i := File(id, [])], next := next))
    ensures Staging(p, j.(copies := j.copies[i := id]), d.(stg := d.stg[i := File(id, [])], next := next))
  {
  }

  lemma StagingAdopted(p: Plan, j: Journal, d: Disk, i: nat)
    requires Staging(p, j, d) && j.stgId.Some? && i in d.stg && d.stg[i].data == []
    ensures Staging(p, j.(copies := j.copies[i := d.stg[i].id]), d)
  {
  }

  lemma StagingWritten(p: Plan, j: Journal, d: Disk, i: nat, data: Data)
    requires Staging(p, j, d) && i in j.copies && i in p.files && data <= p.files[i].data
    ensures Staging(p, j, d.(stg := d.stg[i := d.stg[i].(data := data)]))
  {
  }

  /** The worker notes a new identity in memory while the disk stays a valid staging area for both journals. */
  lemma NotedAgrees(p: Plan, w: World, d: Disk, x: Worker)
    requires Coupled(w) && Agrees(p, w) && Copies(w) && w.stage == w.worker.value.stage
    requires d == w.disk.(stgDir := d.stgDir, stg := d.stg, folders := d.folders, next := d.next)
    requires x == w.worker.value.(journal := x.journal, saved := false) && (x.at.Checked? || x.at.Opened?)
    requires x.journal == w.worker.value.journal.(stgId := x.journal.stgId, copies := x.journal.copies)
    requires w.worker.value.journal.stgId.Some? ==> x.journal.stgId == w.worker.value.journal.stgId
    requires Staging(p, w.journal, d) && Staging(p, x.journal, d)
    ensures Agrees(p, w.(disk := d, worker := Some(x)))
  {
  }

  lemma BothStaging(p: Plan, w: World)
    requires Agrees(p, w) && Copies(w) && w.stage == w.worker.value.stage
    ensures Staging(p, w.journal, w.disk) && Staging(p, w.worker.value.journal, w.disk)
    ensures w.worker.value.journal.stgId.None? ==> w.journal.stgId.None?
  {
  }

  lemma EnsureStagingAgrees(p: Plan, w: World)
    requires Coupled(w) && Agrees(p, w)
    ensures Agrees(p, DoEnsureStaging(w))
  {
    var w' := DoEnsureStaging(w);
    if w' != w && w.stage == w.worker.value.stage {
      BothStaging(p, w);
      StagingOpened(p, w.journal, w.disk, w'.disk.stgDir.value, w'.disk.next);
      StagingOpened(p, w.worker.value.journal, w.disk, w'.disk.stgDir.value, w'.disk.next);
      NotedAgrees(p, w, w'.disk, w'.worker.value);
    }
  }

  lemma OpenStagingAgrees(p: Plan, w: World)
    requires Coupled(w) && Agrees(p, w)
    ensures Agrees(p, DoOpenStaging(w))
  {
  }

  lemma MakeFoldersAgrees(p: Plan, w: World)
    requires Coupled(w) && Agrees(p, w)
    ensures Agrees(p, DoMakeFolders(p, w))
  {
    if DoMakeFolders(p, w) != w && w.stage == w.worker.value.stage { BothStaging(p, w); }
  }

  lemma PersistAgrees(p: Plan, w: World)
    requires Coupled(w) && Agrees(p, w)
    ensures Agrees(p, DoPersist(w))
  {
  }

  lemma CreateCopyAgrees(p: Plan, w: World, i: nat)
    requires Coupled(w) && Agrees(p, w)
    ensures Agrees(p, DoCreateCopy(p, w, i))
  {
    if DoCreateCopy(p, w, i) != w && w.stage == w.worker.value.stage {
      if i !in w.disk.stg {
        StagingCreated(p, w.journal, w.disk, i, w.disk.next, w.disk.next + 1);
        StagingCreated(p, w.worker.value.journal, w.disk, i, w.disk.next, w.disk.next + 1);
      } else {
        StagingAdopted(p, w.worker.value.journal, w.disk, i);
      }
    }
  }

  lemma WriteCopyAgrees(p: Plan, w: World, i: nat, data: Data)
    requires Coupled(w) && Agrees(p, w) && MayWrite(w, i) && i in p.files && data <= p.files[i].data
    ensures Agrees(p, w.(disk := w.disk.(stg := w.disk.stg[i := w.disk.stg[i].(data := data)])))
  {
    if w.stage == w.worker.value.stage { StagingWritten(p, w.journal, w.disk, i, data); }
  }

  lemma VerifyAgrees(p: Plan, w: World, a: Act)
    requires Coupled(w) && Agrees(p, w) && (a.VerifyCopies? || a.FinishCopying? || a.SaveComplete? || a.FallBack?)
    ensures Agrees(p, Do(p, w, a))
  {
  }

  lemma CheckReadyAgrees(p: Plan, w: World)
    requires Coupled(w) && Agrees(p, w)
    ensures Agrees(p, DoCheckReady(p, w))
  {
  }

  lemma RenamedAgrees(p: Plan, w: World)
    requires Coupled(w) && Agrees(p, w) && Running(w, Publishing) && w.worker.value.journal.how.Rename?
    ensures Agrees(p, DoMoveDirectory(p, w))
  {
  }

  lemma PublishedAgrees(p: Plan, w: World)
    requires Coupled(w) && Agrees(p, w) && Running(w, Publishing) && w.worker.value.journal.how.Copy?
    ensures Agrees(p, DoMoveDirectory(p, w))
  {
  }

  lemma MoveDirectoryAgrees(p: Plan, w: World)
    requires Coupled(w) && Agrees(p, w)
    ensures Agrees(p, DoMoveDirectory(p, w))
  {
    if Running(w, Publishing) {
      if w.worker.value.journal.how.Rename? { RenamedAgrees(p, w); } else { PublishedAgrees(p, w); }
    }
  }

  lemma FoundTargetAgrees(p: Plan, w: World)
    requires Coupled(w) && Agrees(p, w)
    ensures Agrees(p, DoFoundTarget(p, w))
  {
  }

  lemma PublishAgrees(p: Plan, w: World, a: Act)
    requires Coupled(w) && Agrees(p, w) && (a.ToPublished? || a.Commit? || a.ToCleanup?)
    ensures Agrees(p, Do(p, w, a))
  {
  }

  lemma CleaningMarked(p: Plan, j: Journal, d: Disk, i: nat)
    requires Cleaning(p, j, d) && i !in d.src && i !in d.qua
    ensures Cleaning(p, j.(removed := j.removed + {i}), d)
  {
  }

  lemma CleaningUnlinked(p: Plan, j: Journal, d: Disk, i: nat)
    requires Cleaning(p, j, d) && i in d.qua
    ensures Cleaning(p, j, d.(qua := d.qua - {i}))
    ensures Cleaning(p, j.(removed := j.removed + {i}), d.(qua := d.qua - {i}))
  {
  }

  lemma CleaningQuarantined(p: Plan, j: Journal, d: Disk, i: nat)
    requires Cleaning(p, j, d) && i in d.src
    ensures Cleaning(p, j, d.(src := d.src - {i}, qua := d.qua[i := d.src[i]]))
  {
  }

  lemma CheckTargetAgrees(p: Plan, w: World)
    requires Coupled(w) && Agrees(p, w)
    ensures Agrees(p, DoCheckTarget(p, w))
  {
  }

  /** The worker notes the cleanup directory in memory; the quarantine is still empty. */
  lemma CleanupNotedAgrees(p: Plan, w: World, d: Disk, x: Worker)
    requires Coupled(w) && Agrees(p, w) && Cleans(p, w) && w.worker.value.journal.clnId.None? && w.disk.qua == map[]
    requires !AllRemoved(p, w.worker.value.journal)
    requires d == w.disk.(clnDir := d.clnDir, next := d.next) && d.clnDir.Some?
    requires x == w.worker.value.(journal := w.worker.value.journal.(clnId := d.clnDir), saved := false)
    ensures Agrees(p, w.(disk := d, worker := Some(x)))
  {
  }

  lemma EnsureCleanupAgrees(p: Plan, w: World)
    requires Coupled(w) && Agrees(p, w)
    ensures Agrees(p, DoEnsureCleanup(p, w))
  {
    var w' := DoEnsureCleanup(p, w);
    if w' != w { CleanupNotedAgrees(p, w, w'.disk, w'.worker.value); }
  }

  lemma OpenCleanupAgrees(p: Plan, w: World)
    requires Coupled(w) && Agrees(p, w)
    ensures Agrees(p, DoOpenCleanup(p, w))
  {
  }

  lemma QuarantineAgrees(p: Plan, w: World, i: nat)
    requires Coupled(w) && Agrees(p, w)
    ensures Agrees(p, DoQuarantine(p, w, i))
  {
    if DoQuarantine(p, w, i) != w {
      CleaningQuarantined(p, w.journal, w.disk, i);
      CleaningQuarantined(p, w.worker.value.journal, w.disk, i);
    }
  }

  lemma UnlinkAgrees(p: Plan, w: World, i: nat)
    requires Coupled(w) && Agrees(p, w)
    ensures Agrees(p, DoUnlink(p, w, i))
  {
    if DoUnlink(p, w, i) != w {
      CleaningUnlinked(p, w.journal, w.disk, i);
      CleaningUnlinked(p, w.worker.value.journal, w.disk, i);
    }
  }

  lemma MarkGoneAgrees(p: Plan, w: World, i: nat)
    requires Coupled(w) && Agrees(p, w)
    ensures Agrees(p, DoMarkGone(p, w, i))
  {
    if DoMarkGone(p, w, i) != w { CleaningMarked(p, w.worker.value.journal, w.disk, i); }
  }

  lemma CompleteAgrees(p: Plan, w: World, a: Act)
    requires Coupled(w) && Agrees(p, w) && (a.RemoveCleanup? || a.RemoveSource? || a.Complete?)
    ensures Agrees(p, Do(p, w, a))
  {
  }

  lemma WriteAgrees(p: Plan, w: World, a: Act)
    requires Safe(p, w) && Agrees(p, w) && a.Write?
    ensures Agrees(p, Do(p, w, a))
  {
  }

  lemma FillAgrees(p: Plan, w: World, a: Act)
    requires Coupled(w) && Agrees(p, w) && (a.TruncateCopy? || a.AppendCopy?)
    ensures Agrees(p, Do(p, w, a))
  {
    if Do(p, w, a) != w && w.stage == w.worker.value.stage {
      assert SourceIntact(p, w.disk);
      WriteCopyAgrees(p, w, a.i, Do(p, w, a).disk.stg[a.i].data);
    }
  }

  lemma CopyAgrees(p: Plan, w: World, a: Act)
    requires Coupled(w) && Agrees(p, w)
    requires || a.EnsureStaging? || a.OpenStaging? || a.MakeFolders? || a.Persist?
             || a.CreateCopy? || a.TruncateCopy? || a.AppendCopy?
    ensures Agrees(p, Do(p, w, a))
  {
    if a.EnsureStaging? { EnsureStagingAgrees(p, w); }
    else if a.OpenStaging? { OpenStagingAgrees(p, w); }
    else if a.MakeFolders? { MakeFoldersAgrees(p, w); }
    else if a.Persist? { PersistAgrees(p, w); }
    else if a.CreateCopy? { CreateCopyAgrees(p, w, a.i); }
    else { FillAgrees(p, w, a); }
  }

  lemma MoveAgrees(p: Plan, w: World, a: Act)
    requires Coupled(w) && Agrees(p, w) && (a.CheckReady? || a.MoveDirectory? || a.FoundTarget?)
    ensures Agrees(p, Do(p, w, a))
  {
    if a.CheckReady? { CheckReadyAgrees(p, w); }
    else if a.MoveDirectory? { MoveDirectoryAgrees(p, w); }
    else { FoundTargetAgrees(p, w); }
  }

  lemma CleanupAgrees(p: Plan, w: World, a: Act)
    requires Coupled(w) && Agrees(p, w) && (a.CheckTarget? || a.EnsureCleanup? || a.OpenCleanup?)
    ensures Agrees(p, Do(p, w, a))
  {
    if a.CheckTarget? { CheckTargetAgrees(p, w); }
    else if a.EnsureCleanup? { EnsureCleanupAgrees(p, w); }
    else { OpenCleanupAgrees(p, w); }
  }

  lemma RemoveAgrees(p: Plan, w: World, a: Act)
    requires Coupled(w) && Agrees(p, w) && (a.Quarantine? || a.Unlink? || a.MarkGone?)
    ensures Agrees(p, Do(p, w, a))
  {
    if a.Quarantine? { QuarantineAgrees(p, w, a.i); }
    else if a.Unlink? { UnlinkAgrees(p, w, a.i); }
    else { MarkGoneAgrees(p, w, a.i); }
  }

  lemma StepSound(p: Plan, w: World, a: Act)
    requires Sound(p, w) && Current(w, a)
    ensures Sound(p, Do(p, w, a))
  {
    StepSafe(p, w, a);
    if a.Crash? || a.Attach? || a.Capture? || a.Submit? || a.Start? || a.Stop? || a.FinishCancel? {
      OutsideAgrees(p, w, a);
    }
    else if a.Write? { WriteAgrees(p, w, a); }
    else if a.Queue? || a.Detach? || a.Prepare? || a.CheckSource? || a.Begin? { PrepareAgrees(p, w, a); }
    else if a.EnsureStaging? || a.OpenStaging? || a.MakeFolders? || a.Persist?
            || a.CreateCopy? || a.TruncateCopy? || a.AppendCopy? {
      CopyAgrees(p, w, a);
    }
    else if a.VerifyCopies? || a.FinishCopying? || a.SaveComplete? || a.FallBack? { VerifyAgrees(p, w, a); }
    else if a.ToPublished? || a.Commit? || a.ToCleanup? { PublishAgrees(p, w, a); }
    else if a.RemoveCleanup? || a.RemoveSource? || a.Complete? { CompleteAgrees(p, w, a); }
    else if a.CheckReady? || a.MoveDirectory? || a.FoundTarget? { MoveAgrees(p, w, a); }
    else if a.CheckTarget? || a.EnsureCleanup? || a.OpenCleanup? { CleanupAgrees(p, w, a); }
    else { RemoveAgrees(p, w, a); }
  }

  predicate AllCurrent(p: Plan, w: World, acts: seq<Act>)
    decreases |acts|
  {
    acts == [] || (Current(w, acts[0]) && AllCurrent(p, Do(p, w, acts[0]), acts[1..]))
  }

  lemma {:induction false} RunSound(p: Plan, w: World, acts: seq<Act>)
    requires Sound(p, w) && AllCurrent(p, w, acts)
    ensures Sound(p, Run(p, w, acts))
    decreases |acts|
  {
    if acts != [] {
      StepSound(p, w, acts[0]);
      RunSound(p, Do(p, w, acts[0]), acts[1..]);
    }
  }

  // ------------------------------------------------------------------ a restart completes

  lemma {:induction false} RunConcat(p: Plan, w: World, a: seq<Act>, b: seq<Act>)
    ensures Run(p, w, a + b) == Run(p, Run(p, w, a), b)
    decreases |a|
  {
    if a == [] {
      assert a + b == b;
    } else {
      assert (a + b)[1..] == a[1..] + b;
      RunConcat(p, Do(p, w, a[0]), a[1..], b);
    }
  }

  lemma RunOne(p: Plan, w: World, a: Act, rest: seq<Act>)
    ensures Run(p, w, [a] + rest) == Run(p, Do(p, w, a), rest)
  {
    assert ([a] + rest)[1..] == rest;
  }

  /** The worker is at the row's stage with the row's journal. */
  predicate Restarted(p: Plan, w: World, stage: Stage) {
    Sound(p, w) && w.stage == stage && w.worker == Some(Worker(stage, w.journal, Entered, true))
  }

  /** The removal loop, with the files not yet recorded as removed. */
  predicate Sweeping(p: Plan, w: World, todo: set<nat>) {
    && w.stage.Cleanup? && Removing(p, w)
    && todo == p.files.Keys - w.worker.value.journal.removed
    && (todo != {} ==> w.disk.clnDir.Some? && w.worker.value.journal.clnId == w.disk.clnDir)
  }

  /** What the invariant says about an entry still in the loop. */
  lemma SweepFacts(p: Plan, w: World, todo: set<nat>, i: nat)
    requires Agrees(p, w) && Sweeping(p, w, todo) && i in todo
    ensures i in w.disk.src ==> w.disk.src[i] == p.files[i] && i !in w.disk.qua
    ensures i in w.disk.qua ==> MayUnlink(p, w, i)
  {
    assert CopyMatches(p, w.journal, i, w.disk.tgt[i]);
  }

  lemma QuarantineGoes(p: Plan, w: World, todo: set<nat>, i: nat)
    requires Sweeping(p, w, todo) && i in todo && i in w.disk.src && w.disk.src[i] == p.files[i] && i !in w.disk.qua
    ensures Sweeping(p, Do(p, w, Quarantine(i)), todo) && i in Do(p, w, Quarantine(i)).disk.qua
  {
  }

  lemma UnlinkGoes(p: Plan, w: World, todo: set<nat>, i: nat)
    requires Sweeping(p, w, todo) && i in todo && MayUnlink(p, w, i)
    ensures Sweeping(p, Do(p, w, Unlink(i)), todo - {i})
  {
  }

  lemma MarkGoes(p: Plan, w: World, todo: set<nat>, i: nat)
    requires Sweeping(p, w, todo) && i in todo && i !in w.disk.src && i !in w.disk.qua
    ensures Sweeping(p, Do(p, w, MarkGone(i)), todo - {i})
  {
  }

  lemma RunTwo(p: Plan, w: World, a: Act, b: Act)
    ensures Run(p, w, [a, b]) == Do(p, Do(p, w, a), b) && Run(p, w, [a]) == Do(p, w, a)
  {
    RunOne(p, w, a, [b]);
    RunOne(p, Do(p, w, a), b, []);
    RunOne(p, w, a, []);
  }

  /** One entry of the loop: quarantine and unlink it, or note that it is gone. */
  function Sweep(w: World, i: nat): seq<Act> {
    if i in w.disk.src then [Quarantine(i), Unlink(i)] else if i in w.disk.qua then [Unlink(i)] else [MarkGone(i)]
  }

  lemma SweepFirst(p: Plan, w: World, todo: set<nat>, i: nat)
    requires Sound(p, w) && Sweeping(p, w, todo) && i in todo && i in w.disk.src
    ensures var w1 := Do(p, w, Quarantine(i)); Sound(p, w1) && Sweeping(p, w1, todo) && MayUnlink(p, w1, i)
  {
    SweepFacts(p, w, todo, i);
    QuarantineGoes(p, w, todo, i);
    StepSound(p, w, Quarantine(i));
    SweepFacts(p, Do(p, w, Quarantine(i)), todo, i);
  }

  lemma SweepLast(p: Plan, w: World, todo: set<nat>, i: nat)
    requires Sound(p, w) && Sweeping(p, w, todo) && i in todo && MayUnlink(p, w, i)
    ensures Sound(p, Do(p, w, Unlink(i))) && Sweeping(p, Do(p, w, Unlink(i)), todo - {i})
  {
    UnlinkGoes(p, w, todo, i);
    StepSound(p, w, Unlink(i));
  }

  lemma SweepOne(p: Plan, w: World, todo: set<nat>, i: nat)
    requires Sound(p, w) && Sweeping(p, w, todo) && i in todo
    ensures var w' := Run(p, w, Sweep(w, i)); Sound(p, w') && Sweeping(p, w', todo - {i})
  {
    if i in w.disk.src {
      SweepFirst(p, w, todo, i);
      SweepLast(p, Do(p, w, Quarantine(i)), todo, i);
      RunTwo(p, w, Quarantine(i), Unlink(i));
    } else if i in w.disk.qua {
      SweepFacts(p, w, todo, i);
      SweepLast(p, w, todo, i);
      RunTwo(p, w, Unlink(i), Crash);
    } else {
      MarkGoes(p, w, todo, i);
      StepSound(p, w, MarkGone(i));
      RunTwo(p, w, MarkGone(i), Crash);
    }
  }

  lemma {:induction false} SweepAll(p: Plan, w: World, todo: set<nat>) returns (acts: seq<Act>)
    requires Sound(p, w) && Sweeping(p, w, todo)
    ensures Sound(p, Run(p, w, acts)) && Sweeping(p, Run(p, w, acts), {})
    decreases |todo|
  {
    acts := [];
    if todo != {} {
      var i :| i in todo;
      SweepOne(p, w, todo, i);
      var rest := SweepAll(p, Run(p, w, Sweep(w, i)), todo - {i});
      acts := Sweep(w, i) + rest;
      RunConcat(p, w, Sweep(w, i), rest);
    }
  }

  /** cleanupLocation's loop over the entries, run without interruption: it ends with every entry removed. */
  method RemoveEntries(p: Plan, start: World, todo: set<nat>) returns (w: World, ghost trace: seq<Act>)
    requires Sound(p, start) && Sweeping(p, start, todo)
    ensures Sound(p, w) && Sweeping(p, w, {}) && w == Run(p, start, trace)
    ensures w.disk.tgt == start.disk.tgt
  {
    w, trace := start, [];
    var left := todo;
    while left != {}
      invariant Sound(p, w) && Sweeping(p, w, left) && w == Run(p, start, trace) && w.disk.tgt == start.disk.tgt
      decreases |left|
    {
      var i :| i in left;
      SweepOne(p, w, left, i);
      SweepKeepsTarget(p, w, i);
      RunConcat(p, start, trace, Sweep(w, i));
      trace := trace + Sweep(w, i);
      w := Run(p, w, Sweep(w, i));
      left := left - {i};
    }
  }

  lemma RemovalKeepsTarget(p: Plan, w: World, a: Act)
    requires a.Quarantine? || a.Unlink? || a.MarkGone?
    ensures Do(p, w, a).disk.tgt == w.disk.tgt
  {
  }

  lemma SweepKeepsTarget(p: Plan, w: World, i: nat)
    ensures Run(p, w, Sweep(w, i)).disk.tgt == w.disk.tgt
  {
    RemovalKeepsTarget(p, w, Quarantine(i));
    RemovalKeepsTarget(p, Do(p, w, Quarantine(i)), Unlink(i));
    RemovalKeepsTarget(p, w, Unlink(i));
    RemovalKeepsTarget(p, w, MarkGone(i));
    if i in w.disk.src {
      RunTwo(p, w, Quarantine(i), Unlink(i));
    } else if i in w.disk.qua {
      RunTwo(p, w, Unlink(i), Crash);
    } else {
      RunTwo(p, w, MarkGone(i), Crash);
    }
  }

  // ------------------------------------------------------------------ stage by stage

  /** Reached the end: the mapping points at the target and nothing is left at the source. */
  predicate Done(w: World) {
    w.stage.Completed? && w.moved && w.disk.tgtDir.Some? && w.disk.srcDir.None?
  }

  /** With nothing left below the source both directories go and the operation finishes. */
  lemma RemoveDirectories(p: Plan, w: World)
    requires w.stage.Cleanup? && Emptied(p, w) && w.disk.qua == map[] && w.disk.src == map[]
    requires w.moved && w.disk.tgtDir.Some?
    ensures Done(Do(p, Do(p, Do(p, w, RemoveCleanup), RemoveSource), Complete))
  {
    var w1 := w.(disk := w.disk.(clnDir := None));
    var w2 := Advance(w1.(disk := w1.disk.(srcDir := None)), Settled);
    assert Do(p, w, RemoveCleanup) == w1;
    SourceGoes(p, w1);
    FinishGoes(p, w2);
  }

  lemma SourceGoes(p: Plan, w: World)
    requires Emptied(p, w) && w.disk.clnDir.None? && w.disk.src == map[]
    ensures Do(p, w, RemoveSource) == Advance(w.(disk := w.disk.(srcDir := None)), Settled)
  {
  }

  lemma FinishGoes(p: Plan, w: World)
    requires w.stage.Cleanup? && Running(w, Cleanup) && w.worker.value.at.Settled?
    requires w.moved && w.disk.tgtDir.Some? && w.disk.srcDir.None?
    ensures Done(Do(p, w, Complete))
  {
  }

  lemma SweptClean(p: Plan, w: World)
    requires Agrees(p, w) && Sweeping(p, w, {}) && w.worker.value.saved
    ensures Emptied(p, w) && w.disk.qua == map[] && w.disk.src == map[]
  {
    forall i | i in p.files ensures i in w.worker.value.journal.removed {
      assert i !in p.files.Keys - w.worker.value.journal.removed;
    }
    assert w.disk.qua.Keys == {} && w.disk.src.Keys == {};
  }

  lemma PersistSweep(p: Plan, w: World)
    requires Sound(p, w) && Sweeping(p, w, {})
    ensures var w1 := Do(p, w, Persist);
            && w1.stage.Cleanup? && Emptied(p, w1) && w1.disk.qua == map[] && w1.disk.src == map[]
            && w1.moved && w1.disk.tgtDir.Some?
  {
    StepSound(p, w, Persist);
    SweptClean(p, Do(p, w, Persist));
  }

  function Tidy(): seq<Act> {
    [Persist, RemoveCleanup] + [RemoveSource, Complete]
  }

  lemma TidyUp(p: Plan, w: World)
    requires Sound(p, w) && Sweeping(p, w, {})
    ensures Done(Run(p, w, Tidy()))
  {
    PersistSweep(p, w);
    RemoveDirectories(p, Do(p, w, Persist));
    RunFour(p, w, Persist, RemoveCleanup, RemoveSource, Complete);
  }

  lemma RunFour(p: Plan, w: World, a: Act, b: Act, c: Act, d: Act)
    ensures Run(p, w, [a, b] + [c, d]) == Do(p, Do(p, Do(p, Do(p, w, a), b), c), d)
  {
    RunTwo(p, w, a, b);
    RunTwo(p, Do(p, Do(p, w, a), b), c, d);
    RunConcat(p, w, [a, b], [c, d]);
  }

  /** After the target was validated, the cleanup directory can be opened or is no longer needed. */
  lemma OpenGoes(p: Plan, w: World)
    requires Agrees(p, w) && w.stage.Cleanup? && Cleans(p, w) && w.worker.value.saved
    requires AllRemoved(p, w.journal) || w.journal.clnId.Some?
    ensures Sweeping(p, Do(p, w, OpenCleanup), p.files.Keys - w.journal.removed)
  {
    var todo := p.files.Keys - w.journal.removed;
    if todo != {} { var i :| i in todo; assert !AllRemoved(p, w.journal); }
  }

  lemma EnsureStep(p: Plan, w: World)
    requires w.stage.Cleanup? && Cleans(p, w) && !AllRemoved(p, w.worker.value.journal)
    requires w.worker.value.journal.clnId.None? && w.disk.qua == map[]
    ensures var w1 := DoEnsureCleanup(p, w);
            && w1.stage.Cleanup? && Cleans(p, w1) && w1.disk.clnDir.Some?
                 && w1.disk.clnDir == w1.worker.value.journal.clnId
            && w1.worker.value.journal.removed == w.worker.value.journal.removed
  {
  }

  lemma OpenStep(p: Plan, w: World)
    requires w.stage.Cleanup? && Cleans(p, w) && w.disk.clnDir.Some? && w.disk.clnDir == w.worker.value.journal.clnId
    ensures Sweeping(p, Do(p, w, OpenCleanup), p.files.Keys - w.worker.value.journal.removed)
  {
  }

  lemma EnsureGoes(p: Plan, w: World)
    requires Agrees(p, w) && w.stage.Cleanup? && Cleans(p, w) && w.worker.value.saved
    requires !AllRemoved(p, w.journal) && w.journal.clnId.None?
    ensures Sweeping(p, Do(p, Do(p, w, EnsureCleanup), OpenCleanup), p.files.Keys - w.journal.removed)
  {
    EnsureStep(p, w);
    OpenStep(p, Do(p, w, EnsureCleanup));
  }

  lemma TargetChecked(p: Plan, w: World)
    requires Restarted(p, w, Cleanup)
    ensures Do(p, w, CheckTarget) == w.(worker := Some(w.worker.value.(at := Checked)))
    ensures Sound(p, Do(p, w, CheckTarget))
    ensures w.moved && w.disk.tgtDir.Some?
  {
    StepSound(p, w, CheckTarget);
  }

  lemma SweepFromStart(p: Plan, w: World) returns (acts: seq<Act>)
    requires Sound(p, w) && w.stage.Cleanup? && Cleans(p, w) && w.worker.value.saved
    ensures Done(Run(p, w, acts))
  {
    var todo := p.files.Keys - w.journal.removed;
    var opening :=
      if AllRemoved(p, w.journal) || w.journal.clnId.Some? then [OpenCleanup] else [EnsureCleanup, OpenCleanup];
    var w1 := Run(p, w, opening);
    assert Sound(p, w1) && Sweeping(p, w1, todo) by {
      if AllRemoved(p, w.journal) || w.journal.clnId.Some? {
        OpenGoes(p, w);
        StepSound(p, w, OpenCleanup);
        RunTwo(p, w, OpenCleanup, Crash);
      } else {
        EnsureGoes(p, w);
        StepSound(p, w, EnsureCleanup);
        StepSound(p, Do(p, w, EnsureCleanup), OpenCleanup);
        RunTwo(p, w, EnsureCleanup, OpenCleanup);
      }
    }
    var sweep := SweepAll(p, w1, todo);
    TidyUp(p, Run(p, w1, sweep));
    RunConcat(p, w1, sweep, Tidy());
    RunConcat(p, w, opening, sweep + Tidy());
    acts := opening + (sweep + Tidy());
  }

  lemma NothingToSweep(p: Plan, w: World)
    requires w.stage.Cleanup? && Running(w, Cleanup) && w.worker.value.at.Checked? && w.disk.srcDir.None?
    requires w.moved && w.disk.tgtDir.Some?
    ensures Done(Do(p, w, Complete))
  {
  }

  lemma FromCleanup(p: Plan, w: World) returns (acts: seq<Act>)
    requires Restarted(p, w, Cleanup)
    ensures Done(Run(p, w, acts))
  {
    TargetChecked(p, w);
    var w1 := Do(p, w, CheckTarget);
    if w.disk.srcDir.None? {
      NothingToSweep(p, w1);
      RunTwo(p, w, CheckTarget, Complete);
      acts := [CheckTarget, Complete];
    } else {
      var rest := SweepFromStart(p, w1);
      RunOne(p, w, CheckTarget, rest);
      acts := [CheckTarget] + rest;
    }
  }

  lemma FromCommitted(p: Plan, w: World) returns (acts: seq<Act>)
    requires Restarted(p, w, Committed)
    ensures Done(Run(p, w, acts))
  {
    StepSound(p, w, ToCleanup);
    var rest := FromCleanup(p, Do(p, w, ToCleanup));
    RunOne(p, w, ToCleanup, rest);
    acts := [ToCleanup] + rest;
  }

  lemma FromPublished(p: Plan, w: World) returns (acts: seq<Act>)
    requires Restarted(p, w, Published)
    ensures Done(Run(p, w, acts))
  {
    StepSound(p, w, Commit);
    var rest := FromCommitted(p, Do(p, w, Commit));
    RunOne(p, w, Commit, rest);
    acts := [Commit] + rest;
  }

  predicate Poised(p: Plan, w: World, at: Progress) {
    Sound(p, w) && w.stage.Publishing? && w.worker == Some(Worker(Publishing, w.journal, at, true))
  }

  lemma FromSettled(p: Plan, w: World) returns (acts: seq<Act>)
    requires Poised(p, w, Settled)
    ensures Done(Run(p, w, acts))
  {
    StepSound(p, w, ToPublished);
    var rest := FromPublished(p, Do(p, w, ToPublished));
    RunOne(p, w, ToPublished, rest);
    acts := [ToPublished] + rest;
  }

  /** The directory can be moved in one rename: it is a complete copy, or a source on the target's device. */
  predicate Movable(p: Plan, j: Journal) {
    if j.how.Copy? then j.complete else !p.crosses
  }

  lemma MoveGoes(p: Plan, w: World)
    requires Poised(p, w, Ready) && Movable(p, w.journal)
    ensures Poised(p, Do(p, w, MoveDirectory), Settled)
  {
    StepSound(p, w, MoveDirectory);
    ReadyFacts(p, w);
    MoveLands(p, w);
  }

  lemma ReadyFacts(p: Plan, w: World)
    requires Agrees(p, w) && w.stage.Publishing? && w.worker == Some(Worker(Publishing, w.journal, Ready, true))
    ensures w.disk.tgtDir.None? && w.disk.srcDir.Some? && (w.journal.how.Copy? ==> w.disk.stgDir.Some?)
  {
  }

  lemma MoveLands(p: Plan, w: World)
    requires w.stage.Publishing? && w.worker == Some(Worker(Publishing, w.journal, Ready, true))
    requires Movable(p, w.journal)
    requires w.disk.tgtDir.None? && w.disk.srcDir.Some? && (w.journal.how.Copy? ==> w.disk.stgDir.Some?)
    ensures var w' := Do(p, w, MoveDirectory);
            w' == w.(disk := w'.disk, worker := Some(Worker(Publishing, w.journal, Settled, true)))
  {
  }

  lemma FromReady(p: Plan, w: World) returns (acts: seq<Act>)
    requires Poised(p, w, Ready) && Movable(p, w.journal)
    ensures Done(Run(p, w, acts))
  {
    MoveGoes(p, w);
    var rest := FromSettled(p, Do(p, w, MoveDirectory));
    RunOne(p, w, MoveDirectory, rest);
    acts := [MoveDirectory] + rest;
  }

  lemma SaveGoes(p: Plan, w: World)
    requires Poised(p, w, Ready) && w.journal.how.Copy?
    ensures Poised(p, Do(p, w, SaveComplete), Ready) && Do(p, w, SaveComplete).journal.complete
  {
    StepSound(p, w, SaveComplete);
  }

  // ------------------------------------------------------------------ copying

  /** Inside copyLocation at one progress mark, with the source still exactly as recorded. */
  predicate InCopy(p: Plan, w: World, at: Progress) {
    Copies(w) && w.stage == w.worker.value.stage && w.worker.value.at == at && SourceIntact(p, w.disk)
  }

  predicate StagingKnown(w: World)
    requires w.worker.Some?
  {
    w.disk.stgDir.Some? && w.worker.value.journal.stgId == w.disk.stgDir
  }

  lemma CheckSourceGoes(p: Plan, w: World)
    requires InCopy(p, w, Entered)
    ensures InCopy(p, DoCheckSource(p, w), Checked)
    ensures DoCheckSource(p, w) == w.(worker := Some(w.worker.value.(at := Checked)))
  {
  }

  lemma EnsureStagingGoes(p: Plan, w: World)
    requires InCopy(p, w, Checked) && w.worker.value.journal.stgId.None? && Vacant(w.disk)
    ensures InCopy(p, DoEnsureStaging(w), Checked) && StagingKnown(DoEnsureStaging(w))
            && DoEnsureStaging(w).stage == w.stage
  {
  }

  lemma OpenStagingGoes(p: Plan, w: World)
    requires InCopy(p, w, Checked) && StagingKnown(w)
    ensures var w1 := DoOpenStaging(w);
            InCopy(p, w1, Opened) && StagingKnown(w1) && w1.stage == w.stage && w1.worker.value.saved
  {
  }

  lemma StagingFacts(p: Plan, w: World)
    requires Agrees(p, w) && InCopy(p, w, Checked) && w.worker.value.saved
    ensures if w.worker.value.journal.stgId.None? then Vacant(w.disk) else StagingKnown(w)
  {
  }

  lemma OpenDirectly(p: Plan, w: World)
    requires Sound(p, w) && InCopy(p, w, Checked) && StagingKnown(w)
    ensures var w' := Do(p, w, OpenStaging);
            Sound(p, w') && InCopy(p, w', Opened) && StagingKnown(w') && w'.stage == w.stage
  {
    OpenStagingGoes(p, w);
    StepSound(p, w, OpenStaging);
  }

  lemma EnsureFirst(p: Plan, w: World)
    requires Sound(p, w) && InCopy(p, w, Checked) && w.worker.value.journal.stgId.None? && Vacant(w.disk)
    ensures var w' := Do(p, w, EnsureStaging);
            Sound(p, w') && InCopy(p, w', Checked) && StagingKnown(w') && w'.stage == w.stage
  {
    EnsureStagingGoes(p, w);
    StepSound(p, w, EnsureStaging);
  }

  lemma OpenFromChecked(p: Plan, w: World) returns (acts: seq<Act>)
    requires Sound(p, w) && InCopy(p, w, Checked) && w.worker.value.saved
    ensures var w' := Run(p, w, acts);
            Sound(p, w') && InCopy(p, w', Opened) && StagingKnown(w') && w'.stage == w.stage
  {
    StagingFacts(p, w);
    if w.worker.value.journal.stgId.None? {
      EnsureFirst(p, w);
      OpenDirectly(p, Do(p, w, EnsureStaging));
      RunTwo(p, w, EnsureStaging, OpenStaging);
      acts := [EnsureStaging, OpenStaging];
    } else {
      OpenDirectly(p, w);
      RunTwo(p, w, OpenStaging, Crash);
      acts := [OpenStaging];
    }
  }

  /** Creating the missing copies. */
  predicate Creating(p: Plan, w: World, todo: set<nat>) {
    InCopy(p, w, Opened) && StagingKnown(w) && todo == p.files.Keys - w.worker.value.journal.copies.Keys
  }

  lemma CreateFacts(p: Plan, w: World, todo: set<nat>, i: nat)
    requires Agrees(p, w) && Creating(p, w, todo) && i in todo
    ensures i in w.disk.stg ==> w.disk.stg[i].data == []
  {
    BothStaging(p, w);
  }

  lemma CreateGoes(p: Plan, w: World, todo: set<nat>, i: nat)
    requires Creating(p, w, todo) && i in todo && (i in w.disk.stg ==> w.disk.stg[i].data == [])
    ensures Creating(p, DoCreateCopy(p, w, i), todo - {i}) && DoCreateCopy(p, w, i).stage == w.stage
  {
  }

  lemma CreateOne(p: Plan, w: World, todo: set<nat>, i: nat)
    requires Sound(p, w) && Creating(p, w, todo) && i in todo
    ensures var w' := Do(p, w, CreateCopy(i)); Sound(p, w') && Creating(p, w', todo - {i}) && w'.stage == w.stage
  {
    CreateFacts(p, w, todo, i);
    CreateGoes(p, w, todo, i);
    StepSound(p, w, CreateCopy(i));
  }

  lemma {:induction false} CreateAll(p: Plan, w: World, todo: set<nat>) returns (acts: seq<Act>)
    requires Sound(p, w) && Creating(p, w, todo)
    ensures var w' := Run(p, w, acts); Sound(p, w') && Creating(p, w', {}) && w'.stage == w.stage
    decreases |todo|
  {
    acts := [];
    if todo != {} {
      var i :| i in todo;
      CreateOne(p, w, todo, i);
      var rest := CreateAll(p, Do(p, w, CreateCopy(i)), todo - {i});
      RunOne(p, w, CreateCopy(i), rest);
      acts := [CreateCopy(i)] + rest;
    }
  }

  /** Filling the created copies; the identities are durable. */
  predicate Filling(p: Plan, w: World, todo: set<nat>) {
    && InCopy(p, w, Opened) && StagingKnown(w) && w.worker.value.saved
    && p.files.Keys <= w.worker.value.journal.copies.Keys && todo <= p.files.Keys
    && (forall i :: i in p.files && i !in todo ==> i in w.disk.stg && w.disk.stg[i].data == p.files[i].data)
  }

  lemma PersistGoes(p: Plan, w: World)
    requires Creating(p, w, {})
    ensures Filling(p, DoPersist(w), p.files.Keys) && DoPersist(w).stage == w.stage
  {
    forall i | i in p.files ensures i in w.worker.value.journal.copies.Keys {
      assert i !in p.files.Keys - w.worker.value.journal.copies.Keys;
    }
  }

  lemma FillFacts(p: Plan, w: World, todo: set<nat>, i: nat)
    requires Agrees(p, w) && Filling(p, w, todo) && i in p.files
    ensures MayWrite(w, i) && w.disk.src[i] == p.files[i]
    ensures w.disk.stg.Keys == p.files.Keys && w.disk.stg[i].id == w.worker.value.journal.copies[i]
  {
    BothStaging(p, w);
  }

  lemma FillGoes(p: Plan, w: World, todo: set<nat>, i: nat)
    requires Filling(p, w, todo) && i in todo && MayWrite(w, i) && w.disk.src[i] == p.files[i]
    ensures var w' := DoAppendCopy(w, i, |p.files[i].data|); Filling(p, w', todo - {i}) && w'.stage == w.stage
  {
    assert p.files[i].data[..|p.files[i].data|] == p.files[i].data;
  }

  lemma FillOne(p: Plan, w: World, todo: set<nat>, i: nat)
    requires Sound(p, w) && Filling(p, w, todo) && i in todo
    ensures var w' := Do(p, w, AppendCopy(i, |p.files[i].data|));
            Sound(p, w') && Filling(p, w', todo - {i}) && w'.stage == w.stage
  {
    FillFacts(p, w, todo, i);
    FillGoes(p, w, todo, i);
    StepSound(p, w, AppendCopy(i, |p.files[i].data|));
  }

  lemma {:induction false} FillAll(p: Plan, w: World, todo: set<nat>) returns (acts: seq<Act>)
    requires Sound(p, w) && Filling(p, w, todo)
    ensures var w' := Run(p, w, acts); Sound(p, w') && Filling(p, w', {}) && w'.stage == w.stage
    decreases |todo|
  {
    acts := [];
    if todo != {} {
      var i :| i in todo;
      var a := AppendCopy(i, |p.files[i].data|);
      FillOne(p, w, todo, i);
      var rest := FillAll(p, Do(p, w, a), todo - {i});
      RunOne(p, w, a, rest);
      acts := [a] + rest;
    }
  }

  lemma VerifyGoes(p: Plan, w: World)
    requires Agrees(p, w) && Filling(p, w, {})
    ensures DoVerifyCopies(p, w) == w.(worker := Some(w.worker.value.(at := Ready)))
    ensures w.worker.value.journal == w.journal
  {
    BothStaging(p, w);
    forall i | i in p.files ensures i in w.disk.stg && CopyMatches(p, w.journal, i, w.disk.stg[i]) {
      FillFacts(p, w, {}, i);
    }
    assert w.disk.stg.Keys == p.files.Keys;
  }

  predicate Verified(p: Plan, w: World, stage: Stage) {
    Sound(p, w) && w.stage == stage && w.journal.how.Copy? && w.worker == Some(Worker(stage, w.journal, Ready, true))
  }

  lemma VerifyOne(p: Plan, w: World)
    requires Sound(p, w) && Filling(p, w, {})
    ensures Verified(p, Do(p, w, VerifyCopies), w.stage)
  {
    VerifyGoes(p, w);
    StepSound(p, w, VerifyCopies);
  }

  lemma PersistOne(p: Plan, w: World)
    requires Sound(p, w) && Creating(p, w, {})
    ensures var w' := Do(p, w, Persist); Sound(p, w') && Filling(p, w', p.files.Keys) && w'.stage == w.stage
  {
    PersistGoes(p, w);
    StepSound(p, w, Persist);
  }

  lemma FillAndVerify(p: Plan, w: World) returns (acts: seq<Act>)
    requires Sound(p, w) && Filling(p, w, p.files.Keys)
    ensures Verified(p, Run(p, w, acts), w.stage)
  {
    var fill := FillAll(p, w, p.files.Keys);
    var w1 := Run(p, w, fill);
    VerifyOne(p, w1);
    RunTwo(p, w1, VerifyCopies, Crash);
    RunConcat(p, w, fill, [VerifyCopies]);
    acts := fill + [VerifyCopies];
  }

  lemma FoldersGo(p: Plan, w: World)
    requires Sound(p, w) && InCopy(p, w, Opened) && StagingKnown(w)
    ensures var w' := Do(p, w, MakeFolders);
            Sound(p, w') && InCopy(p, w', Opened) && StagingKnown(w') && w'.stage == w.stage
  {
    StepSound(p, w, MakeFolders);
  }

  lemma CopyOpened(p: Plan, w: World) returns (acts: seq<Act>)
    requires Sound(p, w) && InCopy(p, w, Opened) && StagingKnown(w)
    ensures Verified(p, Run(p, w, acts), w.stage)
  {
    FoldersGo(p, w);
    var rest := CopyBelow(p, Do(p, w, MakeFolders));
    RunOne(p, w, MakeFolders, rest);
    acts := [MakeFolders] + rest;
  }

  lemma CopyBelow(p: Plan, w: World) returns (acts: seq<Act>)
    requires Sound(p, w) && InCopy(p, w, Opened) && StagingKnown(w)
    ensures Verified(p, Run(p, w, acts), w.stage)
  {
    var create := CreateAll(p, w, p.files.Keys - w.worker.value.journal.copies.Keys);
    var w1 := Run(p, w, create);
    PersistOne(p, w1);
    var rest := FillAndVerify(p, Do(p, w1, Persist));
    RunOne(p, w1, Persist, rest);
    RunConcat(p, w, create, [Persist] + rest);
    acts := create + ([Persist] + rest);
  }

  /** copyLocation runs through: every copy exists, is full, verified and durable. */
  lemma CopyCompletes(p: Plan, w: World, stage: Stage) returns (acts: seq<Act>)
    requires Restarted(p, w, stage) && InCopy(p, w, Entered)
    ensures Verified(p, Run(p, w, acts), stage)
  {
    CheckSourceGoes(p, w);
    StepSound(p, w, CheckSource);
    var w1 := Do(p, w, CheckSource);
    var open := OpenFromChecked(p, w1);
    var rest := CopyOpened(p, Run(p, w1, open));
    RunConcat(p, w1, open, rest);
    RunOne(p, w, CheckSource, open + rest);
    acts := [CheckSource] + (open + rest);
  }

  lemma FoundGoes(p: Plan, w: World)
    requires Restarted(p, w, Publishing) && w.disk.tgtDir.Some?
    ensures Poised(p, Do(p, w, FoundTarget), Settled)
  {
    StepSound(p, w, FoundTarget);
  }

  lemma CheckReadyGoes(p: Plan, w: World)
    requires Restarted(p, w, Publishing) && w.disk.tgtDir.None? && (w.journal.how.Copy? ==> w.journal.complete)
    ensures Poised(p, Do(p, w, CheckReady), Ready) && Do(p, w, CheckReady).journal == w.journal
  {
    StepSound(p, w, CheckReady);
  }

  lemma FromPublishing(p: Plan, w: World) returns (acts: seq<Act>)
    requires Restarted(p, w, Publishing)
    ensures Done(Run(p, w, acts))
  {
    if w.disk.tgtDir.Some? {
      FoundGoes(p, w);
      var rest := FromSettled(p, Do(p, w, FoundTarget));
      RunOne(p, w, FoundTarget, rest);
      acts := [FoundTarget] + rest;
    } else if w.journal.how.Copy? && !w.journal.complete {
      acts := FromInterruptedCopy(p, w);
    } else {
      CheckReadyGoes(p, w);
      var w1 := Do(p, w, CheckReady);
      var rest;
      if Movable(p, w.journal) { rest := FromReady(p, w1); } else { rest := FromRefusedRename(p, w1); }
      RunOne(p, w, CheckReady, rest);
      acts := [CheckReady] + rest;
    }
  }

  lemma FallBackGoes(p: Plan, w: World)
    requires Poised(p, w, Ready) && w.journal.how.Rename? && p.crosses
    ensures var w' := Do(p, w, FallBack);
            Restarted(p, w', Publishing) && w'.disk.tgtDir.None? && w'.journal.how.Copy? && !w'.journal.complete
  {
    StepSound(p, w, FallBack);
  }

  /** The rename crosses devices: the operation goes on as a copy, with nothing staged yet. */
  lemma FromRefusedRename(p: Plan, w: World) returns (acts: seq<Act>)
    requires Poised(p, w, Ready) && w.journal.how.Rename? && p.crosses
    ensures Done(Run(p, w, acts))
  {
    FallBackGoes(p, w);
    var rest := FromInterruptedCopy(p, Do(p, w, FallBack));
    RunOne(p, w, FallBack, rest);
    acts := [FallBack] + rest;
  }

  lemma FromInterruptedCopy(p: Plan, w: World) returns (acts: seq<Act>)
    requires Restarted(p, w, Publishing) && w.disk.tgtDir.None? && w.journal.how.Copy? && !w.journal.complete
    ensures Done(Run(p, w, acts))
  {
    var copy := CopyCompletes(p, w, Publishing);
    var w1 := Run(p, w, copy);
    SaveGoes(p, w1);
    var rest := FromReady(p, Do(p, w1, SaveComplete));
    RunOne(p, w1, SaveComplete, rest);
    RunConcat(p, w, copy, [SaveComplete] + rest);
    acts := copy + ([SaveComplete] + rest);
  }

  lemma FromCopying(p: Plan, w: World) returns (acts: seq<Act>)
    requires Restarted(p, w, Copying)
    ensures Done(Run(p, w, acts))
  {
    var copy := CopyCompletes(p, w, Copying);
    var w1 := Run(p, w, copy);
    StepSound(p, w1, FinishCopying);
    var rest := FromPublishing(p, Do(p, w1, FinishCopying));
    RunOne(p, w1, FinishCopying, rest);
    RunConcat(p, w, copy, [FinishCopying] + rest);
    acts := copy + ([FinishCopying] + rest);
  }

  // ------------------------------------------------------------------ before copying

  /** The stages in which nothing was staged yet and the recorded source is still to be checked. */
  predicate Waits(stage: Stage) {
    stage.Queued? || stage.WaitingReaders? || stage.Prepared?
  }

  lemma FromPrepared(p: Plan, w: World) returns (acts: seq<Act>)
    requires Restarted(p, w, Prepared) && SourceIntact(p, w.disk)
    ensures Done(Run(p, w, acts))
  {
    var w1 := Do(p, w, CheckSource);
    StepSound(p, w, CheckSource);
    StepSound(p, w1, Begin);
    BeginGoes(p, w);
    var w2 := Do(p, w1, Begin);
    var rest;
    if w.journal.how.Rename? { rest := FromPublishing(p, w2); } else { rest := FromCopying(p, w2); }
    RunTwo(p, w, CheckSource, Begin);
    RunConcat(p, w, [CheckSource, Begin], rest);
    acts := [CheckSource, Begin] + rest;
  }

  lemma BeginGoes(p: Plan, w: World)
    requires Restarted(p, w, Prepared) && SourceIntact(p, w.disk)
    ensures var w2 := Do(p, Do(p, w, CheckSource), Begin);
            && w2.stage == (if w.journal.how.Rename? then Publishing else Copying)
            && w2.worker == Some(Worker(w2.stage, w2.journal, Entered, true)) && w2.journal == w.journal
  {
  }

  lemma FromWaiting(p: Plan, w: World) returns (acts: seq<Act>)
    requires Restarted(p, w, WaitingReaders) && SourceIntact(p, w.disk)
    ensures Done(Run(p, w, acts))
  {
    StepSound(p, w, Detach);
    StepSound(p, Do(p, w, Detach), Prepare);
    var rest := FromPrepared(p, Do(p, Do(p, w, Detach), Prepare));
    RunTwo(p, w, Detach, Prepare);
    RunConcat(p, w, [Detach, Prepare], rest);
    acts := [Detach, Prepare] + rest;
  }

  lemma FromQueued(p: Plan, w: World) returns (acts: seq<Act>)
    requires Restarted(p, w, Queued) && SourceIntact(p, w.disk)
    ensures Done(Run(p, w, acts))
  {
    StepSound(p, w, Queue);
    var rest := FromWaiting(p, Do(p, w, Queue));
    RunOne(p, w, Queue, rest);
    acts := [Queue] + rest;
  }

  // ------------------------------------------------------------------ the theorem

  /** A move that is under way and was not told to cancel. */
  predicate Moving(stage: Stage) {
    Pending(stage) && !stage.CancelRequested?
  }

  /** The operator retries, which clears a recorded failure, and the worker picks the row up. */
  function Resume(w: World): seq<Act> {
    [Crash, Capture(Retry)] + [Submit(Command(Retry, w.stage, w.journal)), Start]
  }

  lemma RetryGoes(p: Plan, w: World)
    requires Sound(p, w) && Pending(w.stage)
    ensures var w3 := Do(p, Do(p, Do(p, w, Crash), Capture(Retry)), Submit(Command(Retry, w.stage, w.journal)));
            && Sound(p, w3) && w3.stage == w.stage && w3.journal == w.journal && w3.disk == w.disk
            && !w3.error && w3.worker.None?
  {
    StepSound(p, w, Crash);
    StepSound(p, Do(p, w, Crash), Capture(Retry));
    StepSound(p, Do(p, Do(p, w, Crash), Capture(Retry)), Submit(Command(Retry, w.stage, w.journal)));
  }

  lemma StartGoes(p: Plan, w: World)
    requires Sound(p, w) && Pending(w.stage) && !w.error && w.worker.None?
    ensures Restarted(p, Do(p, w, Start), w.stage) && Do(p, w, Start).disk == w.disk
  {
    StepSound(p, w, Start);
  }

  lemma ResumeGoes(p: Plan, w: World)
    requires Sound(p, w) && Pending(w.stage)
    ensures Restarted(p, Run(p, w, Resume(w)), w.stage) && Run(p, w, Resume(w)).disk == w.disk
  {
    RetryGoes(p, w);
    var c := Command(Retry, w.stage, w.journal);
    StartGoes(p, Do(p, Do(p, Do(p, w, Crash), Capture(Retry)), Submit(c)));
    RunFour(p, w, Crash, Capture(Retry), Submit(c), Start);
  }

  /**
   * Wherever a run without stale writes is interrupted, a crash followed by a retry can carry the
   * operation to its end with the source removed and the mapping moved. Before copying this needs
   * the source to be the recorded one still.
   */
  lemma RestartCompletes(p: Plan, w: World) returns (acts: seq<Act>)
    requires Sound(p, w) && Moving(w.stage) && (Waits(w.stage) ==> SourceIntact(p, w.disk))
    ensures Done(Run(p, w, acts))
  {
    ResumeGoes(p, w);
    var w1 := Run(p, w, Resume(w));
    var rest;
    match w.stage {
      case Queued => rest := FromQueued(p, w1);
      case WaitingReaders => rest := FromWaiting(p, w1);
      case Prepared => rest := FromPrepared(p, w1);
      case Copying => rest := FromCopying(p, w1);
      case Publishing => rest := FromPublishing(p, w1);
      case Published => rest := FromPublished(p, w1);
      case Committed => rest := FromCommitted(p, w1);
      case Cleanup => rest := FromCleanup(p, w1);
    }
    RunConcat(p, w, Resume(w), rest);
    acts := Resume(w) + rest;
  }

  /** From the start: any run of current commands, crashes and worker steps leaves a recoverable operation. */
  lemma InterruptedMoveCompletes(p: Plan, w: World, acts: seq<Act>) returns (more: seq<Act>)
    requires Init(p, w) && Pristine(w.journal, w.disk) && AllCurrent(p, w, acts)
    requires var v := Run(p, w, acts); Moving(v.stage) && (Waits(v.stage) ==> SourceIntact(p, v.disk))
    ensures Done(Run(p, w, acts + more))
  {
    RunSound(p, w, acts);
    more := RestartCompletes(p, Run(p, w, acts));
    RunConcat(p, w, acts, more);
  }
}
