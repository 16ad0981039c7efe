/**
 * The crash-safe move of a torrent's payload to another root.
 *
 * One operation version is modelled from its planned journal to its end. The disk holds four
 * directories: source, staging, target and cleanup quarantine; files are named by their index
 * in the plan. The database row holds the durable stage and journal; the worker holds its own
 * copy of both and changes the row only by a compare-and-swap on the exact stage. Commands
 * capture the row and submit later, so what they write may be stale. A crash drops the worker,
 * every captured command and the engine. Nobody else writes to the disk.
 *
 * Within a stage the worker's actions may come in any order their guards allow, and the worker
 * may stop before any of them, so every order of the program's loops and every error return is
 * one of the runs covered.
 */
module StorageMove {
  import opened Wrappers

  type Data = seq<nat>

  /** A file's identity (device and inode) and bytes. Equal digests are taken to mean equal bytes. */
  datatype File = File(id: nat, data: Data)

  /**
   * Directory identities, the files below each directory, whether staging has directories below it,
   * and the next unused identity.
   */
  datatype Disk = Disk(srcDir: Option<nat>, stgDir: Option<nat>, tgtDir: Option<nat>, clnDir: Option<nat>,
                       src: map<nat, File>, stg: map<nat, File>, tgt: map<nat, File>, qua: map<nat, File>,
                       folders: bool, next: nat)

  datatype Method = Rename | Copy

  /**
   * What never changes after planning: the recorded source tree, whether its copy has directories,
   * and whether source and target are on different devices. Staging is on the target's device.
   */
  datatype Plan = Plan(srcId: nat, files: map<nat, File>, folders: bool, crosses: bool)

  datatype Journal = Journal(how: Method, stgId: Option<nat>, copies: map<nat, nat>, complete: bool,
                             clnId: Option<nat>, removed: set<nat>)

  datatype Stage =
    | Planned | Queued | WaitingReaders | Prepared | Copying | CancelRequested | Cancelled
    | Publishing | Published | Committed | Cleanup | Completed

  /** What the worker has established since it entered its stage. */
  datatype Progress = Entered | Detached | Checked | Opened | Ready | Settled

  /** `saved`: the in-memory journal was persisted after its last change. */
  datatype Worker = Worker(stage: Stage, journal: Journal, at: Progress, saved: bool)

  datatype Kind = Apply | Retry | Cancel | Failure

  datatype Command = Command(kind: Kind, stage: Stage, journal: Journal)

  datatype World = World(disk: Disk, stage: Stage, journal: Journal, error: bool, moved: bool,
                         worker: Option<Worker>, captured: set<Command>, attached: bool, truth: map<nat, Data>)

  datatype Act =
    | Crash | Attach | Write(i: nat, data: Data)
    | Capture(kind: Kind) | Submit(cmd: Command)
    | Start | Stop | FinishCancel
    | Queue | Detach | Prepare
    | CheckSource | Begin | EnsureStaging | OpenStaging | MakeFolders | Persist
    | CreateCopy(i: nat) | TruncateCopy(i: nat) | AppendCopy(i: nat, n: nat) | VerifyCopies | FinishCopying
    | SaveComplete | CheckReady | MoveDirectory | FallBack | FoundTarget | ToPublished
    | Commit | ToCleanup | CheckTarget | EnsureCleanup | OpenCleanup
    | Quarantine(i: nat) | Unlink(i: nat) | MarkGone(i: nat)
    | RemoveCleanup | RemoveSource | Complete

  // ------------------------------------------------------------------ validations

  /** validateStorageTree: exactly the recorded tree, identities and bytes. */
  predicate TreeMatches(p: Plan, dir: Option<nat>, files: map<nat, File>) {
    dir == Some(p.srcId) && files == p.files
  }

  /** validateCopiedLocation: the staging directory with one verified copy per entry and nothing else. */
  predicate CopiesMatch(p: Plan, j: Journal, dir: Option<nat>, files: map<nat, File>) {
    && dir.Some? && dir == j.stgId && files.Keys == p.files.Keys
    && forall i :: i in p.files ==> i in files && CopyMatches(p, j, i, files[i])
  }

  predicate CopyMatches(p: Plan, j: Journal, i: nat, f: File)
    requires i in p.files
  {
    i in j.copies && f.id == j.copies[i] && f.data == p.files[i].data
  }

  /** validateLocationTarget. */
  predicate TargetMatches(p: Plan, j: Journal, d: Disk) {
    if j.how.Rename? then TreeMatches(p, d.tgtDir, d.tgt) else CopiesMatch(p, j, d.tgtDir, d.tgt)
  }

  // ------------------------------------------------------------------ transitions of the row

  predicate Running(w: World, stage: Stage) {
    w.worker.Some? && w.worker.value.stage == stage
  }

  /** locationTransition by the worker: it succeeds only while the row is exactly at its stage. */
  function Transition(w: World, j: Journal, stage: Stage): World
    requires w.worker.Some?
  {
    if w.stage != w.worker.value.stage then w
    else w.(stage := stage, journal := j, error := false, worker := Some(Worker(stage, j, Entered, true)))
  }

  function Advance(w: World, at: Progress): World
    requires w.worker.Some?
  {
    w.(worker := Some(w.worker.value.(at := at)))
  }

  /** The worker's journal changes in memory only. */
  function Note(w: World, j: Journal, saved: bool): World
    requires w.worker.Some?
  {
    w.(worker := Some(w.worker.value.(journal := j, saved := saved)))
  }

  predicate Pending(stage: Stage) {
    !stage.Planned? && !stage.Completed? && !stage.Cancelled?
  }

  predicate Late(stage: Stage) {
    stage.Publishing? || stage.Published? || stage.Committed? || stage.Cleanup? || stage.Completed?
  }

  // ------------------------------------------------------------------ commands, crashes and the engine

  /** What a captured command writes, and when it is refused outright. */
  function Target(c: Command): Option<Stage> {
    match c.kind
    case Apply => if c.stage.Planned? then Some(Queued) else None
    case Retry => if c.stage.Completed? || c.stage.Cancelled? then None else Some(c.stage)
    case Cancel => if Late(c.stage) || c.stage.Cancelled? then None else Some(CancelRequested)
    case Failure => Some(c.stage)
  }

  function DoSubmit(w: World, c: Command): World {
    if c !in w.captured || Target(c).None? || w.stage != c.stage then w
    else w.(stage := Target(c).value, journal := c.journal, error := c.kind.Failure?, captured := w.captured - {c})
  }

  /** The engine writes the payload where the mapping says it is. */
  function DoWrite(w: World, i: nat, data: Data): World {
    if !w.attached then w
    else if w.moved then
      w.(disk := w.disk.(tgt := Written(w.disk.tgt, i, data, w.disk.next), next := w.disk.next + 1),
         truth := w.truth[i := data])
    else
      w.(disk := w.disk.(src := Written(w.disk.src, i, data, w.disk.next), next := w.disk.next + 1),
         truth := w.truth[i := data])
  }

  function Written(files: map<nat, File>, i: nat, data: Data, id: nat): map<nat, File> {
    files[i := File(if i in files then files[i].id else id, data)]
  }

  /** recoveryBlocks: no runtime is attached while the journal is anywhere else. */
  predicate MayAttach(stage: Stage) {
    stage.Planned? || stage.Completed? || stage.Cancelled?
  }

  /** processLocation: one worker at a time, on a pending row without an error, with the mapping its stage expects. */
  function DoStart(w: World): World {
    if w.worker.None? && Pending(w.stage) && !w.error && w.moved == (w.stage.Committed? || w.stage.Cleanup?)
    then w.(worker := Some(Worker(w.stage, w.journal, Entered, true))) else w
  }

  /** The end of processLocation when the row says cancel_requested. */
  function DoFinishCancel(w: World): World {
    if w.worker.Some? && w.stage.CancelRequested? then w.(stage := Cancelled, error := false, worker := None) else w
  }

  // ------------------------------------------------------------------ up to copying

  /** prepared: the source is exactly the recorded tree and the target name is free. */
  function DoCheckSource(p: Plan, w: World): World {
    if w.worker.Some? && TreeMatches(p, w.disk.srcDir, w.disk.src) && w.disk.tgtDir.None?
       && (Running(w, Prepared) || Copies(w))
    then Advance(w, Checked) else w
  }

  function DoBegin(w: World): World {
    if Running(w, Prepared) && w.worker.value.at.Checked? then
      Transition(w, w.worker.value.journal, if w.worker.value.journal.how.Rename? then Publishing else Copying)
    else w
  }

  /** copyLocation runs in the copying stage, or in publishing after a cross-device rename. */
  predicate Copies(w: World) {
    w.worker.Some? && w.disk.tgtDir.None? && w.worker.value.journal.how.Copy? && !w.worker.value.journal.complete
    && (w.worker.value.stage.Copying? || w.worker.value.stage.Publishing?)
  }

  /** Nothing is below the staging directory. */
  predicate Vacant(d: Disk) {
    d.stg == map[] && !d.folders
  }

  /** ensureLocationStaging: the recorded directory, or a new or empty one whose identity is noted. */
  function DoEnsureStaging(w: World): World {
    if !Copies(w) || w.worker.value.journal.stgId.Some? || !w.worker.value.at.Checked? then w
    else if w.disk.stgDir.Some? && !Vacant(w.disk) then w
    else
      var d := w.disk.(stgDir := Some(DirectoryId(w.disk.stgDir, w.disk.next)), next := w.disk.next + 1);
      var j := w.worker.value.journal.(stgId := d.stgDir);
      w.(disk := d, worker := Some(w.worker.value.(journal := j, saved := false)))
  }

  /** An existing directory keeps its identity, a new one gets an unused one. */
  function DirectoryId(dir: Option<nat>, next: nat): nat {
    if dir.Some? then dir.value else next
  }

  /** The staging identity is durable before anything is created below it. */
  function DoOpenStaging(w: World): World {
    if Copies(w) && w.worker.value.at.Checked? && w.disk.stgDir.Some? && w.worker.value.journal.stgId == w.disk.stgDir
       && w.stage == w.worker.value.stage
    then w.(journal := w.worker.value.journal, error := false,
            worker := Some(w.worker.value.(at := Opened, saved := true))) else w
  }

  /** A same-stage transition that makes the worker's journal durable. */
  function DoPersist(w: World): World {
    if w.worker.Some? && w.stage == w.worker.value.stage && Pending(w.stage)
    then w.(journal := w.worker.value.journal, error := false, worker := Some(w.worker.value.(saved := true))) else w
  }

  predicate Staged(w: World) {
    Copies(w) && w.worker.value.at.Opened? && w.disk.stgDir.Some? && w.worker.value.journal.stgId == w.disk.stgDir
  }

  /** The directories of the copy, made before and along with its files. */
  function DoMakeFolders(p: Plan, w: World): World {
    if Staged(w) && p.folders then w.(disk := w.disk.(folders := true)) else w
  }

  /** Create an empty copy, or adopt an existing empty one, and note its identity. */
  function DoCreateCopy(p: Plan, w: World, i: nat): World {
    if !Staged(w) || i !in p.files || i in w.worker.value.journal.copies then w
    else if i !in w.disk.stg then
      Note(w.(disk := w.disk.(stg := w.disk.stg[i := File(w.disk.next, [])], next := w.disk.next + 1)),
           w.worker.value.journal.(copies := w.worker.value.journal.copies[i := w.disk.next]), false)
    else if w.disk.stg[i].data == [] then
      Note(w, w.worker.value.journal.(copies := w.worker.value.journal.copies[i := w.disk.stg[i].id]), false)
    else w
  }

  /** The worker may write copy i: its identity is its own, durable, and it holds a prefix of the source. */
  predicate MayWrite(w: World, i: nat) {
    && Staged(w) && w.worker.value.saved && i in w.worker.value.journal.copies
    && i in w.disk.stg && w.disk.stg[i].id == w.worker.value.journal.copies[i]
    && i in w.disk.src && w.disk.stg[i].data <= w.disk.src[i].data
  }

  function DoTruncateCopy(w: World, i: nat): World {
    if MayWrite(w, i) then w.(disk := w.disk.(stg := w.disk.stg[i := w.disk.stg[i].(data := [])])) else w
  }

  function DoAppendCopy(w: World, i: nat, n: nat): World {
    if MayWrite(w, i) && |w.disk.stg[i].data| <= n <= |w.disk.src[i].data|
    then w.(disk := w.disk.(stg := w.disk.stg[i := w.disk.stg[i].(data := w.disk.src[i].data[..n])])) else w
  }

  function DoVerifyCopies(p: Plan, w: World): World {
    if Staged(w) && w.worker.value.saved && CopiesMatch(p, w.worker.value.journal, w.disk.stgDir, w.disk.stg)
    then Advance(w, Ready) else w
  }

  function DoFinishCopying(w: World): World {
    if Running(w, Copying) && w.worker.value.at.Ready?
    then Transition(w, w.worker.value.journal.(complete := true), Publishing) else w
  }

  // ------------------------------------------------------------------ publishing

  /** publishLocation after its own copyLocation. */
  function DoSaveComplete(w: World): World {
    if Running(w, Publishing) && w.worker.value.at.Ready? && w.worker.value.journal.how.Copy? && w.stage.Publishing?
    then
      var j := w.worker.value.journal.(complete := true);
      w.(journal := j, error := false, worker := Some(w.worker.value.(journal := j, saved := true)))
    else w
  }

  /** The checks of publishLocation right before the directory moves. */
  function DoCheckReady(p: Plan, w: World): World {
    if Running(w, Publishing) && w.disk.tgtDir.None? && TreeMatches(p, w.disk.srcDir, w.disk.src)
       && (w.worker.value.journal.how.Copy? ==>
             w.worker.value.journal.complete && CopiesMatch(p, w.worker.value.journal, w.disk.stgDir, w.disk.stg))
    then Advance(w, Ready) else w
  }

  /** MoveRootDirectoryNoReplace: one atomic rename that refuses an existing target. */
  function DoMoveDirectory(p: Plan, w: World): World {
    if !Running(w, Publishing) || !w.worker.value.at.Ready? || w.disk.tgtDir.Some? then w
    else if w.worker.value.journal.how.Rename? then
      if w.disk.srcDir.None? || p.crosses then w
      else Advance(w.(disk := w.disk.(tgtDir := w.disk.srcDir, tgt := w.disk.src, srcDir := None, src := map[])),
                   Settled)
    else if w.disk.stgDir.None? || !w.worker.value.journal.complete then w
    else
      var d := w.disk.(tgtDir := w.disk.stgDir, tgt := w.disk.stg, stgDir := None, stg := map[], folders := false);
      Advance(w.(disk := d), Settled)
  }

  /** The rename failed across devices: remember that a copy is needed. */
  function DoFallBack(p: Plan, w: World): World {
    if p.crosses && Running(w, Publishing) && w.worker.value.at.Ready? && w.worker.value.journal.how.Rename?
       && w.disk.tgtDir.None?
    then Transition(w, w.worker.value.journal.(how := Copy), Publishing) else w
  }

  /** A restart finds the target already there: it must be the directory this operation moves, complete. */
  function DoFoundTarget(p: Plan, w: World): World {
    if Running(w, Publishing) && TargetMatches(p, w.worker.value.journal, w.disk)
       && (if w.worker.value.journal.how.Rename? then w.disk.srcDir.None? else w.disk.stgDir.None?)
    then Advance(w, Settled) else w
  }

  function DoToPublished(w: World): World {
    if Running(w, Publishing) && w.worker.value.at.Settled? then Transition(w, w.worker.value.journal, Published) else w
  }

  /** CommitStorageOperation: the mapping and the stage change in one transaction. */
  function DoCommit(p: Plan, w: World): World {
    if Running(w, Published) && w.stage.Published? && !w.moved && TargetMatches(p, w.worker.value.journal, w.disk)
    then w.(stage := Committed, journal := w.worker.value.journal, error := false, moved := true,
            worker := Some(w.worker.value.(stage := Committed, at := Entered))) else w
  }

  // ------------------------------------------------------------------ cleanup

  function DoCheckTarget(p: Plan, w: World): World {
    if Running(w, Cleanup) && TargetMatches(p, w.worker.value.journal, w.disk) then Advance(w, Checked) else w
  }

  /** Cleanup of a copy whose source directory is still the recorded one. */
  predicate Cleans(p: Plan, w: World) {
    && Running(w, Cleanup) && w.worker.value.at.Checked? && w.worker.value.journal.how.Copy?
    && w.disk.srcDir == Some(p.srcId)
  }

  predicate AllRemoved(p: Plan, j: Journal) {
    forall i :: i in p.files ==> i in j.removed
  }

  /** The cleanup directory is needed only while something is left to remove. */
  function DoEnsureCleanup(p: Plan, w: World): World {
    if !Cleans(p, w) || w.worker.value.journal.clnId.Some? || AllRemoved(p, w.worker.value.journal) then w
    else if w.disk.clnDir.Some? && w.disk.qua != map[] then w
    else
      var d := w.disk.(clnDir := Some(DirectoryId(w.disk.clnDir, w.disk.next)), next := w.disk.next + 1);
      var j := w.worker.value.journal.(clnId := d.clnDir);
      w.(disk := d, worker := Some(w.worker.value.(journal := j, saved := false)))
  }

  /** The cleanup directory is this operation's own, or nothing is left to put in it. */
  function DoOpenCleanup(p: Plan, w: World): World {
    if Cleans(p, w) && w.stage.Cleanup?
       && (if AllRemoved(p, w.worker.value.journal)
           then w.disk.clnDir.None? || w.disk.clnDir == w.worker.value.journal.clnId
           else w.disk.clnDir.Some? && w.disk.clnDir == w.worker.value.journal.clnId)
    then w.(journal := w.worker.value.journal, error := false,
            worker := Some(w.worker.value.(at := Opened, saved := true))) else w
  }

  /** The removal loop of a copy whose source directory is still the recorded one. */
  predicate Removing(p: Plan, w: World) {
    && Running(w, Cleanup) && w.worker.value.at.Opened? && w.worker.value.journal.how.Copy?
    && w.disk.srcDir == Some(p.srcId)
  }

  /** Move an unchanged source file to its quarantine name. */
  function DoQuarantine(p: Plan, w: World, i: nat): World {
    if Removing(p, w) && w.disk.clnDir.Some? && w.worker.value.journal.clnId == w.disk.clnDir
       && i in p.files && i !in w.worker.value.journal.removed
       && i in w.disk.src && i !in w.disk.qua && w.disk.src[i] == p.files[i]
    then w.(disk := w.disk.(src := w.disk.src - {i}, qua := w.disk.qua[i := w.disk.src[i]])) else w
  }

  /** The guard of the only unlink: the quarantined file and the published copy were both validated again. */
  predicate MayUnlink(p: Plan, w: World, i: nat) {
    && Removing(p, w) && i in p.files && i !in w.worker.value.journal.removed
    && i in w.disk.qua && w.disk.qua[i] == p.files[i]
    && i in w.disk.tgt && CopyMatches(p, w.worker.value.journal, i, w.disk.tgt[i])
  }

  function DoUnlink(p: Plan, w: World, i: nat): World {
    if MayUnlink(p, w, i) then
      Note(w.(disk := w.disk.(qua := w.disk.qua - {i})),
           w.worker.value.journal.(removed := w.worker.value.journal.removed + {i}), false)
    else w
  }

  function DoMarkGone(p: Plan, w: World, i: nat): World {
    if Removing(p, w) && i in p.files && i !in w.worker.value.journal.removed && i !in w.disk.src && i !in w.disk.qua
    then Note(w, w.worker.value.journal.(removed := w.worker.value.journal.removed + {i}), false) else w
  }

  predicate Emptied(p: Plan, w: World) {
    Removing(p, w) && w.worker.value.saved && AllRemoved(p, w.worker.value.journal)
  }

  /** Directories are removed only when empty. */
  function DoRemoveCleanup(p: Plan, w: World): World {
    if Emptied(p, w) && w.disk.qua == map[] then w.(disk := w.disk.(clnDir := None)) else w
  }

  function DoRemoveSource(p: Plan, w: World): World {
    if Emptied(p, w) && w.disk.clnDir.None? && w.disk.src == map[]
        then Advance(w.(disk := w.disk.(srcDir := None)), Settled) else w
  }

  /** FinishStorageOperation after cleanup: a rename needs none, a copy is done when its entries are removed. */
  function DoComplete(p: Plan, w: World): World {
    if Running(w, Cleanup) && w.stage.Cleanup?
       && (w.worker.value.at.Settled? || Emptied(p, w)
           || (w.worker.value.at.Checked? && (w.worker.value.journal.how.Rename? || w.disk.srcDir.None?)))
    then w.(stage := Completed, journal := w.worker.value.journal, error := false, worker := None) else w
  }

  // ------------------------------------------------------------------ runs

  function Do(p: Plan, w: World, a: Act): World {
    match a
    case Crash => w.(worker := None, captured := {}, attached := false)
    case Attach => if MayAttach(w.stage) then w.(attached := true) else w
    case Write(i, data) => DoWrite(w, i, data)
    case Capture(kind) => w.(captured := w.captured + {Command(kind, w.stage, w.journal)})
    case Submit(c) => DoSubmit(w, c)
    case Start => DoStart(w)
    case Stop => w.(worker := None)
    case FinishCancel => DoFinishCancel(w)
    case Queue => if Running(w, Queued) then Transition(w, w.worker.value.journal, WaitingReaders) else w
    case Detach => if Running(w, WaitingReaders) then Advance(w.(attached := false), Detached) else w
    case Prepare =>
      if Running(w, WaitingReaders) && w.worker.value.at.Detached?
      then Transition(w, w.worker.value.journal, Prepared) else w
    case CheckSource => DoCheckSource(p, w)
    case Begin => DoBegin(w)
    case EnsureStaging => DoEnsureStaging(w)
    case OpenStaging => DoOpenStaging(w)
    case MakeFolders => DoMakeFolders(p, w)
    case Persist => DoPersist(w)
    case CreateCopy(i) => DoCreateCopy(p, w, i)
    case TruncateCopy(i) => DoTruncateCopy(w, i)
    case AppendCopy(i, n) => DoAppendCopy(w, i, n)
    case VerifyCopies => DoVerifyCopies(p, w)
    case FinishCopying => DoFinishCopying(w)
    case SaveComplete => DoSaveComplete(w)
    case CheckReady => DoCheckReady(p, w)
    case MoveDirectory => DoMoveDirectory(p, w)
    case FallBack => DoFallBack(p, w)
    case FoundTarget => DoFoundTarget(p, w)
    case ToPublished => DoToPublished(w)
    case Commit => DoCommit(p, w)
    case ToCleanup => if Running(w, Committed) then Transition(w, w.worker.value.journal, Cleanup) else w
    case CheckTarget => DoCheckTarget(p, w)
    case EnsureCleanup => DoEnsureCleanup(p, w)
    case OpenCleanup => DoOpenCleanup(p, w)
    case Quarantine(i) => DoQuarantine(p, w, i)
    case Unlink(i) => DoUnlink(p, w, i)
    case MarkGone(i) => DoMarkGone(p, w, i)
    case RemoveCleanup => DoRemoveCleanup(p, w)
    case RemoveSource => DoRemoveSource(p, w)
    case Complete => DoComplete(p, w)
  }

  function Run(p: Plan, w: World, acts: seq<Act>): World
    decreases |acts|
  {
    if acts == [] then w else Run(p, Do(p, w, acts[0]), acts[1..])
  }

  // ------------------------------------------------------------------ the invariant

  /** These files carry exactly the payload. */
  predicate Holds(files: map<nat, File>, truth: map<nat, Data>) {
    files.Keys == truth.Keys && forall i :: i in truth ==> files[i].data == truth[i]
  }

  predicate Untouched(d: Disk, truth: map<nat, Data>) {
    d.srcDir.Some? && Holds(d.src, truth) && d.tgtDir.None? && d.qua == map[]
  }

  /** Where the payload is, by durable stage. */
  predicate Placed(p: Plan, d: Disk, stage: Stage, moved: bool, attached: bool, truth: map<nat, Data>) {
    match stage
    case Publishing =>
      && !moved && !attached && Holds(p.files, truth)
      && (Untouched(d, truth) || (d.tgtDir.Some? && Holds(d.tgt, truth) && d.qua == map[]))
    case Published =>
      !moved && !attached && Holds(p.files, truth) && d.tgtDir.Some? && Holds(d.tgt, truth) && d.qua == map[]
    case Committed => moved && !attached && Holds(p.files, truth) && d.tgtDir.Some? && Holds(d.tgt, truth)
    case Cleanup => moved && !attached && Holds(p.files, truth) && d.tgtDir.Some? && Holds(d.tgt, truth)
    case Completed => moved && d.tgtDir.Some? && Holds(d.tgt, truth)
    case _ => !moved && Untouched(d, truth) && (stage.Prepared? || stage.Copying? ==> !attached)
  }

  predicate Early(stage: Stage) {
    stage.Queued? || stage.WaitingReaders? || stage.Prepared? || stage.Copying?
  }

  /** The worker is at the durable stage, or an early worker that a cancel has overtaken. */
  predicate InStep(x: Worker, stage: Stage) {
    Pending(x.stage) && (x.stage == stage || (stage.CancelRequested? && Early(x.stage)))
  }

  /** What the worker's own progress has established. */
  predicate Established(p: Plan, x: Worker, d: Disk, attached: bool, truth: map<nat, Data>) {
    && (x.stage.Prepared? || x.stage.Copying? || (x.stage.WaitingReaders? && x.at.Detached?) ==> !attached)
    && (x.stage.Prepared? && x.at.Checked? ==> Holds(p.files, truth))
    && (x.stage.Copying? && (x.at.Checked? || x.at.Opened? || x.at.Ready?) ==> Holds(p.files, truth))
    && (x.stage.Publishing? && x.at.Ready? && x.journal.how.Copy? ==> Holds(d.stg, truth))
    && (x.stage.Publishing? && x.at.Settled? ==> d.tgtDir.Some?)
  }

  predicate Safe(p: Plan, w: World) {
    && Placed(p, w.disk, w.stage, w.moved, w.attached, w.truth)
    && (w.worker.Some? ==>
          InStep(w.worker.value, w.stage) && Established(p, w.worker.value, w.disk, w.attached, w.truth))
  }

  // ------------------------------------------------------------------ every step keeps it

  /** A verified copy carries what the plan recorded. */
  lemma CopiesHold(p: Plan, j: Journal, dir: Option<nat>, files: map<nat, File>, truth: map<nat, Data>)
    requires CopiesMatch(p, j, dir, files) && Holds(p.files, truth)
    ensures Holds(files, truth)
  {
    forall i | i in truth ensures files[i].data == truth[i] { assert CopyMatches(p, j, i, files[i]); }
  }

  /** Staging, the cleanup directory and the in-memory journal do not carry the payload before a copy is ready. */
  lemma ScratchSafe(p: Plan, w: World, d: Disk, x: Worker)
    requires Safe(p, w) && w.worker.Some? && !w.worker.value.at.Ready?
    requires d == w.disk.(stgDir := d.stgDir, stg := d.stg, clnDir := d.clnDir, folders := d.folders, next := d.next)
    requires x == w.worker.value.(journal := x.journal, saved := x.saved)
    ensures Safe(p, w.(disk := d, worker := Some(x)))
  {
  }

  lemma OutsideSafe(p: Plan, w: World, a: Act)
    requires Safe(p, w) && (a.Crash? || a.Attach? || a.Write? || a.Capture? || a.Submit?)
    ensures Safe(p, Do(p, w, a))
  {
  }

  lemma WorkerSafe(p: Plan, w: World, a: Act)
    requires Safe(p, w) && (a.Start? || a.Stop? || a.FinishCancel? || a.Queue? || a.Detach? || a.Prepare?)
    ensures Safe(p, Do(p, w, a))
  {
  }

  lemma PrepareSafe(p: Plan, w: World, a: Act)
    requires Safe(p, w) && (a.CheckSource? || a.Begin? || a.Persist? || a.OpenStaging? || a.OpenCleanup?)
    ensures Safe(p, Do(p, w, a))
  {
  }

  lemma EnsureSafe(p: Plan, w: World, a: Act)
    requires Safe(p, w) && (a.EnsureStaging? || a.EnsureCleanup?)
    ensures Safe(p, Do(p, w, a))
  {
    if Do(p, w, a) != w { ScratchSafe(p, w, Do(p, w, a).disk, Do(p, w, a).worker.value); }
  }

  lemma FillSafe(p: Plan, w: World, a: Act)
    requires Safe(p, w) && (a.MakeFolders? || a.CreateCopy? || a.TruncateCopy? || a.AppendCopy?)
    ensures Safe(p, Do(p, w, a))
  {
    if Do(p, w, a) != w { ScratchSafe(p, w, Do(p, w, a).disk, Do(p, w, a).worker.value); }
  }

  lemma VerifySafe(p: Plan, w: World, a: Act)
    requires Safe(p, w) && (a.VerifyCopies? || a.FinishCopying? || a.SaveComplete? || a.FallBack?)
    ensures Safe(p, Do(p, w, a))
  {
    if a.VerifyCopies? && Do(p, w, a) != w {
      CopiesHold(p, w.worker.value.journal, w.disk.stgDir, w.disk.stg, w.truth);
    }
  }

  lemma MoveSafe(p: Plan, w: World, a: Act)
    requires Safe(p, w) && (a.CheckReady? || a.MoveDirectory?)
    ensures Safe(p, Do(p, w, a))
  {
    if a.CheckReady? && Do(p, w, a) != w && w.worker.value.journal.how.Copy? {
      CopiesHold(p, w.worker.value.journal, w.disk.stgDir, w.disk.stg, w.truth);
    }
  }

  lemma PublishSafe(p: Plan, w: World, a: Act)
    requires Safe(p, w) && (a.FoundTarget? || a.ToPublished? || a.Commit?)
    ensures Safe(p, Do(p, w, a))
  {
  }

  lemma CleanupSafe(p: Plan, w: World, a: Act)
    requires Safe(p, w) && (a.ToCleanup? || a.CheckTarget?)
    ensures Safe(p, Do(p, w, a))
  {
  }

  lemma RemoveSafe(p: Plan, w: World, a: Act)
    requires Safe(p, w) && (a.Quarantine? || a.Unlink? || a.MarkGone?)
    ensures Safe(p, Do(p, w, a))
  {
  }

  lemma CompleteSafe(p: Plan, w: World, a: Act)
    requires Safe(p, w) && (a.RemoveCleanup? || a.RemoveSource? || a.Complete?)
    ensures Safe(p, Do(p, w, a))
  {
  }

  lemma StepSafe(p: Plan, w: World, a: Act)
    requires Safe(p, w)
    ensures Safe(p, Do(p, w, a))
  {
    if a.Crash? || a.Attach? || a.Write? || a.Capture? || a.Submit? { OutsideSafe(p, w, a); }
    else if a.Start? || a.Stop? || a.FinishCancel? || a.Queue? || a.Detach? || a.Prepare? { WorkerSafe(p, w, a); }
    else if a.CheckSource? || a.Begin? || a.Persist? || a.OpenStaging? || a.OpenCleanup? { PrepareSafe(p, w, a); }
    else if a.EnsureStaging? || a.EnsureCleanup? { EnsureSafe(p, w, a); }
    else if a.MakeFolders? || a.CreateCopy? || a.TruncateCopy? || a.AppendCopy? { FillSafe(p, w, a); }
    else if a.VerifyCopies? || a.FinishCopying? || a.SaveComplete? || a.FallBack? { VerifySafe(p, w, a); }
    else if a.CheckReady? || a.MoveDirectory? { MoveSafe(p, w, a); }
    else if a.FoundTarget? || a.ToPublished? || a.Commit? { PublishSafe(p, w, a); }
    else if a.ToCleanup? || a.CheckTarget? { CleanupSafe(p, w, a); }
    else if a.Quarantine? || a.Unlink? || a.MarkGone? { RemoveSafe(p, w, a); }
    else { CompleteSafe(p, w, a); }
  }

  lemma {:induction false} RunSafe(p: Plan, w: World, acts: seq<Act>)
    requires Safe(p, w)
    ensures Safe(p, Run(p, w, acts))
    decreases |acts|
  {
    if acts != [] {
      StepSafe(p, w, acts[0]);
      RunSafe(p, Do(p, w, acts[0]), acts[1..]);
    }
  }

  // ------------------------------------------------------------------ what every run guarantees

  /** A planned operation on an undamaged source whose target name is free. */
  predicate Init(p: Plan, w: World) {
    w.stage.Planned? && !w.moved && w.worker.None? && Untouched(w.disk, w.truth)
  }

  predicate At(files: map<nat, File>, i: nat, data: Data) {
    i in files && files[i].data == data
  }

  /** Some durable copy of these bytes exists under the source, quarantine or published target name. */
  predicate Survives(d: Disk, i: nat, data: Data) {
    (d.srcDir.Some? && At(d.src, i, data)) || At(d.qua, i, data) || (d.tgtDir.Some? && At(d.tgt, i, data))
  }

  /**
   * Whatever crashes, stale commands and restarts a run contains, every file's bytes are still there, where the
   * mapping says.
   */
  lemma BytesAlwaysExist(p: Plan, w: World, acts: seq<Act>, i: nat)
    requires Init(p, w) && i in Run(p, w, acts).truth
    ensures var w' := Run(p, w, acts);
            && Survives(w'.disk, i, w'.truth[i])
            && (w'.moved ==> w'.disk.tgtDir.Some? && At(w'.disk.tgt, i, w'.truth[i]))
            && (!w'.moved && w'.disk.tgtDir.None? ==> w'.disk.srcDir.Some? && At(w'.disk.src, i, w'.truth[i]))
  {
    RunSafe(p, w, acts);
  }

  predicate SamePayload(d: Disk, e: Disk) {
    e == d.(stgDir := e.stgDir, stg := e.stg, clnDir := e.clnDir, folders := e.folders, next := e.next)
  }

  predicate Rearranges(a: Act) {
    a.Write? || a.MoveDirectory? || a.Quarantine? || a.Unlink? || a.RemoveSource?
  }

  predicate Stages(a: Act) {
    || a.EnsureStaging? || a.MakeFolders? || a.CreateCopy? || a.TruncateCopy? || a.AppendCopy?
    || a.EnsureCleanup? || a.RemoveCleanup?
  }

  lemma CopyFrame(p: Plan, w: World, i: nat, n: nat)
    ensures SamePayload(w.disk, DoCreateCopy(p, w, i).disk) && DoCreateCopy(p, w, i).truth == w.truth
    ensures SamePayload(w.disk, DoTruncateCopy(w, i).disk) && DoTruncateCopy(w, i).truth == w.truth
    ensures SamePayload(w.disk, DoAppendCopy(w, i, n).disk) && DoAppendCopy(w, i, n).truth == w.truth
  {
  }

  lemma DirectoryFrame(p: Plan, w: World)
    ensures SamePayload(w.disk, DoEnsureStaging(w).disk) && DoEnsureStaging(w).truth == w.truth
    ensures SamePayload(w.disk, DoEnsureCleanup(p, w).disk) && DoEnsureCleanup(p, w).truth == w.truth
  {
  }

  lemma StagingFrame(p: Plan, w: World, a: Act)
    requires Stages(a)
    ensures SamePayload(w.disk, Do(p, w, a).disk) && Do(p, w, a).truth == w.truth
  {
    DirectoryFrame(p, w);
    match a
    case CreateCopy(i) => CopyFrame(p, w, i, 0);
    case TruncateCopy(i) => CopyFrame(p, w, i, 0);
    case AppendCopy(i, n) => CopyFrame(p, w, i, n);
    case _ =>
  }

  predicate Outside(a: Act) {
    Commands(a) || a.Start? || a.Stop? || a.FinishCancel? || a.Queue? || a.Detach? || a.Prepare?
  }

  predicate Commands(a: Act) {
    a.Crash? || a.Attach? || a.Capture? || a.Submit?
  }

  lemma CommandFrame(p: Plan, w: World, a: Act)
    requires Commands(a)
    ensures Do(p, w, a).disk == w.disk && Do(p, w, a).truth == w.truth
  {
  }

  lemma OutsideFrame(p: Plan, w: World, a: Act)
    requires Outside(a)
    ensures Do(p, w, a).disk == w.disk && Do(p, w, a).truth == w.truth
  {
    if Commands(a) { CommandFrame(p, w, a); }
  }

  lemma WorkFrame(p: Plan, w: World, a: Act)
    requires !Outside(a) && !Rearranges(a) && !Stages(a)
    ensures Do(p, w, a).disk == w.disk && Do(p, w, a).truth == w.truth
  {
  }

  /** All other steps leave the source, quarantine and target names alone. */
  lemma PayloadFrame(p: Plan, w: World, a: Act)
    requires !Rearranges(a)
    ensures SamePayload(w.disk, Do(p, w, a).disk) && Do(p, w, a).truth == w.truth
  {
    if Stages(a) { StagingFrame(p, w, a); } else if Outside(a) { OutsideFrame(p, w, a); } else { WorkFrame(p, w, a); }
  }

  lemma MoveDropsNothing(p: Plan, w: World, i: nat, data: Data)
    requires Safe(p, w) && Survives(w.disk, i, data)
    ensures Survives(DoMoveDirectory(p, w).disk, i, data)
  {
  }

  lemma CleanupDropsNothing(p: Plan, w: World, k: nat, i: nat, data: Data)
    requires Safe(p, w) && Survives(w.disk, i, data)
    ensures Survives(DoQuarantine(p, w, k).disk, i, data) && Survives(DoRemoveSource(p, w).disk, i, data)
  {
  }

  lemma UnlinkDropsNothing(p: Plan, w: World, k: nat, i: nat, data: Data)
    requires Safe(p, w) && Survives(w.disk, i, data)
    ensures Survives(DoUnlink(p, w, k).disk, i, data)
  {
    if DoUnlink(p, w, k) != w { UnlinkIsLast(p, w, k); }
  }

  lemma FrameDropsNothing(p: Plan, w: World, a: Act, i: nat, data: Data)
    requires !Rearranges(a) && Survives(w.disk, i, data)
    ensures Survives(Do(p, w, a).disk, i, data)
  {
    PayloadFrame(p, w, a);
  }

  lemma RearrangingDropsNothing(p: Plan, w: World, a: Act, i: nat, data: Data)
    requires Safe(p, w) && Rearranges(a) && !a.Write? && Survives(w.disk, i, data)
    ensures Survives(Do(p, w, a).disk, i, data)
  {
    if a.MoveDirectory? {
      MoveDropsNothing(p, w, i, data);
    } else if a.Unlink? {
      UnlinkDropsNothing(p, w, a.i, i, data);
    } else {
      CleanupDropsNothing(p, w, if a.Quarantine? then a.i else 0, i, data);
    }
  }

  /**
   * Only the engine changes bytes: any other step leaves what is under a source, quarantine or target name
   * under one of them.
   */
  lemma NoStepDropsBytes(p: Plan, w: World, a: Act, i: nat, data: Data)
    requires Safe(p, w) && !a.Write? && Survives(w.disk, i, data)
    ensures Survives(Do(p, w, a).disk, i, data)
  {
    if Rearranges(a) { RearrangingDropsNothing(p, w, a, i, data); } else { FrameDropsNothing(p, w, a, i, data); }
  }

  /**
   * The one unlink happens in durable cleanup, after the mapping commit, with the same bytes at the published
   * target.
   */
  lemma UnlinkIsLast(p: Plan, w: World, i: nat)
    requires Safe(p, w) && DoUnlink(p, w, i) != w
    ensures w.stage.Cleanup? && w.moved && w.disk.tgtDir.Some?
    ensures i in w.truth && At(w.disk.qua, i, w.truth[i]) && At(w.disk.tgt, i, w.truth[i])
  {
  }

  predicate Same(a: map<nat, File>, b: map<nat, File>, i: nat) {
    i in a && i in b && a[i] == b[i]
  }

  predicate Departs(p: Plan, w: World, a: Act, i: nat) {
    i in w.disk.src && i !in Do(p, w, a).disk.src
  }

  lemma DeparturesKept(p: Plan, w: World, a: Act, i: nat)
    requires Safe(p, w) && Departs(p, w, a, i) && Rearranges(a)
    ensures a == Quarantine(i) || a.MoveDirectory?
    ensures Same(Do(p, w, a).disk.qua, w.disk.src, i) || Same(Do(p, w, a).disk.tgt, w.disk.src, i)
  {
  }

  /** No other step removes a quarantined file, and a source file leaves only for its quarantine or its target name. */
  lemma OnlyUnlinkRemoves(p: Plan, w: World, a: Act, i: nat)
    requires Safe(p, w)
    ensures i in w.disk.qua && i !in Do(p, w, a).disk.qua ==> a == Unlink(i)
    ensures Departs(p, w, a, i) ==>
              && (a == Quarantine(i) || a.MoveDirectory?)
              && (Same(Do(p, w, a).disk.qua, w.disk.src, i) || Same(Do(p, w, a).disk.tgt, w.disk.src, i))
  {
    if !Rearranges(a) {
      PayloadFrame(p, w, a);
    } else if Departs(p, w, a, i) {
      DeparturesKept(p, w, a, i);
    }
  }

  /** Once publishing is durable no command and no crash leads back: the operation can only go forward. */
  lemma {:induction false} LateForever(p: Plan, w: World, acts: seq<Act>)
    requires Safe(p, w) && Late(w.stage)
    ensures Late(Run(p, w, acts).stage)
    decreases |acts|
  {
    if acts != [] {
      LateStep(p, w, acts[0]);
      StepSafe(p, w, acts[0]);
      LateForever(p, Do(p, w, acts[0]), acts[1..]);
    }
  }

  /** Steps that write the stage. */
  predicate Restages(a: Act) {
    a.Submit? || a.FinishCancel? || a.Queue? || a.Prepare? || a.Begin? || a.FinishCopying? || a.FallBack?
    || a.ToPublished? || a.Commit? || a.ToCleanup? || a.Complete?
  }

  lemma StageFrame(p: Plan, w: World, a: Act)
    requires !Restages(a)
    ensures Do(p, w, a).stage == w.stage
  {
  }

  lemma LateRestage(p: Plan, w: World, a: Act)
    requires Restages(a) && Late(w.stage) && (w.worker.Some? ==> InStep(w.worker.value, w.stage))
    ensures Late(Do(p, w, a).stage)
  {
  }

  lemma LateStep(p: Plan, w: World, a: Act)
    requires Late(w.stage) && (w.worker.Some? ==> InStep(w.worker.value, w.stage))
    ensures Late(Do(p, w, a).stage)
  {
    if Restages(a) { LateRestage(p, w, a); } else { StageFrame(p, w, a); }
  }

  function Prefixes(p: Plan, w: World, acts: seq<Act>): seq<World>
    decreases |acts|
  {
    [w] + if acts == [] then [] else Prefixes(p, Do(p, w, acts[0]), acts[1..])
  }

  predicate Quiet(acts: seq<Act>) {
    forall i :: 0 <= i < |acts| ==> !acts[i].Write?
  }

  lemma EarlyStep(p: Plan, w: World, a: Act)
    requires Safe(p, w) && !Late(Do(p, w, a).stage) && !a.Write?
    ensures !Late(w.stage) && Do(p, w, a).disk.src == w.disk.src && Do(p, w, a).disk.srcDir == w.disk.srcDir
    ensures Do(p, w, a).truth == w.truth
  {
    if Late(w.stage) { LateStep(p, w, a); }
    if !Rearranges(a) { PayloadFrame(p, w, a); }
  }

  /**
   * An operation that ended cancelled (or is anywhere before publishing) never created the target
   * at any point of the run, never changed the mapping, and if the engine wrote nothing left the
   * source tree identical, file identities included.
   */
  lemma {:induction false} CancelLeavesNoTrace(p: Plan, w: World, acts: seq<Act>)
    requires Safe(p, w) && !Late(Run(p, w, acts).stage)
    ensures forall k :: 0 <= k < |Prefixes(p, w, acts)| ==>
              var v := Prefixes(p, w, acts)[k];
              !Late(v.stage) && !v.moved && v.disk.tgtDir.None? && v.disk.qua == map[] && Holds(v.disk.src, v.truth)
    ensures Quiet(acts) ==> Run(p, w, acts).disk.src == w.disk.src && Run(p, w, acts).disk.srcDir == w.disk.srcDir
    decreases |acts|
  {
    if Late(w.stage) { LateForever(p, w, acts); }
    if acts != [] {
      StepSafe(p, w, acts[0]);
      var v := Do(p, w, acts[0]);
      if Late(v.stage) { LateForever(p, v, acts[1..]); }
      CancelLeavesNoTrace(p, v, acts[1..]);
      if Quiet(acts) {
        assert !acts[0].Write?;
        assert Quiet(acts[1..]) by {
          forall i | 0 <= i < |acts| - 1 ensures !acts[1..][i].Write? { assert acts[1..][i] == acts[i + 1]; }
        }
        EarlyStep(p, w, acts[0]);
      }
    }
  }

  /** Cancellation and publication race on the row: a cancel captured before publishing was durable is refused after. */
  lemma NoCancelOncePublishing(p: Plan, w: World, acts: seq<Act>, c: Command)
    requires Safe(p, w) && Late(w.stage) && c.kind.Cancel?
    ensures var w' := Run(p, w, acts); DoSubmit(w', c) == w' && DoFinishCancel(w') == w'
  {
    LateForever(p, w, acts);
  }

  // ------------------------------------------------------------------ the recovery row

  /**
   * The storage_recovery row with its mapping, as the repository's transactions change it. The
   * world around the row (disk, worker, captured commands, engine) is ghost.
   */
  class RecoveryRow {
    var stage: Stage
    var journal: Journal
    var error: bool
    var moved: bool
    ghost var around: World

    ghost function View(): World
      reads this
    {
      around.(stage := stage, journal := journal, error := error, moved := moved)
    }

    /** A planned operation on an undamaged source: where every run of the state machine starts safely. */
    constructor (journal: Journal, ghost p: Plan, ghost w: World)
      requires Init(p, w) && w.journal == journal && !w.error
      ensures View() == w && Safe(p, View())
    {
      stage, this.journal, error, moved := Planned, journal, false, false;
      around := w;
    }

    /** TransitionStorageOperation: a compare-and-swap on the exact stage. */
    method Swap(from: Stage, to: Stage, j: Journal, failed: bool) returns (ok: bool)
      modifies this`stage, this`journal, this`error
      ensures ok == (old(stage) == from)
      ensures View() == if ok then old(View()).(stage := to, journal := j, error := failed) else old(View())
    {
      ok := stage == from;
      if ok { stage, journal, error := to, j, failed; }
    }

    /** locationTransition by a worker at stage `from`: its own record follows the row only when the swap succeeds. */
    method WorkerTransition(from: Stage, to: Stage, j: Journal) returns (ok: bool)
      requires Running(View(), from)
      modifies this
      ensures ok == (old(stage) == from) && View() == Transition(old(View()), j, to)
    {
      ok := Swap(from, to, j, false);
      if ok { around := around.(worker := Some(Worker(to, j, Entered, true))); }
    }

    /** A command submits the row it captured: refused outright, refused by the swap, or written. */
    method SubmitCommand(c: Command, ghost p: Plan) returns (ok: bool)
      requires c in View().captured && Safe(p, View())
      modifies this
      ensures View() == DoSubmit(old(View()), c) && Safe(p, View())
      ensures ok == (Target(c).Some? && old(stage) == c.stage)
    {
      OutsideSafe(p, View(), Submit(c));
      ok := false;
      if Target(c).Some? {
        ok := Swap(c.stage, Target(c).value, c.journal, c.kind.Failure?);
        if ok { around := around.(captured := around.captured - {c}); }
      }
    }

    /** CommitStorageOperation after the target was validated: the stage and the mapping change together, once. */
    method CommitMapping(j: Journal, valid: bool, ghost p: Plan) returns (ok: bool)
      requires Running(View(), Published) && View().worker.value.journal == j && Safe(p, View())
      requires valid == TargetMatches(p, j, View().disk)
      modifies this
      ensures View() == DoCommit(p, old(View())) && Safe(p, View())
      ensures ok ==> moved && stage.Committed?
    {
      PublishSafe(p, View(), Commit);
      ok := valid && stage.Published? && !moved;
      if ok {
        stage, moved, journal, error := Committed, true, j, false;
        around := around.(worker := Some(around.worker.value.(stage := Committed, at := Entered)));
      }
    }
  }
}
