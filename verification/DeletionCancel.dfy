/**
 * Deleting a torrent with its payload while a cancel may arrive. The worker holds the record lock;
 * the cancel commits its request without the lock and completes it under the lock. Each database
 * statement and each unlink is one step, so a cancel can fall between any two, and a crash too.
 */
module DeletionCancel {
  import opened Wrappers

  datatype Stage = Intent | ManifestReady | Removing | RemovingRecord | CancelRequested | Cancelled

  datatype Removed = Nothing | Unknown | Partial

  /** The storage_recovery row of this deletion; pending until the cancel completes. */
  datatype Row = Row(pending: bool, stage: Stage, removed: Removed)

  /** Gated: the durable gate was passed for this entry. Marking: the first removal is being recorded. */
  datatype Progress = Preparing | Looping(next: nat) | Gated(next: nat) | Marking(next: nat) | Deleting

  datatype Worker = Worker(at: Progress, removedAny: bool)

  datatype Holder = Free | ByWorker | ByCancel

  /**
   * `mode`: the record is marked for deletion. `owned`: the manifest, payload and part files in
   * order. `gone` counts files removed by this deletion, `late` those removed after a cancel committed.
   */
  datatype World = World(record: bool, mode: bool, row: Row, files: set<nat>, owned: seq<nat>,
                         worker: Option<Worker>, holder: Holder, gone: nat, late: nat)

  datatype Unlink = Done | Failed

  datatype Step =
    | Start | Advance | BeginRemoving | Gate | Remove(result: Unlink) | Mark | FinishLoop | DeleteRecord | Fail
    | RequestCancel | LockForCancel | CompleteCancel | Abandon
    | Crash

  predicate Requested(stage: Stage) {
    stage.CancelRequested? || stage.Cancelled?
  }

  // ------------------------------------------------------------------ the worker

  predicate At(w: World, p: Progress) {
    w.worker.Some? && w.worker.value.at == p
  }

  function Exit(w: World): World {
    w.(worker := None, holder := Free)
  }

  function Move(w: World, p: Progress): World
    requires w.worker.Some?
  {
    w.(worker := Some(w.worker.value.(at := p)))
  }

  /** AdvanceDeletion: refused once a cancel is requested, and the worker returns that error. */
  function DoAdvance(w: World, stage: Stage, removed: Option<Removed>, after: Progress): World
    requires w.worker.Some?
  {
    if !w.record || !w.row.pending || Requested(w.row.stage) then Exit(w)
    else Move(w.(row := Row(true, stage, if removed.Some? then removed.value else w.row.removed)), after)
  }

  /** DeletionGate, read right before each unlink. */
  function DoGate(w: World): World {
    if w.worker.None? || !w.worker.value.at.Looping? || w.worker.value.at.next >= |w.owned| then w
    else if !w.record || !w.row.pending || Requested(w.row.stage) then Exit(w)
    else Move(w, Gated(w.worker.value.at.next))
  }

  function DoRemove(w: World, result: Unlink): World {
    if w.worker.None? || !w.worker.value.at.Gated? || w.worker.value.at.next >= |w.owned| then w
    else if result.Failed? then Exit(w)
    else
      var i := w.worker.value.at.next;
      if w.owned[i] !in w.files then Move(w, Looping(i + 1))
      else
        var w1 := w.(files := w.files - {w.owned[i]}, gone := w.gone + 1,
                     late := if Requested(w.row.stage) then w.late + 1 else w.late);
        if w.worker.value.removedAny then Move(w1, Looping(i + 1))
        else w1.(worker := Some(Worker(Marking(i + 1), true)))
  }

  function DoMark(w: World): World {
    if w.worker.None? || !w.worker.value.at.Marking? then w
    else
      Move(if w.record && w.row.pending then w.(row := w.row.(removed := Partial)) else w,
           Looping(w.worker.value.at.next))
  }

  /** DeleteTorrent refuses a record marked for deletion whose cancel was requested. */
  function DoDeleteRecord(w: World): World {
    if !At(w, Deleting) then w
    else if w.mode && w.row.stage.CancelRequested? then Exit(w)
    else Exit(w.(record := false))
  }

  // ------------------------------------------------------------------ the cancel

  function DoRequestCancel(w: World): World {
    if w.record && (w.row.pending || w.row.stage.Cancelled?)
    then w.(row := w.row.(stage := if w.row.stage.Cancelled? then Cancelled else CancelRequested)) else w
  }

  function DoCompleteCancel(w: World): World {
    if w.holder.ByCancel? && w.record && Requested(w.row.stage)
    then w.(row := Row(false, Cancelled, w.row.removed), mode := false, holder := Free) else w
  }

  function Do(w: World, a: Step): World {
    match a
    case Start => if w.holder.Free? && w.record && w.mode
        then w.(worker := Some(Worker(Preparing, false)), holder := ByWorker) else w
    case Advance => if At(w, Preparing) then DoAdvance(w, ManifestReady, None, Preparing) else w
    case BeginRemoving => if At(w, Preparing) then DoAdvance(w, Removing, Some(Unknown), Looping(0)) else w
    case Gate => DoGate(w)
    case Remove(result) => DoRemove(w, result)
    case Mark => DoMark(w)
    case FinishLoop => if At(w, Looping(|w.owned|)) then DoAdvance(w, RemovingRecord, None, Deleting) else w
    case DeleteRecord => DoDeleteRecord(w)
    case Fail => if w.worker.Some? then Exit(w) else w
    case RequestCancel => DoRequestCancel(w)
    case LockForCancel => if w.holder.Free? && w.record then w.(holder := ByCancel) else w
    case CompleteCancel => DoCompleteCancel(w)
    case Abandon => if w.holder.ByCancel? then w.(holder := Free) else w
    case Crash => w.(worker := None, holder := Free)
  }

  function Run(w: World, steps: seq<Step>): World
    decreases |steps|
  {
    if steps == [] then w else Run(Do(w, steps[0]), steps[1..])
  }

  // ------------------------------------------------------------------ the invariant

  /** The entries before `n` are no longer on disk. */
  predicate Cleared(w: World, n: nat) {
    n <= |w.owned| && forall i :: 0 <= i < n ==> w.owned[i] !in w.files
  }

  predicate Sound(w: World) {
    && (w.worker.Some? <==> w.holder.ByWorker?)
    && (w.gone > 0 ==> !w.row.removed.Nothing?)
    && (w.worker.Some? && !w.worker.value.at.Preparing? ==> !w.row.removed.Nothing?)
    && (w.row.stage.Cancelled? <==> !w.row.pending) && (w.record ==> (w.mode <==> w.row.pending))
    && (w.worker.Some? ==> w.record && w.row.pending)
    && (!Requested(w.row.stage) ==> w.late == 0)
    && w.late <= 1 && (w.late == 1 ==> !(w.worker.Some? && w.worker.value.at.Gated?))
    && (Requested(w.row.stage) ==> w.record)
    && (w.worker.Some? ==> match w.worker.value.at
                           case Preparing => true
                           case Looping(n) => Cleared(w, n)
                           case Gated(n) => Cleared(w, n)
                           case Marking(n) => Cleared(w, n)
                           case Deleting => Cleared(w, |w.owned|))
    && (!w.record ==> Cleared(w, |w.owned|))
  }

  lemma StepSound(w: World, a: Step)
    requires Sound(w)
    ensures Sound(Do(w, a))
  {
  }

  lemma {:induction false} RunSound(w: World, steps: seq<Step>)
    requires Sound(w)
    ensures Sound(Run(w, steps))
    decreases |steps|
  {
    if steps != [] {
      StepSound(w, steps[0]);
      RunSound(Do(w, steps[0]), steps[1..]);
    }
  }

  // ------------------------------------------------------------------ what every run guarantees

  /** A deletion intent just recorded: the trigger writes removed_data none. */
  predicate Fresh(w: World) {
    && w.record && w.mode && w.row == Row(true, Intent, Nothing)
    && w.worker.None? && w.holder.Free? && w.gone == 0 && w.late == 0
  }

  /** Once the cancel has committed, at most one more file goes and the record stays, in every continuation. */
  lemma {:induction false} CancelStopsDeletion(w: World, steps: seq<Step>)
    requires Sound(w) && Requested(w.row.stage)
    ensures Requested(Run(w, steps).row.stage) && Run(w, steps).record && Run(w, steps).late <= 1
    ensures Run(w, steps).gone - w.gone == Run(w, steps).late - w.late
    decreases |steps|
  {
    if steps != [] {
      StepSound(w, steps[0]);
      CancelStopsDeletion(Do(w, steps[0]), steps[1..]);
    }
  }

  /** At every point of every run, crashes included, a removed file shows in the durable row. */
  lemma RemovalIsRecorded(w: World, steps: seq<Step>)
    requires Fresh(w)
    ensures Run(w, steps).gone > 0 ==> !Run(w, steps).row.removed.Nothing?
    ensures Run(w, steps).late <= 1
    ensures !Run(w, steps).record ==>
              forall i :: 0 <= i < |Run(w, steps).owned| ==> Run(w, steps).owned[i] !in Run(w, steps).files
  {
    RunSound(w, steps);
  }

  lemma StepRemoves(w: World, a: Step)
    ensures Do(w, a).owned == w.owned && Do(w, a).files <= w.files
    ensures |Do(w, a).files| + Do(w, a).gone == |w.files| + w.gone
    ensures forall f :: f in w.files - Do(w, a).files ==> f in w.owned
  {
    if Do(w, a).files != w.files {
      var f := w.owned[w.worker.value.at.next];
      assert Do(w, a).files == w.files - {f};
    }
  }

  /** `gone` really counts what left the disk, and nothing outside the manifest ever does. */
  lemma {:induction false} OnlyOwnedFilesGo(w: World, steps: seq<Step>)
    ensures Run(w, steps).owned == w.owned && Run(w, steps).files <= w.files
    ensures |Run(w, steps).files| + Run(w, steps).gone == |w.files| + w.gone
    ensures forall f :: f in w.files - Run(w, steps).files ==> f in w.owned
    decreases |steps|
  {
    if steps != [] {
      StepRemoves(w, steps[0]);
      OnlyOwnedFilesGo(Do(w, steps[0]), steps[1..]);
    }
  }

  /** The bound is met: a cancel that commits between the gate and the unlink loses exactly that file. */
  lemma CancelAfterGateLosesOne(w: World)
    requires Sound(w) && w.worker.Some? && w.worker.value.at.Gated? && !Requested(w.row.stage)
    requires w.worker.value.at.next < |w.owned| && w.owned[w.worker.value.at.next] in w.files
    ensures Do(Do(w, RequestCancel), Remove(Done)).late == 1
  {
    StepSound(w, RequestCancel);
  }

  // ------------------------------------------------------------------ the unlink loop

  function Elements(s: seq<nat>): set<nat> {
    set x | x in s
  }

  /**
   * The loop of deletePayloadLocked on its own: `gates` are the answers of the durable gate. It
   * removes exactly the entries before the first closed gate and says whether anything was there.
   */
  method RemoveOwned(owned: seq<nat>, files: set<nat>, gates: seq<bool>)
      returns (left: set<nat>, removedAny: bool, stopped: nat)
    requires |gates| == |owned|
    ensures stopped <= |owned| && (forall i :: 0 <= i < stopped ==> gates[i]) && (stopped < |owned| ==> !gates[stopped])
    ensures left == files - Elements(owned[..stopped])
    ensures removedAny <==> left != files
  {
    left, removedAny, stopped := files, false, 0;
    while stopped < |owned| && gates[stopped]
      invariant stopped <= |owned| && forall i :: 0 <= i < stopped ==> gates[i]
      invariant left == files - Elements(owned[..stopped]) && (removedAny <==> left != files)
    {
      var path := owned[stopped];
      assert owned[..stopped + 1] == owned[..stopped] + [path];
      if path in left {
        left := left - {path};
        removedAny := true;
      }
      stopped := stopped + 1;
    }
  }
}
