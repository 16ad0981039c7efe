/**
 The applied runtime policy of one torrent: a record of independent facts and a pure
 transition function over runtime events (internal/engine/runtime_policy.go).

 Phases, reasons and event kinds are strings in the program.  Each vocabulary is a datatype
 here, with one constructor for any other text; NoReason is the empty reason.
 */
module RuntimePolicy {

  datatype Intent = Unset | Enabled | Paused

  datatype Reason =
    | NoReason | DiskFull | MissingFiles | VerificationFailed | ActivationBlocked
    | MetadataPersistence | InvalidSelection
    | OtherReason(text: string)

  datatype Phase =
    | PhasePaused | PhaseQueued | PhaseDownloading | PhaseSeeding | PhaseStreaming
    | PhaseDiskFull | PhaseError | PhaseMissingFiles
    | PhaseUnknown(name: string)

  datatype VerificationEvent = Begin | Succeeded | Failed | Cancelled | Restored | VerificationUnknown

  datatype Event =
    | Registered(phase: Phase, err: Reason, diskReason: Reason, staged: bool)
    | Activated(phase: Phase, err: Reason, fullReconcile: bool, diskRecovered: bool)
    | Deleted
    | Closed
    | PauseRequested(fullReconcile: bool)
    | RestoreStaged
    | Verification(verification: VerificationEvent)
    | SelectionObserved(metadataKnown: bool, selectedComplete: bool, payloadComplete: bool, selectionEmpty: bool)
    | SlotRequested(slotAvailable: bool)
    | SlotReleased
    | DiskBlocked(diskReason: Reason)
    | ApplyFailed
    | MetadataFailed
    | SelectionInvalid
    | PayloadMissing
    | EventUnknown

  /** The four independent fault latches, in the order in which they are reported. */
  datatype Faults = Faults(missing: Reason, metadata: Reason, selection: Reason, legacy: Reason)

  const NoFaults := Faults(NoReason, NoReason, NoReason, NoReason)

  datatype Policy = Policy(
    selectionEmpty: bool,
    registered: bool,
    terminal: bool,
    run: Intent,
    slot: bool,
    checking: bool,
    uncertain: bool,
    initializing: bool,
    verificationFault: bool,
    disk: Reason,
    faults: Faults,
    selectedComplete: bool,
    payloadComplete: bool)
  {
    predicate UploadEligible() {
      registered && !terminal && run == Enabled && !initializing && !checking && !uncertain
      && !verificationFault && faults == NoFaults
    }

    predicate PayloadEligible() {
      UploadEligible() && disk == NoReason
    }

    /** The display phase and error: outputs of the policy, never inputs. */
    function Projection(): (Phase, Reason) {
      if run == Paused then (PhasePaused, NoReason)
      else if disk != NoReason then (PhaseDiskFull, disk)
      else if faults.missing != NoReason then (PhaseMissingFiles, faults.missing)
      else if faults.metadata != NoReason then (PhaseError, faults.metadata)
      else if faults.selection != NoReason then (PhaseError, faults.selection)
      else if faults.legacy != NoReason then (PhaseError, faults.legacy)
      else if verificationFault && !checking then (PhaseError, VerificationFailed)
      else if !terminal && !initializing && !checking && !uncertain && payloadComplete && !selectionEmpty then
        (PhaseSeeding, NoReason)
      else if !terminal && !initializing && !checking && !uncertain && slot then (PhaseDownloading, NoReason)
      else (PhaseQueued, NoReason)
    }
  }

  const Initial := Policy(false, false, false, Unset, false, false, false, false, false, NoReason, NoFaults, false,
                          false)

  /** What an accepted event asks of the effect layer, beside the next policy. */
  datatype Decision = Decision(
    policy: Policy,
    resetDownload: bool,
    closePayload: bool,
    closeUpload: bool,
    allowUpload: bool,
    clearBasePriorities: bool,
    closeBackgroundPayload: bool,
    invalidateApplied: bool)

  datatype Veto =
    | AlreadyRegistered
    | CapacityUnavailable
    | EmptyDiskReason
    | InconsistentCompletion
    | InitializationVeto
    | MetadataUnknown
    | NotRegistered
    | RuntimeTerminal
    | RuntimeVeto
    | SelectionComplete
    | SlotAlreadyOwned
    | SlotNotOwned
    | UnknownActivationPhase
    | UnknownEvent
    | VerificationConflict
    | VerificationVeto

  datatype Outcome = Rejected(veto: Veto) | Accepted(decision: Decision)

  /** Close both gates, clear priorities, drop the acknowledged revision. */
  function Quiesce(n: Policy): Decision {
    Decision(n, true, true, true, false, true, false, true)
  }

  /** Close the payload gate and let upload follow eligibility. */
  function Reopen(n: Policy): Decision {
    Decision(n, true, true, !n.UploadEligible(), n.UploadEligible(), false, false, false)
  }

  /** Fault and run-intent axes installed by a registration or activation phase. */
  function Activate(n: Policy, phase: Phase, err: Reason): Policy {
    n.(run := if phase.PhasePaused? then Paused else Enabled,
       slot := false,
       payloadComplete := false,
       verificationFault := n.verificationFault || (phase.PhaseError? && err == VerificationFailed),
       faults := ActivationFaults(n.faults, phase, err),
       disk := if phase.PhaseDiskFull? && n.disk == NoReason then
                 if err == NoReason then DiskFull else err
               else n.disk)
  }

  function ActivationFaults(f: Faults, phase: Phase, err: Reason): Faults {
    if phase.PhaseMissingFiles? then f.(missing := MissingFiles)
    else if !phase.PhaseError? || err == VerificationFailed then f
    else if err == MetadataPersistence then f.(metadata := err)
    else if err == InvalidSelection then f.(selection := err)
    else f.(legacy := if err == NoReason then ActivationBlocked else err)
  }

  /** The verification axis, or None where the event is rejected. */
  function Verify(p: Policy, v: VerificationEvent): Outcome {
    match v
    case Begin =>
      if p.checking || p.initializing then Rejected(VerificationConflict)
      else Accepted(Reopen(p.(checking := true, uncertain := true, selectedComplete := false,
                              payloadComplete := false, slot := false)))
    case Restored => Accepted(Reopen(p.(uncertain := true, slot := false)))
    case VerificationUnknown => Rejected(VerificationConflict)
    case _ =>
      if !p.checking then Rejected(VerificationConflict)
      else Accepted(Reopen(p.(checking := false, uncertain := v != Succeeded,
                              verificationFault := v != Succeeded, slot := false)))
  }

  function Transition(p: Policy, e: Event): Outcome {
    if p.terminal then Rejected(RuntimeTerminal)
    else if !p.registered && !e.Registered? then Rejected(NotRegistered)
    else
      match e
      case Registered(phase, err, diskReason, staged) =>
        if phase.PhaseUnknown? then Rejected(UnknownActivationPhase)
        else if p.registered then Rejected(AlreadyRegistered)
        else Accepted(Reopen(Activate(p.(registered := true, initializing := staged, disk := diskReason), phase, err)))
      case Activated(phase, err, fullReconcile, diskRecovered) =>
        if phase.PhaseUnknown? then Rejected(UnknownActivationPhase)
        else if p.checking || p.uncertain then Rejected(VerificationVeto)
        else if p.initializing && !fullReconcile then Rejected(InitializationVeto)
        else
          Accepted(Reopen(Activate(Recovered(p, diskRecovered), phase, err)))
      case Deleted => Accepted(Quiesce(Terminate(p)))
      case Closed => Accepted(Quiesce(Terminate(p)))
      case PauseRequested(fullReconcile) =>
        Accepted(Quiesce(p.(run := Paused, slot := false,
                            initializing := p.initializing && !fullReconcile)))
      case RestoreStaged =>
        if p.checking || p.uncertain then Rejected(VerificationVeto)
        else Accepted(Quiesce(p.(initializing := true, slot := false)))
      case Verification(v) => Verify(p, v)
      case SelectionObserved(known, selected, complete, empty) =>
        if !known then Rejected(MetadataUnknown)
        else if complete && !selected then Rejected(InconsistentCompletion)
        else if p.initializing || p.checking || p.uncertain then Rejected(RuntimeVeto)
        else
          var n := p.(selectedComplete := selected, payloadComplete := complete, selectionEmpty := empty);
          var drop := selected || !n.PayloadEligible();
          Accepted(Decision(if drop then n.(slot := false) else n,
                            drop && p.slot, false, false, false, drop && p.slot, drop && p.slot, false))
      case SlotRequested(available) =>
        if !p.PayloadEligible() then Rejected(RuntimeVeto)
        else if p.slot then Rejected(SlotAlreadyOwned)
        else if p.selectedComplete || p.payloadComplete then Rejected(SelectionComplete)
        else if !available then Rejected(CapacityUnavailable)
        else Accepted(Decision(p.(slot := true), false, false, false, false, false, false, false))
      case SlotReleased =>
        if !p.slot then Rejected(SlotNotOwned)
        else Accepted(Decision(p.(slot := false), true, false, false, false, true, true, false))
      case DiskBlocked(reason) =>
        if reason == NoReason then Rejected(EmptyDiskReason)
        else Accepted(Decision(p.(disk := reason, slot := false), true, true, false, false, false, false, false))
      case ApplyFailed => Accepted(Quiesce(p.(initializing := true, slot := false)))
      case MetadataFailed =>
        Accepted(Quiesce(p.(initializing := true, slot := false, faults := p.faults.(metadata := MetadataPersistence))))
      case SelectionInvalid =>
        Accepted(Quiesce(p.(initializing := true, slot := false, faults := p.faults.(selection := InvalidSelection))))
      case PayloadMissing =>
        Accepted(Quiesce(p.(initializing := true, slot := false, faults := p.faults.(missing := MissingFiles))))
      case EventUnknown => Rejected(UnknownEvent)
  }

  /** Activation leaves initialization; a disk recovery also drops every latch except verification. */
  function Recovered(p: Policy, diskRecovered: bool): Policy {
    if diskRecovered then p.(initializing := false, disk := NoReason, faults := NoFaults)
    else p.(initializing := false)
  }

  function Terminate(p: Policy): Policy {
    p.(terminal := true, initializing := true, slot := false,
       uncertain := p.uncertain || p.checking, checking := false)
  }

  /** The policy after an event: a rejected event changes nothing. */
  function Next(p: Policy, e: Event): Policy {
    match Transition(p, e)
    case Accepted(d) => d.policy
    case Rejected(_) => p
  }

  function Run(p: Policy, events: seq<Event>): Policy
    decreases |events|
  {
    if events == [] then p else Run(Next(p, events[0]), events[1..])
  }

  /** What holds of every policy reachable from registration. */
  predicate Sound(p: Policy) {
    && (p.slot ==> p.PayloadEligible() && !p.selectedComplete && !p.payloadComplete)
    && (p.checking ==> p.uncertain)
    && (p.payloadComplete ==> p.selectedComplete)
    && (!p.registered ==> p == Initial)
  }

  predicate ClearsDisk(e: Event) {
    e.Activated? && e.diskRecovered && !e.phase.PhaseDiskFull?
  }

  lemma ActivateSound(n: Policy, phase: Phase, err: Reason)
    requires n.registered && (n.checking ==> n.uncertain)
    ensures Sound(Activate(n, phase, err))
  {}

  lemma VerifySound(p: Policy, v: VerificationEvent)
    requires Sound(p) && p.registered && Verify(p, v).Accepted?
    ensures Sound(Verify(p, v).decision.policy)
  {}

  lemma NextSound(p: Policy, e: Event)
    requires Sound(p)
    ensures Sound(Next(p, e))
  {
    if Transition(p, e).Accepted? {
      match e
      case Registered(phase, err, diskReason, staged) =>
        ActivateSound(p.(registered := true, initializing := staged, disk := diskReason), phase, err);
      case Activated(phase, err, _, diskRecovered) =>
        ActivateSound(Recovered(p, diskRecovered), phase, err);
      case Verification(v) => VerifySound(p, v);
      case _ =>
    }
  }

  lemma {:induction false} RunSound(p: Policy, events: seq<Event>)
    requires Sound(p)
    ensures Sound(Run(p, events))
    decreases |events|
  {
    if events != [] {
      NextSound(p, events[0]);
      RunSound(Next(p, events[0]), events[1..]);
    }
  }

  /** Every run from the unregistered policy keeps the four invariants. */
  lemma ReachableSound(events: seq<Event>)
    ensures Sound(Run(Initial, events))
  {
    RunSound(Initial, events);
  }

  /** A terminal runtime rejects every later event of every run. */
  lemma {:induction false} TerminalAbsorbing(p: Policy, events: seq<Event>)
    requires p.terminal
    ensures Run(p, events) == p
    ensures forall e :: e in events ==> Transition(p, e).Rejected?
    decreases |events|
  {
    if events != [] {
      assert Next(p, events[0]) == p;
      TerminalAbsorbing(p, events[1..]);
    }
  }

  /** Only a slot request grants a slot. */
  lemma SlotOnlyRequested(p: Policy, e: Event)
    requires !e.SlotRequested?
    ensures Next(p, e).slot ==> p.slot
  {
    if e.Verification? { VerifyKeepsDisk(p, e.verification); }
  }

  lemma ActivationDisk(p: Policy, phase: Phase, err: Reason, diskRecovered: bool)
    requires p.disk != NoReason
    ensures Activate(Recovered(p, diskRecovered), phase, err).disk == NoReason <==>
            diskRecovered && !phase.PhaseDiskFull?
  {}

  lemma VerifyKeepsDisk(p: Policy, v: VerificationEvent)
    ensures Verify(p, v).Accepted? ==> Verify(p, v).decision.policy.disk == p.disk
                                       && Verify(p, v).decision.policy.registered == p.registered
  {}

  /** An accepted event clears a latched disk reason exactly when it is a recovery activation. */
  lemma DiskClearedOnlyByRecovery(p: Policy, e: Event)
    requires p.registered && p.disk != NoReason && Transition(p, e).Accepted?
    ensures Next(p, e).disk == NoReason <==> ClearsDisk(e)
    ensures Next(p, e).registered
  {
    if e.Activated? {
      ActivationDisk(p, e.phase, e.err, e.diskRecovered);
    } else if e.Verification? {
      VerifyKeepsDisk(p, e.verification);
    }
  }

  /** Over a whole run without a recovery activation, a disk reason stays latched. */
  lemma {:induction false} DiskLatched(p: Policy, events: seq<Event>)
    requires p.registered && p.disk != NoReason
    requires forall e :: e in events ==> !ClearsDisk(e)
    ensures Run(p, events).disk != NoReason && !Run(p, events).PayloadEligible()
    decreases |events|
  {
    if events != [] {
      if Transition(p, events[0]).Accepted? { DiskClearedOnlyByRecovery(p, events[0]); }
      assert events[0] in events;
      DiskLatched(Next(p, events[0]), events[1..]);
    }
  }

  /** Uncertainty ends exactly at an accepted successful verification. */
  lemma UncertaintyEndsOnlyBySuccess(p: Policy, e: Event)
    requires p.uncertain && Transition(p, e).Accepted?
    ensures !Next(p, e).uncertain <==> e == Verification(Succeeded)
  {
    match e
    case Verification(_) =>
    case _ =>
  }

  /** From the start of a verification, no run opens payload or upload before it succeeds. */
  lemma {:induction false} VerificationBlocksPayload(p: Policy, events: seq<Event>)
    requires p.uncertain
    requires Verification(Succeeded) !in events
    ensures Run(p, events).uncertain
    ensures !Run(p, events).PayloadEligible() && !Run(p, events).UploadEligible()
    decreases |events|
  {
    if events != [] {
      if Transition(p, events[0]).Accepted? { UncertaintyEndsOnlyBySuccess(p, events[0]); }
      assert events[0] in events;
      VerificationBlocksPayload(Next(p, events[0]), events[1..]);
    }
  }

  lemma VerificationBeginVetoes(p: Policy, events: seq<Event>)
    requires Transition(p, Verification(Begin)).Accepted?
    requires Verification(Succeeded) !in events
    ensures var q := Run(p, [Verification(Begin)] + events);
            q.uncertain && !q.PayloadEligible() && !q.UploadEligible()
  {
    var all := [Verification(Begin)] + events;
    assert all[1..] == events;
    VerificationBlocksPayload(Next(p, Verification(Begin)), events);
  }

  /** No event withdraws payload eligibility without asking for the payload gate to close. */
  lemma LosingEligibilityClosesPayload(p: Policy, e: Event)
    requires Transition(p, e).Accepted?
    requires p.PayloadEligible() && !Next(p, e).PayloadEligible()
    ensures Transition(p, e).decision.closePayload
  {}

  /** The displayed phase is Downloading exactly when the torrent holds a slot. */
  lemma DownloadingIffSlot(events: seq<Event>)
    ensures var p := Run(Initial, events); p.Projection().0 == PhaseDownloading <==> p.slot
  {
    ReachableSound(events);
  }

  // ------------------------------------------------------------------ restoring with activation blocks

  datatype Block =
    | BlockMissing | BlockMetadata | BlockSelection | BlockLegacy | BlockVerification
    | BlockOther(kind: string)

  /** restoreActivation: the phase durable authorities allow, by a fixed precedence of the block kinds. */
  function RestoreActivation(run: Intent, disk: Reason, blocks: seq<Block>): (Phase, Reason) {
    if run == Paused then (PhasePaused, NoReason)
    else if run != Enabled then (PhaseError, ActivationBlocked)
    else if disk != NoReason then (PhaseDiskFull, disk)
    else if BlockMissing in blocks then (PhaseMissingFiles, MissingFiles)
    else if BlockMetadata in blocks then (PhaseError, MetadataPersistence)
    else if BlockSelection in blocks then (PhaseError, InvalidSelection)
    else if BlockLegacy in blocks then (PhaseError, ActivationBlocked)
    else if exists b :: b in blocks && b != BlockVerification then (PhaseError, ActivationBlocked)
    else if blocks != [] then (PhaseError, VerificationFailed)
    else (PhaseQueued, NoReason)
  }

  /** RestoreTorrent registers staged; FinishRestore activates with the error on display. */
  function RestoredPolicy(phase: Phase, err: Reason, disk: Reason): Policy {
    var staged := Next(Initial, Registered(phase, err, disk, true));
    Next(staged, Activated(phase, staged.Projection().1, true, false))
  }

  /** Something other than initialization keeps the payload ineligible. */
  predicate HeldOff(p: Policy) {
    && p.registered
    && (p.terminal || p.run != Enabled || p.verificationFault || p.disk != NoReason || p.faults != NoFaults)
  }

  lemma RestoredHeldOff(run: Intent, disk: Reason, blocks: seq<Block>)
    requires run == Paused || blocks != []
    ensures var (phase, err) := RestoreActivation(run, disk, blocks); HeldOff(RestoredPolicy(phase, err, disk))
  {
  }

  lemma HeldOffStep(p: Policy, e: Event)
    requires HeldOff(p) && !e.Activated? && e != Verification(Succeeded)
    ensures HeldOff(Next(p, e))
  {
  }

  lemma {:induction false} HeldOffStays(p: Policy, events: seq<Event>)
    requires HeldOff(p) && forall e :: e in events ==> !e.Activated? && e != Verification(Succeeded)
    ensures HeldOff(Run(p, events)) && !Run(p, events).PayloadEligible()
    decreases |events|
  {
    if events != [] {
      HeldOffStep(p, events[0]);
      HeldOffStays(Next(p, events[0]), events[1..]);
    }
  }

  /**
   * A record restored paused or with any activation block is ineligible, and stays so until the
   * next activation or successful verification, so a verification block restored meanwhile ends
   * no eligibility.
   */
  lemma BlockedRestoreIsInactive(run: Intent, disk: Reason, blocks: seq<Block>, events: seq<Event>)
    requires run == Paused || blocks != []
    requires forall e :: e in events ==> !e.Activated? && e != Verification(Succeeded)
    ensures var (phase, err) := RestoreActivation(run, disk, blocks);
            !Run(RestoredPolicy(phase, err, disk), events).PayloadEligible()
  {
    RestoredHeldOff(run, disk, blocks);
    var (phase, err) := RestoreActivation(run, disk, blocks);
    HeldOffStays(RestoredPolicy(phase, err, disk), events);
  }
}
