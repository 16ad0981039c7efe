/**
 One runtime generation of a torrent and the lock-held sections that act on it alone
 (internal/engine/state_transition.go, download_gate.go, quiesce.go, recheck.go, restore.go,
 engine.go, priority.go, selection.go, observations.go).

 Torrent is the abstract value of the fields those sections read and write.  `gate` is the
 library's data-download permission.  Counters are unbounded.
 */
module ManagedTorrent {
  import opened RuntimePolicy
  import opened Wrappers

  datatype Torrent = Torrent(
    hash: string,
    added: int,               // registration time
    position: int,            // explicit queue position, none when not positive
    policy: Policy,
    epoch: nat,               // rises with every policy change and priority edit
    slotToken: nat,           // rises with every granted slot
    fence: nat,               // number of runtime bindings so far: attachment tokens never repeat
    preparation: Option<nat>, // reservation of an admission in progress
    probe: Option<nat>,       // reservation of a health probe in progress
    started: bool,            // the granted slot has been prepared
    info: bool,               // metadata is known
    gate: bool)

  /** The snapshot an admission takes before it drops the lock. */
  datatype Ticket = Ticket(epoch: nat, fence: nat, slot: nat)

  function Snapshot(t: Torrent): Ticket {
    Ticket(t.epoch, t.fence, t.slotToken)
  }

  /** An open gate belongs to an eligible policy. */
  predicate GateSound(t: Torrent) {
    Sound(t.policy) && (t.gate ==> t.policy.PayloadEligible())
  }

  function Fresh(hash: string, added: int, position: int, info: bool): Torrent {
    Torrent(hash, added, position, Initial, 0, 0, 0, None, None, false, info, false)
  }

  /** applyStateEventLocked: a rejected event leaves the torrent alone. */
  function Apply(t: Torrent, e: Event): Torrent {
    match Transition(t.policy, e)
    case Rejected(_) => t
    case Accepted(d) => Install(t, d, e.SlotRequested?)
  }

  /** The accepted decision with its epoch and slot token. */
  function Install(t: Torrent, d: Decision, requested: bool): Torrent {
    t.(policy := d.policy,
       epoch := if d.policy != t.policy then t.epoch + 1 else t.epoch,
       slotToken := if d.policy.slot && requested then t.slotToken + 1 else t.slotToken,
       started := t.started && !d.resetDownload)
  }

  predicate Accepts(t: Torrent, e: Event) {
    Transition(t.policy, e).Accepted?
  }

  function CloseGate(t: Torrent): Torrent {
    t.(gate := false)
  }

  /** An accepted event together with an unconditional close, as most commands perform it. */
  function ApplyAndClose(t: Torrent, e: Event): Torrent {
    if Accepts(t, e) then CloseGate(Apply(t, e)) else t
  }

  /** pauseWithIntent closes before it asks, so a rejected pause still leaves the gate closed. */
  function PauseSection(t: Torrent, full: bool, position: int): Torrent {
    var u := Apply(CloseGate(t), PauseRequested(full));
    if Accepts(t, PauseRequested(full)) && full then u.(position := position) else u
  }

  /** The last section of resumeLocked: it does not touch the gate it closed before its probe. */
  function ResumeSection(t: Torrent): Torrent {
    Apply(t, Activated(PhaseQueued, NoReason, false, true))
  }

  predicate Inactive(phase: Phase) {
    phase.PhasePaused? || phase.PhaseError? || phase.PhaseMissingFiles? || phase.PhaseDiskFull?
  }

  /**
   The last section of FinishRestore.  When merging the network specification fails, the
   section returns early; its fault event is applied only while the runtime is current.
   */
  function FinishRestoreSection(t: Torrent, phase: Phase, err: Reason, manual: bool, mergeFails: bool,
                                current: bool): Torrent {
    var e := Activated(phase, err, true, manual);
    var u := Apply(t, e);
    if !Accepts(t, e) then t
    else if !Inactive(u.policy.Projection().0) && mergeFails then
      if current then ApplyAndClose(u, ApplyFailed) else u
    else CloseGate(u)
  }

  /** reconcileSelectionLocked: a released background slot closes the gate unless a stream holds it. */
  function ReconcileSection(t: Torrent, selected: bool, complete: bool, empty: bool, streaming: bool): Torrent {
    if !t.info || t.policy.initializing || t.policy.checking || t.policy.uncertain then t
    else
      var e := SelectionObserved(true, selected, complete, empty);
      match Transition(t.policy, e)
      case Rejected(_) => t
      case Accepted(d) =>
        if d.closeBackgroundPayload && !streaming then CloseGate(Apply(t, e)) else Apply(t, e)
  }

  /** releaseFailedSlotLocked. */
  function ReleaseSection(t: Torrent, streaming: bool): Torrent {
    if !Accepts(t, SlotReleased) then t
    else if streaming then Apply(t, SlotReleased)
    else CloseGate(Apply(t, SlotReleased))
  }

  /** A priority edit moves the epoch; an index outside the catalog is a selection fault. */
  function PrioritySection(t: Torrent, validIndices: bool): Torrent {
    var u := t.(epoch := t.epoch + 1);
    if !t.info || u.policy.initializing || validIndices then u else ApplyAndClose(u, SelectionInvalid)
  }

  /** What the unlocked part of an admission found. */
  datatype Findings = Findings(diskError: Option<Reason>, metadataError: bool, validIndices: bool,
                               writeError: Option<Reason>)

  predicate TicketValid(t: Torrent, id: nat, ticket: Ticket, current: bool) {
    Snapshot(t) == ticket && t.policy.PayloadEligible() && current && t.preparation == Some(id)
  }

  function Unreserve(t: Torrent, id: nat): Torrent {
    if t.preparation == Some(id) then t.(preparation := None) else t
  }

  /** The section of admitPayloadLocked after the lock has been taken again. */
  function AdmitSection(t: Torrent, id: nat, ticket: Ticket, current: bool, f: Findings): Torrent {
    var u := Unreserve(t, id);
    if !TicketValid(t, id, ticket, current) then u
    else if f.diskError.Some? then ApplyAndClose(u, DiskBlocked(f.diskError.value))
    else if f.metadataError then ApplyAndClose(u, MetadataFailed)
    else if !t.info then u
    else if !f.validIndices then ApplyAndClose(u, SelectionInvalid)
    else if f.writeError.Some? then ApplyAndClose(u, DiskBlocked(f.writeError.value))
    else u.(gate := true)
  }

  /** Whether AdmitSection reports success to its caller. */
  predicate Admitted(t: Torrent, id: nat, ticket: Ticket, current: bool, f: Findings) {
    TicketValid(t, id, ticket, current) && f.diskError.None? && !f.metadataError && t.info
    && f.validIndices && f.writeError.None?
  }

  // ---------------------------------------------------------------- what every section keeps

  /** Counters only rise, and identity never changes. */
  predicate Follows(t: Torrent, u: Torrent) {
    u.hash == t.hash && u.added == t.added
    && t.epoch <= u.epoch && t.slotToken <= u.slotToken && t.fence <= u.fence
    && (u.policy != t.policy ==> t.epoch < u.epoch)
  }

  /** A slot can only be held afterwards if it was held before. */
  predicate NoGrant(t: Torrent, u: Torrent) {
    u.policy.slot ==> t.policy.slot
  }

  lemma ApplyFollows(t: Torrent, e: Event)
    requires Sound(t.policy)
    ensures Sound(Apply(t, e).policy)
    ensures Follows(t, Apply(t, e)) && Apply(t, e).gate == t.gate
    ensures !e.SlotRequested? ==> NoGrant(t, Apply(t, e))
  {
    NextSound(t.policy, e);
    if !e.SlotRequested? { SlotOnlyRequested(t.policy, e); }
    ApplyIsNext(t, e);
  }

  lemma ApplyIsNext(t: Torrent, e: Event)
    ensures Apply(t, e).policy == Next(t.policy, e) && Apply(t, e).gate == t.gate
    ensures Follows(t, Apply(t, e))
  {
  }

  lemma ApplyAndCloseSound(t: Torrent, e: Event)
    requires GateSound(t) && !e.SlotRequested?
    ensures GateSound(ApplyAndClose(t, e)) && Follows(t, ApplyAndClose(t, e)) && NoGrant(t, ApplyAndClose(t, e))
    ensures ApplyAndClose(t, e).gate ==> t.gate
  {
    ApplyFollows(t, e);
  }

  lemma PauseSound(t: Torrent, full: bool, position: int)
    requires GateSound(t)
    ensures var u := PauseSection(t, full, position); GateSound(u) && Follows(t, u) && NoGrant(t, u) && !u.gate
  {
    ApplyFollows(CloseGate(t), PauseRequested(full));
  }

  /** Resuming an eligible runtime keeps it eligible, so a gate opened during the probe may stay open. */
  lemma ResumeSound(t: Torrent)
    requires GateSound(t)
    ensures var u := ResumeSection(t); GateSound(u) && Follows(t, u) && NoGrant(t, u) && (u.gate ==> t.gate)
  {
    ApplyFollows(t, Activated(PhaseQueued, NoReason, false, true));
  }

  /** An activation that does not display as inactive is eligible. */
  lemma ActiveActivationEligible(p: Policy, phase: Phase, err: Reason, manual: bool)
    requires Sound(p)
    requires var e := Activated(phase, err, true, manual);
             Transition(p, e).Accepted? && !Inactive(Next(p, e).Projection().0)
    ensures Next(p, Activated(phase, err, true, manual)).PayloadEligible()
  {}

  lemma FinishRestoreSound(t: Torrent, phase: Phase, err: Reason, manual: bool, mergeFails: bool, current: bool)
    requires GateSound(t)
    ensures var u := FinishRestoreSection(t, phase, err, manual, mergeFails, current);
            GateSound(u) && Follows(t, u) && NoGrant(t, u) && (u.gate ==> t.gate)
  {
    var e := Activated(phase, err, true, manual);
    ApplyFollows(t, e);
    if Accepts(t, e) {
      var u := Apply(t, e);
      if !Inactive(u.policy.Projection().0) {
        ActiveActivationEligible(t.policy, phase, err, manual);
        ApplyAndCloseSound(u, ApplyFailed);
      }
    }
  }

  lemma ReconcileSound(t: Torrent, selected: bool, complete: bool, empty: bool, streaming: bool)
    requires GateSound(t)
    ensures var u := ReconcileSection(t, selected, complete, empty, streaming);
            GateSound(u) && Follows(t, u) && NoGrant(t, u) && (u.gate ==> t.gate)
  {
    ApplyFollows(t, SelectionObserved(true, selected, complete, empty));
  }

  lemma ReleaseSound(t: Torrent, streaming: bool)
    requires GateSound(t)
    ensures var u := ReleaseSection(t, streaming); GateSound(u) && Follows(t, u) && NoGrant(t, u) && (u.gate ==> t.gate)
  {
    ApplyFollows(t, SlotReleased);
  }

  lemma PrioritySound(t: Torrent, validIndices: bool)
    requires GateSound(t)
    ensures var u := PrioritySection(t, validIndices);
            GateSound(u) && Follows(t, u) && NoGrant(t, u) && (u.gate ==> t.gate) && t.epoch < u.epoch
  {
    ApplyAndCloseSound(t.(epoch := t.epoch + 1), SelectionInvalid);
  }

  /** The gate opens only on a valid ticket, and then the policy is eligible. */
  lemma AdmitSound(t: Torrent, id: nat, ticket: Ticket, current: bool, f: Findings)
    requires GateSound(t)
    ensures var u := AdmitSection(t, id, ticket, current, f);
            GateSound(u) && Follows(t, u) && NoGrant(t, u)
            && (u.gate && !t.gate ==> TicketValid(t, id, ticket, current) && u.policy.PayloadEligible())
  {
    var u := Unreserve(t, id);
    if f.diskError.Some? { ApplyAndCloseSound(u, DiskBlocked(f.diskError.value)); }
    if f.writeError.Some? { ApplyAndCloseSound(u, DiskBlocked(f.writeError.value)); }
    ApplyAndCloseSound(u, MetadataFailed);
    ApplyAndCloseSound(u, SelectionInvalid);
  }

  // ---------------------------------------------------------------- sections by name

  /** Every lock-held section on a managed torrent, except the two that can open the gate or grant a slot. */
  datatype Section =
    | PauseRun(full: bool, position: int)
    | StageRestore(position: int)
    | BeginCheck
    | EndCheck(verdict: VerificationEvent)
    | RestoreCheck
    | BlockDisk(reason: Reason)
    | RaiseFault(fault: Event)
    | EditPriorities(validIndices: bool)
    | BindRuntime
    | SetPosition(position: int)
    | CloseRuntime
    | ResumeRun
    | FinishRestore(phase: Phase, err: Reason, manual: bool, mergeFails: bool)
    | Reconcile(selected: bool, complete: bool, empty: bool, streaming: bool)
    | ReleaseSlot(streaming: bool)
    | Nothing

  predicate Fault(e: Event) {
    e.ApplyFailed? || e.MetadataFailed? || e.SelectionInvalid? || e.PayloadMissing?
  }

  function Effect(t: Torrent, sec: Section, current: bool): Torrent {
    match sec
    case PauseRun(full, position) => PauseSection(t, full, position)
    case StageRestore(position) =>
      if Accepts(t, RestoreStaged) then CloseGate(Apply(t, RestoreStaged)).(position := position) else t
    case BeginCheck => ApplyAndClose(t, Verification(Begin))
    case EndCheck(verdict) => if verdict.Begin? then t else ApplyAndClose(t, Verification(verdict))
    case RestoreCheck => ApplyAndClose(t, Verification(Restored))
    case BlockDisk(reason) => if current then ApplyAndClose(t, DiskBlocked(reason)) else t
    case RaiseFault(e) => if current && Fault(e) then ApplyAndClose(t, e) else t
    case EditPriorities(valid) => PrioritySection(t, valid)
    case BindRuntime => t.(fence := t.fence + 1)
    case SetPosition(position) => t.(position := position)
    case CloseRuntime => ApplyAndClose(t, Closed)
    case ResumeRun => ResumeSection(t)
    case FinishRestore(phase, err, manual, mergeFails) =>
      FinishRestoreSection(t, phase, err, manual, mergeFails, current)
    case Reconcile(selected, complete, empty, streaming) => ReconcileSection(t, selected, complete, empty, streaming)
    case ReleaseSlot(streaming) => ReleaseSection(t, streaming)
    case Nothing => t
  }

  /** No section outside admission opens the gate or grants a slot, and all keep the gate sound. */
  lemma EffectSound(t: Torrent, sec: Section, current: bool)
    requires GateSound(t)
    ensures var u := Effect(t, sec, current);
            GateSound(u) && Follows(t, u) && NoGrant(t, u) && (u.gate ==> t.gate)
  {
    match sec
    case PauseRun(full, position) => PauseSound(t, full, position);
    case StageRestore(position) => ApplyAndCloseSound(t, RestoreStaged);
    case BeginCheck => ApplyAndCloseSound(t, Verification(Begin));
    case EndCheck(verdict) => ApplyAndCloseSound(t, Verification(verdict));
    case RestoreCheck => ApplyAndCloseSound(t, Verification(Restored));
    case BlockDisk(reason) => ApplyAndCloseSound(t, DiskBlocked(reason));
    case RaiseFault(e) => if Fault(e) { ApplyAndCloseSound(t, e); }
    case EditPriorities(valid) => PrioritySound(t, valid);
    case BindRuntime =>
    case SetPosition(position) =>
    case CloseRuntime => ApplyAndCloseSound(t, Closed);
    case ResumeRun => ResumeSound(t);
    case FinishRestore(phase, err, manual, mergeFails) =>
      FinishRestoreSound(t, phase, err, manual, mergeFails, current);
    case Reconcile(selected, complete, empty, streaming) => ReconcileSound(t, selected, complete, empty, streaming);
    case ReleaseSlot(streaming) => ReleaseSound(t, streaming);
    case Nothing =>
  }

  // ---------------------------------------------------------------- the object

  /** The managed torrent itself: its sections update these fields under the admission lock. */
  class Managed {
    const hash: string
    const added: int
    var position: int
    var policy: Policy
    var epoch: nat
    var slotToken: nat
    var fence: nat
    var preparation: Option<nat>
    var probe: Option<nat>
    var started: bool
    var info: bool
    var gate: bool

    ghost function View(): Torrent
      reads this
    {
      Torrent(hash, added, position, policy, epoch, slotToken, fence, preparation, probe, started, info, gate)
    }

    constructor (hash: string, added: int, position: int, info: bool)
      ensures View() == Fresh(hash, added, position, info)
    {
      this.hash, this.added, this.position, this.info := hash, added, position, info;
      policy, epoch, slotToken, fence := Initial, 0, 0, 0;
      preparation, probe, started, gate := None, None, false, false;
    }

    method InstallDecision(d: Decision, requested: bool)
      modifies this`policy, this`epoch, this`slotToken, this`started
      ensures View() == Install(old(View()), d, requested)
    {
      if policy != d.policy { epoch := epoch + 1; }
      policy := d.policy;
      if policy.slot && requested { slotToken := slotToken + 1; }
      if d.resetDownload { started := false; }
    }

    /** applyStateEventLocked. */
    method ApplyStateEvent(e: Event) returns (r: Outcome)
      modifies this`policy, this`epoch, this`slotToken, this`started
      ensures View() == Apply(old(View()), e) && r == Transition(old(policy), e)
    {
      r := Transition(policy, e);
      if r.Accepted? { InstallDecision(r.decision, e.SlotRequested?); }
    }

    /** A fault or command that closes the payload gate with its event. */
    method ApplyAndCloseGate(e: Event)
      modifies this`policy, this`epoch, this`slotToken, this`started, this`gate
      ensures View() == ApplyAndClose(old(View()), e)
    {
      var r := ApplyStateEvent(e);
      if r.Accepted? { gate := false; }
    }

    /** admitPayloadLocked after it has taken the lock again: open the gate only if nothing moved meanwhile. */
    method FinishAdmission(id: nat, ticket: Ticket, current: bool, f: Findings) returns (admitted: bool)
      modifies this`policy, this`epoch, this`slotToken, this`started, this`gate, this`preparation
      ensures View() == AdmitSection(old(View()), id, ticket, current, f)
      ensures admitted == Admitted(old(View()), id, ticket, current, f)
    {
      var valid := && Ticket(epoch, fence, slotToken) == ticket && policy.PayloadEligible()
                   && current && preparation == Some(id);
      if preparation == Some(id) { preparation := None; }
      admitted := false;
      if !valid { return; }
      if f.diskError.Some? {
        ApplyAndCloseGate(DiskBlocked(f.diskError.value));
      } else if f.metadataError {
        ApplyAndCloseGate(MetadataFailed);
      } else if info {
        if !f.validIndices {
          ApplyAndCloseGate(SelectionInvalid);
        } else if f.writeError.Some? {
          ApplyAndCloseGate(DiskBlocked(f.writeError.value));
        } else {
          gate := true;
          admitted := true;
        }
      }
    }
  }
}
