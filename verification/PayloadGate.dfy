/**
 The engine's payload gate and slot scheduler as a state machine over admission-lock sections
 (internal/engine/download_gate.go, resource_manager.go, runtime_work.go, engine.go).

 A step is one section executed while the admission lock is held.  Work that drops the lock
 for I/O is split into a step that suspends it, keeping its snapshot in `works`, and a step
 that resumes it and re-validates the snapshot.  Everything the unlocked part can find is a
 parameter of the resuming step.
 */
module PayloadGate {
  import opened RuntimePolicy
  import opened ManagedTorrent
  import opened Scheduler
  import opened Wrappers

  /** Suspended work: the snapshot it took, and what it may do once validated. */
  datatype Work =
    | Admission(gen: nat, ticket: Ticket, slotOwner: bool)
    | Probe(gen: nat, epoch: nat, fence: nat)
    | Runtime(gen: nat, epoch: nat, fence: nat, purpose: Purpose)

  datatype Purpose =
    | Resuming
    | Finishing(phase: Phase, err: Reason, manual: bool)
    | SavingMetadata
    | LookingForPayload

  datatype Engine = Engine(
    max: int,                     // MaxActiveDownloads
    cancelled: bool,
    managed: map<string, nat>,    // hash -> runtime generation
    registering: map<string, nat>,// unpublished generations, each alone on its hash
    torrents: map<nat, Torrent>,  // every generation ever created
    works: map<nat, Work>,
    next: nat)

  datatype Step =
    | Register(template: Torrent, phase: Phase, err: Reason, disk: Reason, staged: bool)
    | Publish(hash: string, ok: bool)
    | Locked(gen: nat, section: Section)
    | Suspend(gen: nat, purpose: Purpose)
    | Continue(id: nat, section: Section)
    | AdmitBegin(gen: nat, slotOwner: bool)
    | AdmitEnd(id: nat, findings: Findings, streaming: bool)
    | ProbeBegin(gen: nat)
    | ProbeEnd(id: nat, diskError: Option<Reason>, seen: Observation)
    | Delete(hash: string)
    | Shutdown

  predicate Managed(s: Engine, g: nat) {
    g in s.torrents && s.torrents[g].hash in s.managed && s.managed[s.torrents[g].hash] == g
  }

  /** currentTorrent: managed, and the engine is not shutting down. */
  predicate Current(s: Engine, g: nat) {
    Managed(s, g) && !s.cancelled
  }

  function Put(s: Engine, g: nat, t: Torrent): Engine {
    s.(torrents := s.torrents[g := t])
  }

  function Finished(s: Engine, id: nat): Engine {
    s.(works := s.works - {id})
  }

  function Suspended(s: Engine, w: Work): Engine {
    s.(works := s.works[s.next := w], next := s.next + 1)
  }

  /** runRuntimeWorkLocked's fence. */
  predicate StillValid(s: Engine, g: nat, epoch: nat, fence: nat) {
    Current(s, g) && s.torrents[g].epoch == epoch && s.torrents[g].fence == fence
  }

  /** What each kind of suspended runtime work may do with a validated result. */
  predicate Permits(p: Purpose, sec: Section) {
    match p
    case Resuming => sec.BlockDisk? || sec.ResumeRun? || sec.Nothing?
    case Finishing(phase, err, manual) =>
      sec.RaiseFault? || sec.BlockDisk? || sec.Nothing?
      || (sec.FinishRestore? && sec.phase == phase && sec.err == err && sec.manual == manual)
    case SavingMetadata => sec.RaiseFault? || sec.Nothing?
    case LookingForPayload => sec.RaiseFault? || sec.Nothing?
  }

  /** No other managed torrent waits ahead of g. */
  predicate SchedulerChoice(s: Engine, g: nat) {
    Managed(s, g) && Waiting(s.torrents[g])
    && forall h :: h in s.managed && s.managed[h] in s.torrents && s.managed[h] != g
         && Waiting(s.torrents[s.managed[h]])
         ==> Before(s.torrents[g], s.torrents[s.managed[h]])
  }

  /** The torrents that hold a slot. */
  function SlotSet(s: Engine): set<nat> {
    set g | g in s.torrents && s.torrents[g].policy.slot
  }

  /** Capacity is recounted and the head re-evaluated under the lock. */
  predicate Offered(s: Engine, g: nat) {
    |SlotSet(s)| < s.max && SchedulerChoice(s, g)
  }

  function DoRegister(s: Engine, template: Torrent, e: Event): Engine {
    var t := Fresh(template.hash, template.added, template.position, template.info);
    if s.cancelled || t.hash in s.managed || t.hash in s.registering || !Accepts(t, e) then s
    else s.(torrents := s.torrents[s.next := Apply(t, e)], registering := s.registering[t.hash := s.next],
            next := s.next + 1)
  }

  function DoPublish(s: Engine, hash: string, ok: bool): Engine {
    if hash !in s.registering then s
    else
      var done := s.(registering := s.registering - {hash});
      if ok && !s.cancelled then done.(managed := s.managed[hash := s.registering[hash]]) else done
  }

  function DoLocked(s: Engine, g: nat, sec: Section): Engine {
    if Managed(s, g) then Put(s, g, Effect(s.torrents[g], sec, !s.cancelled)) else s
  }

  function DoSuspend(s: Engine, g: nat, purpose: Purpose): Engine {
    if Current(s, g) then Suspended(s, Runtime(g, s.torrents[g].epoch, s.torrents[g].fence, purpose)) else s
  }

  function DoContinue(s: Engine, id: nat, sec: Section): Engine {
    if id !in s.works || !s.works[id].Runtime? || !Permits(s.works[id].purpose, sec) then s
    else
      var w := s.works[id];
      if StillValid(s, w.gen, w.epoch, w.fence) then DoLocked(Finished(s, id), w.gen, sec) else Finished(s, id)
  }

  function DoAdmitBegin(s: Engine, g: nat, slotOwner: bool): Engine {
    if !Current(s, g) || !s.torrents[g].policy.PayloadEligible() || s.torrents[g].preparation.Some? then s
    else
      var t := s.torrents[g];
      Suspended(Put(s, g, t.(preparation := Some(s.next), started := t.started || slotOwner)),
                Admission(g, Snapshot(t), slotOwner))
  }

  /** A failed admission of a scheduler pass gives back the very slot it was preparing. */
  function DoAdmitEnd(s: Engine, id: nat, f: Findings, streaming: bool): Engine {
    if id !in s.works || !s.works[id].Admission? || s.works[id].gen !in s.torrents then s
    else
      var w := s.works[id];
      var t := s.torrents[w.gen];
      var u := AdmitSection(t, id, w.ticket, Current(s, w.gen), f);
      var failed := !Admitted(t, id, w.ticket, Current(s, w.gen), f);
      var v := if failed && w.slotOwner && Current(s, w.gen) && u.policy.slot && u.slotToken == w.ticket.slot then
                 ReleaseSection(u, streaming)
               else u;
      Put(Finished(s, id), w.gen, v)
  }

  function DoProbeBegin(s: Engine, g: nat): Engine {
    if !Current(s, g) || s.torrents[g].probe.Some? then s
    else
      var t := s.torrents[g];
      Suspended(Put(s, g, t.(probe := Some(s.next))), Probe(g, t.epoch, t.fence))
  }

  /** What a validated probe does: block on a disk error, or reconcile and request a slot. */
  function Probed(t: Torrent, diskError: Option<Reason>, o: Observation, offered: bool): Torrent {
    if diskError.Some? then ApplyAndClose(t, DiskBlocked(diskError.value))
    else
      var u := Reconciled(t, o);
      if u.policy.slot then u else Apply(u, SlotRequested(offered))
  }

  predicate ProbeReturns(s: Engine, id: nat) {
    id in s.works && s.works[id].Probe? && s.works[id].gen in s.torrents
        && s.torrents[s.works[id].gen].probe == Some(id)
  }

  /** The probed torrent after the lock has been taken again. */
  function ProbeOutcome(s: Engine, id: nat, diskError: Option<Reason>, o: Observation): Torrent
    requires ProbeReturns(s, id)
  {
    var w := s.works[id];
    var t := s.torrents[w.gen].(probe := None);
    if !StillValid(s, w.gen, w.epoch, w.fence) then t
    else Probed(t, diskError, o, Offered(Put(s, w.gen, Reconciled(t, o)), w.gen))
  }

  function DoProbeEnd(s: Engine, id: nat, diskError: Option<Reason>, o: Observation): Engine {
    if ProbeReturns(s, id) then Put(Finished(s, id), s.works[id].gen, ProbeOutcome(s, id, diskError, o))
    else if id in s.works && s.works[id].Probe? then Finished(s, id)
    else s
  }

  function DoDelete(s: Engine, hash: string): Engine {
    if s.cancelled || hash !in s.managed || s.managed[hash] !in s.torrents then s
    else
      var g := s.managed[hash];
      Put(s, g, ApplyAndClose(s.torrents[g], Deleted)).(managed := s.managed - {hash})
  }

  function Do(s: Engine, a: Step): Engine {
    match a
    case Register(template, phase, err, disk, staged) => DoRegister(s, template, Registered(phase, err, disk, staged))
    case Publish(hash, ok) => DoPublish(s, hash, ok)
    case Locked(g, sec) => DoLocked(s, g, sec)
    case Suspend(g, purpose) => DoSuspend(s, g, purpose)
    case Continue(id, sec) => DoContinue(s, id, sec)
    case AdmitBegin(g, slotOwner) => DoAdmitBegin(s, g, slotOwner)
    case AdmitEnd(id, f, streaming) => DoAdmitEnd(s, id, f, streaming)
    case ProbeBegin(g) => DoProbeBegin(s, g)
    case ProbeEnd(id, diskError, o) => DoProbeEnd(s, id, diskError, o)
    case Delete(hash) => DoDelete(s, hash)
    case Shutdown => s.(cancelled := true)
  }

  function Run(s: Engine, steps: seq<Step>): Engine
    decreases |steps|
  {
    if steps == [] then s else Run(Do(s, steps[0]), steps[1..])
  }

  function Start(max: int): Engine {
    Engine(max, false, map[], map[], map[], map[], 0)
  }

  // ---------------------------------------------------------------- safety

  /** A generation's gate and slot need a sound policy and a published name. */
  predicate GenerationSafe(s: Engine, g: nat) {
    g in s.torrents ==>
      g < s.next && GateSound(s.torrents[g])
      && (s.torrents[g].gate || s.torrents[g].policy.slot ==> Managed(s, g))
  }

  predicate GenerationsSafe(s: Engine) {
    forall g :: g in s.torrents ==> GenerationSafe(s, g)
  }

  /** Both name tables point at generations of that name; a registration is still closed. */
  predicate NamesSafe(s: Engine) {
    && (forall h :: h in s.managed ==> s.managed[h] in s.torrents && s.torrents[s.managed[h]].hash == h)
    && (forall h :: h in s.registering ==>
          h !in s.managed && s.registering[h] in s.torrents && s.torrents[s.registering[h]].hash == h)
  }

  predicate SlotsSafe(s: Engine) {
    |SlotSet(s)| <= (if s.max > 0 then s.max else 0)
  }

  predicate Safe(s: Engine) {
    GenerationsSafe(s) && NamesSafe(s) && SlotsSafe(s)
  }

  lemma SubsetCard(a: set<nat>, b: set<nat>)
    requires a <= b
    ensures |a| <= |b|
  {
    assert b == a + (b - a);
  }

  /** Replacing one generation by a sound successor under the same name. */
  lemma PutGenerations(s: Engine, g: nat, t: Torrent)
    requires GenerationsSafe(s) && g in s.torrents
    requires GateSound(t) && t.hash == s.torrents[g].hash
    requires t.gate || t.policy.slot ==> Managed(s, g)
    ensures GenerationsSafe(Put(s, g, t))
  {
    var s' := Put(s, g, t);
    forall k | k in s'.torrents ensures GenerationSafe(s', k) {
      assert GenerationSafe(s, k);
      assert Managed(s', k) == Managed(s, k);
    }
  }

  lemma PutSafe(s: Engine, g: nat, t: Torrent)
    requires Safe(s) && g in s.torrents
    requires GateSound(t) && t.hash == s.torrents[g].hash && NoGrant(s.torrents[g], t)
    requires t.gate ==> s.torrents[g].gate || Managed(s, g)
    ensures Safe(Put(s, g, t))
  {
    assert GenerationSafe(s, g);
    PutGenerations(s, g, t);
    SubsetCard(SlotSet(Put(s, g, t)), SlotSet(s));
  }

  /** Changing only the tables of suspended work, the clock of identifiers or the shutdown flag. */
  lemma SameRuntimesSafe(s: Engine, s': Engine)
    requires Safe(s) && s'.torrents == s.torrents && s'.managed == s.managed && s'.registering == s.registering
    requires s.next <= s'.next && s'.max == s.max
    ensures Safe(s')
  {
    forall k | k in s'.torrents ensures GenerationSafe(s', k) { assert GenerationSafe(s, k); }
    assert SlotSet(s') == SlotSet(s);
  }

  lemma LockedSafe(s: Engine, g: nat, sec: Section)
    requires Safe(s)
    ensures Safe(DoLocked(s, g, sec))
  {
    if Managed(s, g) {
      assert GenerationSafe(s, g);
      EffectSound(s.torrents[g], sec, !s.cancelled);
      PutSafe(s, g, Effect(s.torrents[g], sec, !s.cancelled));
    }
  }

  lemma RegisterSafe(s: Engine, template: Torrent, e: Event)
    requires Safe(s) && e.Registered?
    ensures Safe(DoRegister(s, template, e))
  {
    var t := Fresh(template.hash, template.added, template.position, template.info);
    var s' := DoRegister(s, template, e);
    if s' != s {
      ApplyFollows(t, e);
      RegisterFresh(s, Apply(t, e));
    }
  }

  lemma RegisterFresh(s: Engine, t: Torrent)
    requires Safe(s) && GateSound(t) && !t.gate && !t.policy.slot
    requires t.hash !in s.managed && t.hash !in s.registering
    ensures Safe(s.(torrents := s.torrents[s.next := t], registering := s.registering[t.hash := s.next],
                    next := s.next + 1))
  {
    var s' := s.(torrents := s.torrents[s.next := t], registering := s.registering[t.hash := s.next],
                 next := s.next + 1);
    FreshIdentifier(s);
    assert SlotSet(s') == SlotSet(s);
    assert NamesSafe(s');
    forall k | k in s'.torrents ensures GenerationSafe(s', k) {
      if k != s.next { assert GenerationSafe(s, k); }
    }
  }

  lemma FreshIdentifier(s: Engine)
    requires GenerationsSafe(s)
    ensures s.next !in s.torrents
  {
    assert s.next in s.torrents ==> GenerationSafe(s, s.next);
  }

  lemma PublishSafe(s: Engine, hash: string, ok: bool)
    requires Safe(s)
    ensures Safe(DoPublish(s, hash, ok))
  {
    var s' := DoPublish(s, hash, ok);
    assert SlotSet(s') == SlotSet(s);
    forall k | k in s'.torrents ensures GenerationSafe(s', k) { assert GenerationSafe(s, k); }
  }

  lemma AdmitEndSafe(s: Engine, id: nat, f: Findings, streaming: bool)
    requires Safe(s)
    ensures Safe(DoAdmitEnd(s, id, f, streaming))
  {
    if id in s.works && s.works[id].Admission? && s.works[id].gen in s.torrents {
      var w := s.works[id];
      var t := s.torrents[w.gen];
      var current := Current(s, w.gen);
      assert GenerationSafe(s, w.gen);
      AdmitSound(t, id, w.ticket, current, f);
      var u := AdmitSection(t, id, w.ticket, current, f);
      ReleaseSound(u, streaming);
      SameRuntimesSafe(s, Finished(s, id));
      var v := DoAdmitEnd(s, id, f, streaming).torrents[w.gen];
      PutSafe(Finished(s, id), w.gen, v);
    }
  }

  lemma ProbedSound(t: Torrent, diskError: Option<Reason>, o: Observation, offered: bool)
    requires GateSound(t)
    ensures var u := Probed(t, diskError, o, offered);
            GateSound(u) && Follows(t, u) && (u.gate ==> t.gate)
            && (!NoGrant(t, u) ==> offered && !Reconciled(t, o).policy.slot)
  {
    if diskError.Some? {
      ApplyAndCloseSound(t, DiskBlocked(diskError.value));
    } else {
      ReconcileSound(t, o.selected, o.complete, o.empty, o.streaming);
      if !Reconciled(t, o).policy.slot {
        RequestOutcome(Reconciled(t, o), offered);
        ApplyFollows(Reconciled(t, o), SlotRequested(offered));
      }
    }
  }

  /** Giving g a slot when the others already leave room for one more. */
  lemma GrantWithinCapacity(s: Engine, g: nat, before: Torrent, after: Torrent)
    requires g in s.torrents && !before.policy.slot && |SlotSet(Put(s, g, before))| < s.max
    ensures SlotsSafe(Put(s, g, after))
  {
    SubsetCard(SlotSet(Put(s, g, after)), SlotSet(Put(s, g, before)) + {g});
  }

  lemma ProbeOutcomeSound(s: Engine, id: nat, diskError: Option<Reason>, o: Observation)
    requires Safe(s) && ProbeReturns(s, id)
    ensures var g := s.works[id].gen; var u := ProbeOutcome(s, id, diskError, o);
            Safe(Put(s, g, u)) && Follows(s.torrents[g], u) && (u.gate ==> s.torrents[g].gate)
            && (!NoGrant(s.torrents[g], u) ==> GrantsTo(s, id, o, g))
  {
    var w := s.works[id];
    assert GenerationSafe(s, w.gen);
    var t := s.torrents[w.gen].(probe := None);
    if StillValid(s, w.gen, w.epoch, w.fence) {
      var offered := Offered(Put(s, w.gen, Reconciled(t, o)), w.gen);
      ProbedSound(t, diskError, o, offered);
      ProbedSafe(s, w.gen, t, o, offered, Probed(t, diskError, o, offered));
    } else {
      PutSafe(s, w.gen, t);
    }
  }

  lemma ProbeEndSafe(s: Engine, id: nat, diskError: Option<Reason>, o: Observation)
    requires Safe(s)
    ensures Safe(DoProbeEnd(s, id, diskError, o))
  {
    SameRuntimesSafe(s, Finished(s, id));
    if ProbeReturns(s, id) {
      ProbeOutcomeSound(s, id, diskError, o);
      var p := Put(s, s.works[id].gen, ProbeOutcome(s, id, diskError, o));
      SameRuntimesSafe(p, Finished(p, id));
    }
  }

  lemma ProbedSafe(s: Engine, g: nat, t: Torrent, o: Observation, offered: bool, u: Torrent)
    requires Safe(s) && Managed(s, g) && GateSound(u) && u.hash == s.torrents[g].hash
    requires NoGrant(s.torrents[g], t)
    requires !NoGrant(t, u) ==> offered && !Reconciled(t, o).policy.slot
    requires offered ==> |SlotSet(Put(s, g, Reconciled(t, o)))| < s.max
    ensures Safe(Put(s, g, u))
  {
    if NoGrant(t, u) {
      PutSafe(s, g, u);
    } else {
      PutGenerations(s, g, u);
      GrantWithinCapacity(s, g, Reconciled(t, o), u);
    }
  }

  lemma DeleteSafe(s: Engine, hash: string)
    requires Safe(s)
    ensures Safe(DoDelete(s, hash))
  {
    if hash in s.managed && !s.cancelled {
      var g := s.managed[hash];
      assert GenerationSafe(s, g);
      ApplyAndCloseSound(s.torrents[g], Deleted);
      var t := ApplyAndClose(s.torrents[g], Deleted);
      PutSafe(s, g, t);
      UnpublishSafe(Put(s, g, t), hash);
    }
  }

  lemma UnpublishSafe(s: Engine, hash: string)
    requires Safe(s) && hash in s.managed
    requires !s.torrents[s.managed[hash]].gate && !s.torrents[s.managed[hash]].policy.slot
    ensures Safe(s.(managed := s.managed - {hash}))
  {
    var s' := s.(managed := s.managed - {hash});
    assert SlotSet(s') == SlotSet(s);
    forall k | k in s'.torrents ensures GenerationSafe(s', k) {
      assert GenerationSafe(s, k);
    }
  }

  /** Reserving a ticket on the torrent before the lock is dropped. */
  lemma ReserveSafe(s: Engine, g: nat, t: Torrent, w: Work)
    requires Safe(s) && g in s.torrents
    requires t.policy == s.torrents[g].policy && t.gate == s.torrents[g].gate && t.hash == s.torrents[g].hash
    ensures Safe(Suspended(Put(s, g, t), w))
  {
    assert GenerationSafe(s, g);
    PutSafe(s, g, t);
    SameRuntimesSafe(Put(s, g, t), Suspended(Put(s, g, t), w));
  }

  lemma ContinueSafe(s: Engine, id: nat, sec: Section)
    requires Safe(s)
    ensures Safe(DoContinue(s, id, sec))
  {
    SameRuntimesSafe(s, Finished(s, id));
    if id in s.works { LockedSafe(Finished(s, id), s.works[id].gen, sec); }
  }

  lemma AdmitBeginSafe(s: Engine, g: nat, slotOwner: bool)
    requires Safe(s)
    ensures Safe(DoAdmitBegin(s, g, slotOwner))
  {
    if Current(s, g) {
      var t := s.torrents[g];
      ReserveSafe(s, g, t.(preparation := Some(s.next), started := t.started || slotOwner),
                  Admission(g, Snapshot(t), slotOwner));
    }
  }

  lemma ProbeBeginSafe(s: Engine, g: nat)
    requires Safe(s)
    ensures Safe(DoProbeBegin(s, g))
  {
    if Current(s, g) {
      var t := s.torrents[g];
      ReserveSafe(s, g, t.(probe := Some(s.next)), Probe(g, t.epoch, t.fence));
    }
  }

  lemma StepSafe(s: Engine, a: Step)
    requires Safe(s)
    ensures Safe(Do(s, a))
  {
    match a
    case Register(template, phase, err, disk, staged) =>
      RegisterSafe(s, template, Registered(phase, err, disk, staged));
    case Publish(hash, ok) => PublishSafe(s, hash, ok);
    case Locked(g, sec) => LockedSafe(s, g, sec);
    case Suspend(g, purpose) => SameRuntimesSafe(s, DoSuspend(s, g, purpose));
    case Continue(id, sec) => ContinueSafe(s, id, sec);
    case AdmitBegin(g, slotOwner) => AdmitBeginSafe(s, g, slotOwner);
    case AdmitEnd(id, f, streaming) => AdmitEndSafe(s, id, f, streaming);
    case ProbeBegin(g) => ProbeBeginSafe(s, g);
    case ProbeEnd(id, diskError, o) => ProbeEndSafe(s, id, diskError, o);
    case Delete(hash) => DeleteSafe(s, hash);
    case Shutdown => SameRuntimesSafe(s, s.(cancelled := true));
  }

  lemma {:induction false} RunSafe(s: Engine, steps: seq<Step>)
    requires Safe(s)
    ensures Safe(Run(s, steps))
    decreases |steps|
  {
    if steps != [] {
      StepSafe(s, steps[0]);
      RunSafe(Do(s, steps[0]), steps[1..]);
    }
  }

  /** In every reachable state an open gate belongs to a managed, eligible torrent. */
  lemma OpenGateIsEligible(max: int, steps: seq<Step>, g: nat)
    requires g in Run(Start(max), steps).torrents
    ensures var s := Run(Start(max), steps);
            s.torrents[g].gate ==> Managed(s, g) && s.torrents[g].policy.PayloadEligible()
  {
    RunSafe(Start(max), steps);
    assert GenerationSafe(Run(Start(max), steps), g);
  }

  /** In every reachable state the held slots stay within the configured capacity. */
  lemma SlotsWithinCapacity(max: int, steps: seq<Step>)
    ensures |SlotSet(Run(Start(max), steps))| <= (if max > 0 then max else 0)
  {
    RunSafe(Start(max), steps);
    RunKeepsMax(Start(max), steps);
  }

  lemma {:induction false} RunKeepsMax(s: Engine, steps: seq<Step>)
    ensures Run(s, steps).max == s.max
    decreases |steps|
  {
    if steps != [] { RunKeepsMax(Do(s, steps[0]), steps[1..]); }
  }

  function Listing(s: Engine, order: seq<nat>): seq<Torrent>
    requires forall i :: 0 <= i < |order| ==> Managed(s, order[i])
  {
    seq(|order|, i requires 0 <= i < |order| => assert Managed(s, order[i]); s.torrents[order[i]])
  }

  /** Listed in any order, the managed torrents have this one as their scheduler head. */
  lemma ChoiceIsHead(s: Engine, order: seq<nat>, k: nat)
    requires NamesSafe(s) && k < |order|
    requires forall i :: 0 <= i < |order| ==> Managed(s, order[i])
    requires forall h :: h in s.managed ==> s.managed[h] in order
    requires forall i, j :: 0 <= i < j < |order| ==> order[i] != order[j]
    ensures SchedulerChoice(s, order[k]) <==>
            IsHead(Listing(s, order), k)
  {
    var ts := Listing(s, order);
    if SchedulerChoice(s, order[k]) {
      forall i | 0 <= i < |ts| && i != k && Waiting(ts[i]) ensures Before(ts[k], ts[i]) {
        assert s.managed[ts[i].hash] == order[i];
      }
    }
    if IsHead(ts, k) {
      forall h | h in s.managed && s.managed[h] != order[k] && Waiting(s.torrents[s.managed[h]])
        ensures Before(s.torrents[order[k]], s.torrents[s.managed[h]])
      {
        var i :| 0 <= i < |order| && order[i] == s.managed[h];
        assert ts[i] == s.torrents[s.managed[h]];
      }
    }
  }

  // ---------------------------------------------------------------- stale admissions

  /** How one step may change a generation: counters only rise, a gate opens and a slot is granted only as named. */
  predicate Evolves(s: Engine, s': Engine, g: nat, opens: bool, granted: bool) {
    g in s.torrents && g in s'.torrents && Follows(s.torrents[g], s'.torrents[g])
    && (s'.torrents[g].gate && !s.torrents[g].gate ==> opens)
    && (!NoGrant(s.torrents[g], s'.torrents[g]) ==> granted)
  }

  /** The returning probe `id` leaves generation k at the head of the queue with capacity to spare. */
  predicate GrantsTo(s: Engine, id: nat, o: Observation, k: nat) {
    ProbeReturns(s, id) && s.works[id].gen == k
    && Offered(Put(s, k, Reconciled(s.torrents[k].(probe := None), o)), k)
  }

  /** The suspended admission `id` is still valid for generation k. */
  predicate OpensFor(s: Engine, id: nat, k: nat) {
    id in s.works && s.works[id].Admission? && s.works[id].gen == k && k in s.torrents
    && TicketValid(s.torrents[k], id, s.works[id].ticket, Current(s, k))
  }

  lemma LockedEvolves(s: Engine, g: nat, sec: Section, k: nat)
    requires Safe(s) && k in s.torrents
    ensures Evolves(s, DoLocked(s, g, sec), k, false, false)
  {
    if Managed(s, g) && k == g {
      assert GenerationSafe(s, g);
      EffectSound(s.torrents[g], sec, !s.cancelled);
    }
  }

  lemma ContinueEvolves(s: Engine, id: nat, sec: Section, k: nat)
    requires Safe(s) && k in s.torrents
    ensures Evolves(s, DoContinue(s, id, sec), k, false, false)
  {
    if id in s.works && s.works[id].Runtime? && StillValid(s, s.works[id].gen, s.works[id].epoch, s.works[id].fence) {
      SameRuntimesSafe(s, Finished(s, id));
      LockedEvolves(Finished(s, id), s.works[id].gen, sec, k);
    }
  }

  lemma AdmitEndEvolves(s: Engine, id: nat, f: Findings, streaming: bool, k: nat)
    requires Safe(s) && k in s.torrents
    ensures Evolves(s, DoAdmitEnd(s, id, f, streaming), k, OpensFor(s, id, k), false)
  {
    if id in s.works && s.works[id].Admission? && s.works[id].gen == k {
      var w := s.works[id];
      assert GenerationSafe(s, k);
      AdmitSound(s.torrents[k], id, w.ticket, Current(s, k), f);
      ReleaseSound(AdmitSection(s.torrents[k], id, w.ticket, Current(s, k), f), streaming);
    }
  }

  lemma PutEvolves(s: Engine, s': Engine, g: nat, u: Torrent, k: nat)
    requires g in s.torrents && k in s.torrents && s'.torrents == s.torrents[g := u]
    requires Follows(s.torrents[g], u) && (u.gate ==> s.torrents[g].gate)
    ensures Evolves(s, s', k, false, k == g && !NoGrant(s.torrents[g], u))
  {}

  lemma ProbeEndEvolves(s: Engine, id: nat, diskError: Option<Reason>, o: Observation, k: nat)
    requires Safe(s) && k in s.torrents
    ensures Evolves(s, DoProbeEnd(s, id, diskError, o), k, false, GrantsTo(s, id, o, k))
  {
    if ProbeReturns(s, id) {
      ProbeOutcomeSound(s, id, diskError, o);
      PutEvolves(s, DoProbeEnd(s, id, diskError, o), s.works[id].gen, ProbeOutcome(s, id, diskError, o), k);
    }
  }

  lemma DeleteEvolves(s: Engine, hash: string, k: nat)
    requires Safe(s) && k in s.torrents
    ensures Evolves(s, DoDelete(s, hash), k, false, false)
  {
    if hash in s.managed && s.managed[hash] == k {
      assert GenerationSafe(s, k);
      ApplyAndCloseSound(s.torrents[k], Deleted);
    }
  }

  lemma RegisterEvolves(s: Engine, template: Torrent, e: Event, k: nat)
    requires Safe(s) && k in s.torrents
    ensures Evolves(s, DoRegister(s, template, e), k, false, false)
  {
    FreshIdentifier(s);
  }

  lemma ReserveEvolves(s: Engine, a: Step, k: nat)
    requires k in s.torrents && (a.Publish? || a.Suspend? || a.AdmitBegin? || a.ProbeBegin? || a.Shutdown?)
    ensures Evolves(s, Do(s, a), k, false, false)
  {}

  lemma StepEvolves(s: Engine, a: Step, k: nat)
    requires Safe(s) && k in s.torrents
    ensures Evolves(s, Do(s, a), k, a.AdmitEnd? && OpensFor(s, a.id, k), a.ProbeEnd? && GrantsTo(s, a.id, a.seen, k))
  {
    match a
    case Register(template, phase, err, disk, staged) =>
      RegisterEvolves(s, template, Registered(phase, err, disk, staged), k);
    case Locked(g, sec) => LockedEvolves(s, g, sec, k);
    case Continue(id, sec) => ContinueEvolves(s, id, sec, k);
    case AdmitEnd(id, f, streaming) => AdmitEndEvolves(s, id, f, streaming, k);
    case ProbeEnd(id, diskError, o) => ProbeEndEvolves(s, id, diskError, o, k);
    case Delete(hash) => DeleteEvolves(s, hash, k);
    case _ => ReserveEvolves(s, a, k);
  }

  /** A gate opens only for a returning admission whose ticket still matches. */
  lemma GateOpensOnValidTicket(s: Engine, a: Step, k: nat)
    requires Safe(s) && k in s.torrents
    requires !s.torrents[k].gate && k in Do(s, a).torrents && Do(s, a).torrents[k].gate
    ensures a.AdmitEnd? && OpensFor(s, a.id, k)
  {
    StepEvolves(s, a, k);
  }

  /** A slot is granted only below capacity and only to the head among all managed torrents. */
  lemma GrantGoesToHead(s: Engine, a: Step, k: nat)
    requires Safe(s) && k in s.torrents
    requires !s.torrents[k].policy.slot && k in Do(s, a).torrents && Do(s, a).torrents[k].policy.slot
    ensures a.ProbeEnd? && GrantsTo(s, a.id, a.seen, k)
  {
    StepEvolves(s, a, k);
  }

  lemma {:induction false} RunFollows(s: Engine, steps: seq<Step>, g: nat)
    requires Safe(s) && g in s.torrents
    ensures Safe(Run(s, steps))
    ensures g in Run(s, steps).torrents && Follows(s.torrents[g], Run(s, steps).torrents[g])
    decreases |steps|
  {
    if steps != [] {
      StepSafe(s, steps[0]);
      StepEvolves(s, steps[0], g);
      RunFollows(Do(s, steps[0]), steps[1..], g);
    }
  }

  /** Something an admission depends on differs between two moments of a runtime. */
  predicate Disturbed(t: Torrent, u: Torrent) {
    u.policy != t.policy || Snapshot(u) != Snapshot(t)
  }

  /**
   An admission takes its ticket, drops the lock, and the run goes on.  If at any moment before
   it returns the policy, the epoch, the binding or the slot token differs from what the ticket
   recorded, the returning admission does not open the gate, whatever its I/O found and
   whatever happened since.
   */
  lemma DisturbedAdmissionNeverOpens(s: Engine, before: seq<Step>, after: seq<Step>, g: nat, id: nat, f: Findings,
                                     streaming: bool)
    requires Safe(s) && g in s.torrents
    requires g in Run(s, before).torrents && Disturbed(s.torrents[g], Run(s, before).torrents[g])
    requires var s2 := Run(Run(s, before), after);
             && id in s2.works && s2.works[id].Admission? && s2.works[id].gen == g
             && s2.works[id].ticket == Snapshot(s.torrents[g])
    ensures var s2 := Run(Run(s, before), after);
            g in s2.torrents && (Do(s2, AdmitEnd(id, f, streaming)).torrents[g].gate ==> s2.torrents[g].gate)
  {
    RunFollows(s, before, g);
    RunFollows(Run(s, before), after, g);
    StepEvolves(Run(Run(s, before), after), AdmitEnd(id, f, streaming), g);
  }
}
