/**
 * Acknowledging a committed intent. A command commits a new revision, applies it to the live
 * runtime and binds the runtime to it; the steps of one command are separate, commands of one
 * record are serialized, and observations are captured and saved at any time in between.
 *
 * An intent is a map from axes (run, selection, queue position...) to values. Staging, pausing
 * and apply failures reset the runtime's applied revision, as the policy's decisions say.
 */
module IntentAck {
  import opened Wrappers

  type Intent = map<nat, int>

  /** fence: the revision and attachment the runtime is bound to; revision 0 when unbound. */
  datatype Runtime = Runtime(settings: Intent, fence: nat, attachment: nat, applied: nat, sequence: nat)

  /** A command past its commit of `version`. `done`: its apply succeeded. */
  datatype Command = Command(version: nat, full: bool, axis: nat, value: int, done: bool)

  /** Facts captured with their fence; `at` is the durable revision when they were captured. */
  datatype Observation = Observation(revision: nat, attachment: nat, sequence: nat, applied: nat,
                                     settings: Intent, at: nat)

  /** history[r - 1] is the durable intent of revision r. */
  datatype World = World(history: seq<Intent>, attachment: nat, savedSequence: nat, saved: Option<Observation>,
                         nextToken: nat, runtime: Option<Runtime>, command: Option<Command>,
                         captured: set<Observation>)

  datatype Binding = Bound | AttachFailed | BindFailed

  datatype Step =
    | Stage(settings: Intent)
    | Commit(full: bool, axis: nat, value: int)
    | Outside(axis: nat, value: int)
    | CommitFailed
    | Adopt
    | Apply(ok: bool, damage: Intent)
    | Bind(outcome: Binding)
    | Register(settings: Intent)
    | Unregister
    | BindObserved
    | Capture
    | Save(o: Observation)
    | Crash

  function Last(w: World): Intent
    requires w.history != []
  {
    w.history[|w.history| - 1]
  }

  // ------------------------------------------------------------------ steps

  /** Pausing or staging a restore before the commit changes the runtime and forgets what was applied. */
  function DoStage(w: World, settings: Intent): World {
    if w.runtime.Some? && w.command.None?
    then w.(runtime := Some(w.runtime.value.(settings := settings, applied := 0))) else w
  }

  /** A full command has staged first; an incremental one commits directly. */
  function DoCommit(w: World, full: bool, axis: nat, value: int): World
    requires w.history != []
  {
    if w.command.Some? || (full && w.runtime.Some? && w.runtime.value.applied != 0) then w
    else w.(history := w.history + [Last(w)[axis := value]],
        command := Some(Command(|w.history| + 1, full, axis, value, false)))
  }

  /**
   * A revision committed without an apply: the commit of an incremental command can be durable and
   * still report an error, and the command then returns without touching the runtime.
   */
  function DoOutside(w: World, axis: nat, value: int): World
    requires w.history != []
  {
    w.(history := w.history + [Last(w)[axis := value]])
  }

  /** FailIntentApply: quiesce and forget what was applied. */
  function Fail(w: World): World {
    w.(command := None, runtime := if w.runtime.Some? then Some(w.runtime.value.(applied := 0)) else None)
  }

  /** A full apply of the current revision to a runtime that has nothing applied, as a new add does. */
  function DoAdopt(w: World): World {
    if w.command.None? && w.runtime.Some? && w.runtime.value.applied == 0
        then w.(command := Some(Command(|w.history|, true, 0, 0, false))) else w
  }

  /**
   * A full apply installs the whole saved intent, an incremental one only its own axis; a failed one leaves
   * anything.
   */
  function DoApply(w: World, ok: bool, damage: Intent): World
    requires w.history != []
  {
    if w.command.None? || w.command.value.done then w
    else if w.runtime.None? then w.(command := Some(w.command.value.(done := true)))
    else if !ok then Fail(w.(runtime := Some(w.runtime.value.(settings := damage))))
    else
      var c, r := w.command.value, w.runtime.value;
      w.(command := Some(c.(done := true)),
         runtime := Some(r.(settings := if !c.full then r.settings[c.axis := c.value]
                                        else if 0 < c.version <= |w.history| then w.history[c.version - 1]
                                        else damage)))
  }

  /** AttachRuntime then BindRuntime with the given applied revision. */
  function Attached(w: World, r: Runtime, applied: nat): World {
    w.(attachment := w.nextToken, savedSequence := 0, saved := None, nextToken := w.nextToken + 1,
       runtime := Some(Runtime(r.settings, |w.history|, w.nextToken, applied, 0)))
  }

  /** bindAppliedRuntime, or bindIncrementalRuntime with its guard. */
  function DoBind(w: World, outcome: Binding): World {
    if w.command.None? || !w.command.value.done then w
    else if w.runtime.None? then w.(command := None)
    else
      var v, r := w.command.value.version, w.runtime.value;
      if !w.command.value.full && !(r.fence == v - 1 && r.applied == r.fence) then w.(command := None)
      else if r.fence == v && r.attachment != 0 && r.applied == v then w.(command := None)
      else match if v == |w.history| then outcome else AttachFailed
        case Bound => Attached(w, r, v).(command := None)
        case AttachFailed => Fail(w)
        case BindFailed => Fail(w.(attachment := w.nextToken, savedSequence := 0, saved := None,
                                   nextToken := w.nextToken + 1))
  }

  /** Delivering observations of a runtime nobody bound, or after a recheck: acknowledges nothing. */
  function DoBindObserved(w: World): World {
    if w.runtime.Some? && w.command.None? && w.runtime.value.fence <= |w.history|
    then Attached(w, w.runtime.value, 0) else w
  }

  function DoCapture(w: World): World {
    if w.runtime.None? || w.runtime.value.attachment == 0 then w
    else
      var r := w.runtime.value.(sequence := w.runtime.value.sequence + 1);
      w.(runtime := Some(r),
         captured := w.captured + {Observation(r.fence, r.attachment, r.sequence, r.applied, r.settings, |w.history|)})
  }

  /** SaveRuntimeObservation: only for the current revision and attachment, in sequence. */
  function DoSave(w: World, o: Observation): World {
    if o in w.captured && o.revision == |w.history| && o.attachment == w.attachment && o.sequence > w.savedSequence
       && o.applied <= o.revision
    then w.(savedSequence := o.sequence, saved := Some(o)) else w
  }

  function Do(w: World, a: Step): (w': World)
    requires w.history != []
    ensures w.history <= w'.history && w'.history != []
  {
    match a
    case Stage(settings) => DoStage(w, settings)
    case Commit(full, axis, value) => DoCommit(w, full, axis, value)
    case Outside(axis, value) => DoOutside(w, axis, value)
    case CommitFailed => if w.command.None? then Fail(w) else w
    case Adopt => DoAdopt(w)
    case Apply(ok, damage) => DoApply(w, ok, damage)
    case Bind(outcome) => DoBind(w, outcome)
    case Register(settings) =>
      if w.runtime.None? && w.command.None? then w.(runtime := Some(Runtime(settings, 0, 0, 0, 0))) else w
    case Unregister => if w.command.None? then w.(runtime := None) else w
    case BindObserved => DoBindObserved(w)
    case Capture => DoCapture(w)
    case Save(o) => DoSave(w, o)
    case Crash => w.(runtime := None, command := None, captured := {})
  }

  function Run(w: World, steps: seq<Step>): (w': World)
    requires w.history != []
    ensures w'.history != []
    decreases |steps|
  {
    if steps == [] then w else Run(Do(w, steps[0]), steps[1..])
  }

  // ------------------------------------------------------------------ the invariant

  /** A runtime acknowledged at the newest revision has exactly that intent. */
  predicate Truthful(w: World)
    requires w.history != []
  {
    w.runtime.Some? && w.runtime.value.applied == |w.history| ==> w.runtime.value.settings == Last(w)
  }

  /** What a running command knows about a runtime that was acknowledged right before it. */
  predicate InProgress(w: World)
    requires w.history != []
  {
    w.command.Some? ==>
      && 0 < w.command.value.version <= |w.history|
      && (w.runtime.Some? ==> Carries(w.history, w.command.value, w.runtime.value))
  }

  predicate Carries(history: seq<Intent>, c: Command, r: Runtime)
    requires 0 < c.version <= |history|
  {
    var v := c.version;
    && (c.full ==> r.applied == 0)
    && (c.full && c.done ==> r.settings == history[v - 1])
    && (!c.full ==> v >= 2 && history[v - 1] == history[v - 2][c.axis := c.value] && r.applied < v)
    && (!c.full && r.applied == v - 1 ==> r.settings == history[if c.done then v - 1 else v - 2])
  }

  predicate Fenced(w: World) {
    w.runtime.Some? ==> w.runtime.value.applied <= w.runtime.value.fence <= |w.history|
  }

  predicate Honest(history: seq<Intent>, o: Observation) {
    o.revision <= o.at <= |history| && (o.applied > 0 && o.applied == o.at ==> o.settings == history[o.at - 1])
  }

  predicate Sound(w: World) {
    && w.history != [] && Truthful(w) && InProgress(w) && Fenced(w)
    && (forall o :: o in w.captured ==> Honest(w.history, o))
    && (w.saved.Some? ==> Honest(w.history, w.saved.value))
  }

  lemma HonestStays(a: seq<Intent>, b: seq<Intent>, o: Observation)
    requires Honest(a, o) && a <= b
    ensures Honest(b, o)
  {
  }

  lemma CommandSound(w: World, a: Step)
    requires Sound(w) && (a.Stage? || a.CommitFailed? || a.Adopt? || a.Apply? || a.Bind? || a.Crash?)
    ensures Sound(Do(w, a))
  {
  }

  lemma CommitSound(w: World, a: Step)
    requires Sound(w) && (a.Commit? || a.Outside?)
    ensures Sound(Do(w, a))
  {
    var w' := Do(w, a);
    if w' != w {
      forall o | o in w'.captured ensures Honest(w'.history, o) { HonestStays(w.history, w'.history, o); }
      if w.saved.Some? { HonestStays(w.history, w'.history, w.saved.value); }
    }
  }

  lemma OtherSound(w: World, a: Step)
    requires Sound(w) && (a.Register? || a.Unregister? || a.BindObserved? || a.Capture? || a.Save?)
    ensures Sound(Do(w, a))
  {
  }

  lemma StepSound(w: World, a: Step)
    requires Sound(w)
    ensures Sound(Do(w, a))
  {
    if a.Commit? || a.Outside? { CommitSound(w, a); }
    else if a.Stage? || a.CommitFailed? || a.Adopt? || a.Apply? || a.Bind? || a.Crash? { CommandSound(w, a); }
    else { OtherSound(w, a); }
  }

  lemma {:induction false} RunSound(w: World, steps: seq<Step>)
    requires Sound(w)
    ensures Sound(Run(w, steps))
    decreases |steps|
  {
    if steps != [] {
      StepSound(w, steps[0]);
      RunSound(Do(w, steps[0]), steps[1..]);
    }
  }

  // ------------------------------------------------------------------ what every run guarantees

  function Start(intent: Intent): World {
    World([intent], 0, 0, None, 1, None, None, {})
  }

  /** In every reachable state, in the middle of commands too, an acknowledged newest revision is really applied. */
  lemma AcknowledgedIsApplied(intent: Intent, steps: seq<Step>)
    ensures var w := Run(Start(intent), steps);
            w.runtime.Some? && w.runtime.value.applied == |w.history| ==> w.runtime.value.settings == Last(w)
  {
    RunSound(Start(intent), steps);
  }

  /** What the store accepted as applied at its current revision was true of the runtime when it was observed. */
  lemma SavedObservationIsTrue(intent: Intent, steps: seq<Step>)
    ensures var w := Run(Start(intent), steps);
            w.saved.Some? && w.saved.value.applied == |w.history| && w.saved.value.applied <= w.saved.value.revision ==>
              w.saved.value.settings == Last(w)
  {
    RunSound(Start(intent), steps);
  }

  /** There is a committed revision the runtime does not have, and no full command is under way. */
  predicate Behind(w: World) {
    && w.runtime.Some? && w.runtime.value.applied < |w.history|
    && (w.command.Some? ==> !w.command.value.full && w.runtime.value.applied < w.command.value.version - 1)
  }

  predicate Incremental(a: Step) {
    !(a.Commit? && a.full) && !a.Adopt? && !a.Register? && !a.Unregister? && !a.Crash?
  }

  /** A failed or skipped revision is never acknowledged by incremental commands, observations or failures. */
  lemma StillBehind(w: World, a: Step)
    requires Sound(w) && Behind(w) && Incremental(a)
    ensures Behind(Do(w, a)) && Do(w, a).runtime.value.applied <= w.runtime.value.applied
  {
  }

  lemma {:induction false} NeverAcknowledgedIncrementally(w: World, steps: seq<Step>)
    requires Sound(w) && Behind(w) && forall i :: 0 <= i < |steps| ==> Incremental(steps[i])
    ensures Behind(Run(w, steps)) && Run(w, steps).runtime.value.applied <= w.runtime.value.applied
    decreases |steps|
  {
    if steps != [] {
      StillBehind(w, steps[0]);
      StepSound(w, steps[0]);
      NeverAcknowledgedIncrementally(Do(w, steps[0]), steps[1..]);
    }
  }

  // ------------------------------------------------------------------ when the applied revision names the settings

  /** The stronger reading: whatever revision is marked applied, the runtime has that revision's intent. */
  predicate Literal(w: World) {
    w.runtime.Some? && 0 < w.runtime.value.applied <= |w.history| ==>
      w.runtime.value.settings == w.history[w.runtime.value.applied - 1]
  }

  /** One whole incremental command that meets no error. */
  function Incrementally(w: World, axis: nat, value: int): World
    requires w.history != []
  {
    Do(Do(Do(w, Commit(false, axis, value)), Apply(true, map[])), Bind(Bound))
  }

  /**
   * After an incremental command the stronger reading holds exactly when the runtime was at the
   * newest revision before it (the guard of bindIncrementalRuntime) or the command changed nothing.
   */
  lemma IncrementalExact(w: World, axis: nat, value: int)
    requires Sound(w) && Literal(w) && w.command.None? && w.runtime.Some? && w.runtime.value.applied > 0
    ensures var r := w.runtime.value;
            Literal(Incrementally(w, axis, value)) <==>
            (r.fence == |w.history| && r.applied == r.fence) || r.settings[axis := value] == r.settings
  {
    var w1 := Do(w, Commit(false, axis, value));
    StepSound(w, Commit(false, axis, value));
    StepSound(w1, Apply(true, map[]));
    StepSound(Do(w1, Apply(true, map[])), Bind(Bound));
  }

  /**
   * Every revision was committed by a command: an applied runtime is at the newest one, or the command is on
   * its way.
   */
  predicate NoGap(w: World) {
    && (w.runtime.Some? && w.runtime.value.applied > 0 ==>
          && w.runtime.value.fence == w.runtime.value.applied
          && w.runtime.value.applied == if w.command.Some? then |w.history| - 1 else |w.history|)
    && (w.command.Some? ==> w.command.value.version == |w.history|)
  }

  lemma NoGapStep(w: World, a: Step)
    requires Sound(w) && NoGap(w) && !a.Outside?
    ensures NoGap(Do(w, a))
  {
  }

  /** Without revisions that no command applied, the stronger reading holds whenever no command is under way. */
  lemma {:induction false} LiteralAtRest(w: World, steps: seq<Step>)
    requires Sound(w) && NoGap(w) && forall i :: 0 <= i < |steps| ==> !steps[i].Outside?
    ensures NoGap(Run(w, steps)) && (Run(w, steps).command.None? ==> Literal(Run(w, steps)))
    decreases |steps|
  {
    if steps != [] {
      NoGapStep(w, steps[0]);
      StepSound(w, steps[0]);
      LiteralAtRest(Do(w, steps[0]), steps[1..]);
    }
  }

  /** With one, it fails: the applied revision stays 1 while the runtime takes on a later setting. */
  lemma OutsideBreaksLiteral()
    ensures var intent := map[0 := 0];
            var w := Run(Start(intent), [Register(intent), Adopt, Apply(true, map[]), Bind(Bound), Outside(1, 1)]);
            w.history != [] && Literal(w) && !Literal(Incrementally(w, 0, 5))
  {
    var intent: Intent := map[0 := 0];
    var steps := [Register(intent), Adopt, Apply(true, map[]), Bind(Bound), Outside(1, 1)];
    var w1 := Do(Start(intent), Register(intent));
    var w2 := Do(w1, Adopt);
    var w3 := Do(w2, Apply(true, map[]));
    var w4 := Do(w3, Bind(Bound));
    var w := Do(w4, Outside(1, 1));
    assert w4.runtime == Some(Runtime(intent, 1, 1, 1, 0)) && w4.command.None? && w4.history == [intent];
    assert w.history == [intent, intent[1 := 1]];
    Unroll(Start(intent), steps);
    assert intent[0 := 5][0] == 5 != intent[0];
    RunSound(Start(intent), steps);
    IncrementalExact(w, 0, 5);
  }

  lemma Unroll(w: World, s: seq<Step>)
    requires w.history != [] && |s| == 5
    ensures Run(w, s) == Do(Do(Do(Do(Do(w, s[0]), s[1]), s[2]), s[3]), s[4])
  {
    var w3 := Do(Do(Do(w, s[0]), s[1]), s[2]);
    var w4 := Do(w3, s[3]);
    assert s[1..][1..] == s[2..] && s[2..][1..] == s[3..] && s[3..][1..] == s[4..] && s[4..][1..] == [];
    assert Run(w4, s[4..]) == Run(Do(w4, s[4]), []);
    assert Run(w3, s[3..]) == Run(w4, s[4..]);
    assert Run(Do(Do(w, s[0]), s[1]), s[2..]) == Run(w3, s[3..]);
    assert Run(Do(w, s[0]), s[1..]) == Run(Do(Do(w, s[0]), s[1]), s[2..]);
  }
}
