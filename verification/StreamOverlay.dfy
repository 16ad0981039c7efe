/**
 * The stream overlay of one live torrent: which pieces the streaming sessions of its files hold
 * at high priority. Every operation runs under the admission lock, so it is one step. A file's
 * applied ranges are kept as the set of pieces they cover (StreamRanges.Merge keeps that set), and
 * the torrent library as the set of pieces at overlay priority, which SetPriority changes piece by
 * piece and CancelPieces empties.
 */
module StreamOverlay {

  /** The pieces a session's window asks for; none for an accounting-only session. */
  datatype Session = Session(preload: bool, wanted: set<int>)

  /** `born` identifies the state object, so that an old timer cannot act on a recreated state. */
  datatype FileState = FileState(born: nat, sessions: map<nat, Session>, streams: int, preloads: int,
                                 timer: bool, version: nat, applied: set<int>)

  datatype Overlay = Overlay(states: map<nat, FileState>, high: set<int>, eligible: bool, complete: set<nat>,
                             nextId: nat)

  datatype Step =
    | Add(file: nat, session: Session)
    | Remove(file: nat, id: nat, debounce: bool)
    | Expire(file: nat, born: nat, version: nat)
    | Refresh
    | Quiesce(eligible: bool, cancel: bool)
    | Progress(complete: set<nat>)
    | Block

  /** What the engine's methods allow beyond the program's use of them: a block on any torrent. */
  datatype Call = Program(step: Step) | BareBlock

  // ------------------------------------------------------------------ operations

  function Union(states: map<nat, FileState>): set<int> {
    set k, p | k in states && p in states[k].applied :: p
  }

  function Asked(sessions: map<nat, Session>): set<int> {
    set id, p | id in sessions && p in sessions[id].wanted :: p
  }

  /** What a file's sessions want now; a file waiting for its debounce keeps what it had. */
  function Wanted(s: FileState, complete: bool): set<int> {
    if complete then {} else (if s.sessions == map[] && s.timer then s.applied else {}) + Asked(s.sessions)
  }

  function Renewed(s: FileState, eligible: bool, complete: bool): FileState {
    s.(applied := if eligible then Wanted(s, complete) else {})
  }

  function Recomputed(o: Overlay): map<nat, FileState> {
    map k | k in o.states :: Renewed(o.states[k], o.eligible, k in o.complete)
  }

  /** refreshTorrentOverlayLocked: lower what nobody wants any more, raise what is wanted. */
  function DoRefresh(o: Overlay): Overlay {
    var states := Recomputed(o);
    o.(states := states, high := (o.high - (Union(o.states) - Union(states))) + Union(states))
  }

  /** The session joins the file's state and its counter, and a pending debounce is off. */
  function Joined(s: FileState, id: nat, session: Session): FileState {
    FileState(s.born, s.sessions[id := session], if session.preload then s.streams else s.streams + 1,
              if session.preload then s.preloads + 1 else s.preloads, false, s.version + 1, s.applied)
  }

  function DoAdd(o: Overlay, file: nat, session: Session): Overlay {
    var id := o.nextId + 1;
    var s := if file in o.states then o.states[file] else FileState(id, map[], 0, 0, false, 0, {});
    var t := Joined(s, id, session);
    DoRefresh(o.(states := o.states[file := t], nextId := id))
  }

  function Clip(n: int): int {
    if n < 0 then 0 else n
  }

  /** The session leaves the file's state and its counter. */
  function Without(s: FileState, id: nat): FileState
    requires id in s.sessions
  {
    s.(sessions := s.sessions - {id},
       streams := Clip(if s.sessions[id].preload then s.streams else s.streams - 1),
       preloads := Clip(if s.sessions[id].preload then s.preloads - 1 else s.preloads))
  }

  /** restoreBasePriorities: an inactive torrent has all its pieces cancelled, an active one is refreshed. */
  function RestoreBase(o: Overlay): Overlay {
    if o.eligible then DoRefresh(o) else o.(high := {})
  }

  predicate Clearable(o: Overlay, file: nat) {
    file in o.states && o.states[file].streams == 0 && o.states[file].preloads == 0
  }

  /** clearStreamOverlayLocked. */
  function DoClear(o: Overlay, file: nat): Overlay {
    if !Clearable(o, file) then o
    else
      var ranges := o.states[file].applied;
      var rest := o.states - {file};
      if ranges == {} then o.(states := rest)
      else RestoreBase(o.(states := rest, high := o.high - (ranges - Union(rest))))
  }

  function DoRemove(o: Overlay, file: nat, id: nat, debounce: bool): Overlay {
    if file !in o.states || id !in o.states[file].sessions then o
    else
      var s := Without(o.states[file], id);
      var o1 := o.(states := o.states[file := s]);
      if s.streams > 0 || s.preloads > 0 then DoRefresh(o1)
      else if debounce then o1.(states := o1.states[file := s.(timer := true, version := s.version + 1)])
      else DoClear(o1, file)
  }

  function DoExpire(o: Overlay, file: nat, born: nat, version: nat): Overlay {
    if Clearable(o, file) && o.states[file].born == born && o.states[file].version == version
    then DoClear(o, file) else o
  }

  /** RestoreVerificationBlock: the torrent becomes ineligible and its overlay is left alone. */
  function Blocked(o: Overlay): Overlay {
    o.(eligible := false)
  }

  /**
   * The program restores a verification block only on a runtime it has just registered inactive
   * (RuntimePolicy.BlockedRestoreIsInactive), so its call never meets an eligible torrent.
   */
  function Do(o: Overlay, a: Step): Overlay {
    match a
    case Add(file, session) => DoAdd(o, file, session)
    case Remove(file, id, debounce) => DoRemove(o, file, id, debounce)
    case Expire(file, born, version) => DoExpire(o, file, born, version)
    case Refresh => DoRefresh(o)
    case Quiesce(eligible, cancel) => DoRefresh(o.(eligible := eligible, high := if cancel then {} else o.high))
    case Progress(complete) => o.(complete := complete)
    case Block => if o.eligible then o else Blocked(o)
  }

  function Run(o: Overlay, steps: seq<Step>): Overlay
    decreases |steps|
  {
    if steps == [] then o else Run(Do(o, steps[0]), steps[1..])
  }

  // ------------------------------------------------------------------ the invariant

  /** The pieces at overlay priority are exactly those of the remaining states. */
  predicate Mirrors(o: Overlay) {
    o.high == Union(o.states)
  }

  /** An inactive torrent has no applied pieces left. */
  predicate Settled(o: Overlay) {
    !o.eligible ==> Union(o.states) == {}
  }

  lemma RefreshMirrors(o: Overlay)
    requires o.high <= Union(o.states)
    ensures Mirrors(DoRefresh(o)) && Settled(DoRefresh(o))
  {
  }

  lemma UnionSplit(states: map<nat, FileState>, file: nat)
    requires file in states
    ensures Union(states) == states[file].applied + Union(states - {file})
  {
    var rest := states - {file};
    forall p | p in Union(states) ensures p in states[file].applied + Union(rest) {
      var k :| k in states && p in states[k].applied;
      if k != file { assert k in rest && p in rest[k].applied; }
    }
    forall p | p in states[file].applied ensures p in Union(states) {}
    forall p | p in Union(rest) ensures p in Union(states) {
      var k :| k in rest && p in rest[k].applied;
      assert k in states && p in states[k].applied;
    }
  }

  /** Changing only sessions, counters or the timer of one state keeps the union. */
  lemma SameApplied(states: map<nat, FileState>, file: nat, s: FileState)
    requires if file in states then s.applied == states[file].applied else s.applied == {}
    ensures Union(states[file := s]) == Union(states)
  {
    var after := states[file := s];
    forall p | p in Union(after) ensures p in Union(states) {
      var k :| k in after && p in after[k].applied;
      assert k in states && p in states[k].applied;
    }
    forall p | p in Union(states) ensures p in Union(after) {
      var k :| k in states && p in states[k].applied;
      assert k in after && p in after[k].applied;
    }
  }

  /** Clearing keeps the mirror exactly when the torrent is active or nothing else is applied. */
  lemma ClearExact(o: Overlay, file: nat)
    requires Mirrors(o) && Clearable(o, file)
    ensures Mirrors(DoClear(o, file)) <==>
            o.eligible || o.states[file].applied == {} || Union(o.states - {file}) == {}
  {
    var rest := o.states - {file};
    UnionSplit(o.states, file);
    if o.states[file].applied != {} {
      var o1 := o.(states := rest, high := o.high - (o.states[file].applied - Union(rest)));
      assert o1.high == Union(rest);
      if o.eligible { RefreshMirrors(o1); }
    }
  }

  lemma ClearMirrors(o: Overlay, file: nat)
    requires Mirrors(o) && Settled(o)
    ensures Mirrors(DoClear(o, file)) && Settled(DoClear(o, file))
  {
    if Clearable(o, file) {
      UnionSplit(o.states, file);
      ClearExact(o, file);
    }
  }

  lemma StepMirrors(o: Overlay, a: Step)
    requires Mirrors(o) && Settled(o)
    ensures Mirrors(Do(o, a)) && Settled(Do(o, a))
  {
    match a
    case Add(file, session) =>
      var o1 := Do(o, a);
      AddKeepsUnion(o, file, session);
    case Remove(file, id, debounce) => RemoveMirrors(o, file, id, debounce);
    case Expire(file, born, version) => ClearMirrors(o, file);
    case Refresh => RefreshMirrors(o);
    case Quiesce(eligible, cancel) => RefreshMirrors(o.(eligible := eligible, high := if cancel then {} else o.high));
    case Progress(_) =>
    case Block =>
  }

  lemma AddKeepsUnion(o: Overlay, file: nat, session: Session)
    requires Mirrors(o)
    ensures Mirrors(DoAdd(o, file, session)) && Settled(DoAdd(o, file, session))
  {
    var id := o.nextId + 1;
    var s := if file in o.states then o.states[file] else FileState(id, map[], 0, 0, false, 0, {});
    var t := Joined(s, id, session);
    SameApplied(o.states, file, t);
    RefreshMirrors(o.(states := o.states[file := t], nextId := id));
  }

  lemma RemoveMirrors(o: Overlay, file: nat, id: nat, debounce: bool)
    requires Mirrors(o) && Settled(o)
    ensures Mirrors(DoRemove(o, file, id, debounce)) && Settled(DoRemove(o, file, id, debounce))
  {
    if file in o.states && id in o.states[file].sessions {
      var s := Without(o.states[file], id);
      var o1 := o.(states := o.states[file := s]);
      SameApplied(o.states, file, s);
      if s.streams > 0 || s.preloads > 0 {
        RefreshMirrors(o1);
      } else if debounce {
        SameApplied(o1.states, file, s.(timer := true, version := s.version + 1));
      } else {
        ClearMirrors(o1, file);
      }
    }
  }

  /** The step clears a file with applied pieces on an inactive torrent where other pieces are applied too. */
  predicate Loses(o: Overlay, a: Step) {
    match a
    case Remove(file, id, debounce) =>
      && !debounce && file in o.states && id in o.states[file].sessions
      && Without(o.states[file], id).streams == 0 && Without(o.states[file], id).preloads == 0
      && !o.eligible && o.states[file].applied != {} && Union(o.states - {file}) != {}
    case Expire(file, born, version) =>
      && Clearable(o, file) && o.states[file].born == born && o.states[file].version == version
      && !o.eligible && o.states[file].applied != {} && Union(o.states - {file}) != {}
    case _ => false
  }

  /** From any mirrored state, settled or not, a step keeps the mirror exactly unless it loses pieces so. */
  lemma StepMirrorsExactly(o: Overlay, a: Step)
    requires Mirrors(o)
    ensures Mirrors(Do(o, a)) <==> !Loses(o, a)
  {
    match a
    case Add(file, session) => AddKeepsUnion(o, file, session);
    case Remove(file, id, debounce) =>
      if file in o.states && id in o.states[file].sessions {
        var s := Without(o.states[file], id);
        var o1 := o.(states := o.states[file := s]);
        SameApplied(o.states, file, s);
        assert o1.states - {file} == o.states - {file};
        if s.streams > 0 || s.preloads > 0 {
          RefreshMirrors(o1);
        } else if debounce {
          SameApplied(o1.states, file, s.(timer := true, version := s.version + 1));
        } else {
          ClippedNonNegative(o.states[file], id);
          ClearExact(o1, file);
        }
      }
    case Expire(file, born, version) => if Clearable(o, file) { ClearExact(o, file); }
    case Refresh => RefreshMirrors(o);
    case Quiesce(eligible, cancel) => RefreshMirrors(o.(eligible := eligible, high := if cancel then {} else o.high));
    case Progress(_) =>
    case Block =>
  }

  lemma ClippedNonNegative(s: FileState, id: nat)
    requires id in s.sessions
    ensures Without(s, id).streams >= 0 && Without(s, id).preloads >= 0
  {
  }

  /** Whatever sessions come, go and expire, the overlay is the union of what the states applied. */
  lemma {:induction false} RunMirrors(o: Overlay, steps: seq<Step>)
    requires Mirrors(o) && Settled(o)
    ensures Mirrors(Run(o, steps)) && Settled(Run(o, steps))
    decreases |steps|
  {
    if steps != [] {
      StepMirrors(o, steps[0]);
      RunMirrors(Do(o, steps[0]), steps[1..]);
    }
  }

  /** Closing one file's session never drops a piece another file's sessions still want. */
  lemma NeighbourKeepsPieces(o: Overlay, file: nat, id: nat, debounce: bool, other: nat, p: int)
    requires Mirrors(o) && Settled(o) && o.eligible && other in o.states && other != file
    requires other !in o.complete && p in o.states[other].applied && p in Wanted(o.states[other], false)
    ensures p in DoRemove(o, file, id, debounce).high
  {
    RemoveMirrors(o, file, id, debounce);
    var o' := DoRemove(o, file, id, debounce);
    assert other in o'.states && p in o'.states[other].applied;
  }

  // ------------------------------------------------------------------ reference counts

  function Kind(sessions: map<nat, Session>, preload: bool): set<nat> {
    set id | id in sessions && sessions[id].preload == preload
  }

  /** The counters are the numbers of open sessions of each kind, and session numbers are never reused. */
  predicate Counted(s: FileState, nextId: nat) {
    && s.streams == |Kind(s.sessions, false)| && s.preloads == |Kind(s.sessions, true)|
    && forall id :: id in s.sessions ==> id <= nextId
  }

  predicate AllCounted(o: Overlay) {
    forall k :: k in o.states ==> Counted(o.states[k], o.nextId)
  }

  lemma OneMore(sessions: map<nat, Session>, id: nat, session: Session, preload: bool)
    requires id !in sessions
    ensures |Kind(sessions[id := session], preload)| ==
            |Kind(sessions, preload)| + if session.preload == preload then 1 else 0
  {
    var after := Kind(sessions[id := session], preload);
    if session.preload == preload {
      assert after == Kind(sessions, preload) + {id};
    } else {
      assert after == Kind(sessions, preload);
    }
  }

  lemma AddCounted(s: FileState, id: nat, session: Session, nextId: nat)
    requires Counted(s, nextId) && id == nextId + 1
    ensures Counted(Joined(s, id, session), id)
  {
    OneMore(s.sessions, id, session, false);
    OneMore(s.sessions, id, session, true);
  }

  lemma RemoveCounted(s: FileState, id: nat, nextId: nat)
    requires Counted(s, nextId) && id in s.sessions
    ensures Counted(Without(s, id), nextId)
  {
    var rest := s.sessions - {id};
    assert rest[id := s.sessions[id]] == s.sessions;
    OneMore(rest, id, s.sessions[id], false);
    OneMore(rest, id, s.sessions[id], true);
  }

  lemma NoSessions(s: FileState, nextId: nat)
    requires Counted(s, nextId) && s.streams == 0 && s.preloads == 0
    ensures s.sessions == map[]
  {
    assert s.sessions.Keys == Kind(s.sessions, false) + Kind(s.sessions, true);
  }

  lemma RefreshCounted(o: Overlay)
    requires AllCounted(o)
    ensures AllCounted(DoRefresh(o))
  {
  }

  lemma AddStepCounted(o: Overlay, file: nat, session: Session)
    requires AllCounted(o)
    ensures AllCounted(DoAdd(o, file, session))
  {
    var id := o.nextId + 1;
    var s := if file in o.states then o.states[file] else FileState(id, map[], 0, 0, false, 0, {});
    assert Counted(s, o.nextId);
    AddCounted(s, id, session, o.nextId);
    var t := Joined(s, id, session);
    RefreshCounted(o.(states := o.states[file := t], nextId := id));
  }

  lemma ClearCounted(o: Overlay, file: nat)
    requires AllCounted(o)
    ensures AllCounted(DoClear(o, file))
  {
  }

  lemma RemoveStepCounted(o: Overlay, file: nat, id: nat, debounce: bool)
    requires AllCounted(o)
    ensures AllCounted(DoRemove(o, file, id, debounce))
  {
    if file in o.states && id in o.states[file].sessions {
      RemoveCounted(o.states[file], id, o.nextId);
      var o1 := o.(states := o.states[file := Without(o.states[file], id)]);
      RefreshCounted(o1);
      ClearCounted(o1, file);
    }
  }

  lemma StepCounted(o: Overlay, a: Step)
    requires AllCounted(o)
    ensures AllCounted(Do(o, a))
  {
    match a
    case Add(file, session) => AddStepCounted(o, file, session);
    case Remove(file, id, debounce) => RemoveStepCounted(o, file, id, debounce);
    case Expire(file, born, version) => ClearCounted(o, file);
    case _ =>
  }

  /** Over every run the counters are exact, so an overlay is cleared only when its file has no session left. */
  lemma {:induction false} ClearedFilesAreIdle(o: Overlay, steps: seq<Step>, file: nat)
    requires AllCounted(o) && Clearable(Run(o, steps), file)
    ensures Run(o, steps).states[file].sessions == map[]
    decreases |steps|
  {
    if steps == [] {
      NoSessions(o.states[file], o.nextId);
    } else {
      StepCounted(o, steps[0]);
      ClearedFilesAreIdle(Do(o, steps[0]), steps[1..], file);
    }
  }

  // ------------------------------------------------------------------ the bare engine method

  function Make(o: Overlay, c: Call): Overlay {
    match c
    case Program(step) => Do(o, step)
    case BareBlock => Blocked(o)
  }

  function RunCalls(o: Overlay, calls: seq<Call>): Overlay
    decreases |calls|
  {
    if calls == [] then o else RunCalls(Make(o, calls[0]), calls[1..])
  }

  /** Mirrored before, between and after the calls. */
  predicate AlwaysMirrored(o: Overlay, calls: seq<Call>)
    decreases |calls|
  {
    Mirrors(o) && (calls == [] || AlwaysMirrored(Make(o, calls[0]), calls[1..]))
  }

  predicate NeverLoses(o: Overlay, calls: seq<Call>)
    decreases |calls|
  {
    calls == [] || ((calls[0].Program? ==> !Loses(o, calls[0].step)) && NeverLoses(Make(o, calls[0]), calls[1..]))
  }

  /** Over any calls of the engine's methods the mirror holds throughout if and only if no call loses pieces. */
  lemma {:induction false} CallsMirrorExactly(o: Overlay, calls: seq<Call>)
    requires Mirrors(o)
    ensures AlwaysMirrored(o, calls) <==> NeverLoses(o, calls)
    decreases |calls|
  {
    if calls != [] {
      if calls[0].Program? { StepMirrorsExactly(o, calls[0].step); }
      if Mirrors(Make(o, calls[0])) { CallsMirrorExactly(Make(o, calls[0]), calls[1..]); }
    }
  }

  /** Two files streamed, one piece each, after a block that met an eligible torrent. */
  function TwoStreams(): Overlay {
    Overlay(map[0 := FileState(1, map[1 := Session(false, {1})], 1, 0, false, 1, {1}),
                1 := FileState(2, map[2 := Session(false, {2})], 1, 0, false, 1, {2})], {1, 2}, false, {}, 2)
  }

  /**
   * The bare method is not safe on an eligible torrent: closing one of two streams afterwards
   * cancels the other one's pieces while its ranges stay applied. The program never calls it so.
   */
  lemma BlockBreaksMirror()
    ensures Mirrors(TwoStreams()) && !Mirrors(Do(TwoStreams(), Remove(0, 1, false)))
  {
    var o := TwoStreams();
    assert 1 in Union(o.states) && 2 in Union(o.states) by {
      assert 1 in o.states[0].applied && 2 in o.states[1].applied;
    }
    var s := Without(o.states[0], 1);
    var o1 := o.(states := o.states[0 := s]);
    SameApplied(o.states, 0, s);
    ClearExact(o1, 0);
    assert 1 in o1.states - {0} && (o1.states - {0})[1].applied == {2};
    assert 2 in Union(o1.states - {0});
  }

  /** Two adds and the bare block lead there. */
  lemma BareBlockLeadsThere()
    ensures RunCalls(Overlay(map[], {}, true, {}, 0),
                     [Program(Add(0, Session(false, {1}))), Program(Add(1, Session(false, {2}))), BareBlock])
            == TwoStreams()
  {
    var one, two := Program(Add(0, Session(false, {1}))), Program(Add(1, Session(false, {2})));
    var o1 := FirstStream();
    var o2 := TwoStreams().(eligible := true);
    FirstAdd();
    SecondAdd();
    assert [one, two, BareBlock][1..] == [two, BareBlock];
    assert [two, BareBlock][1..] == [BareBlock] && [BareBlock][1..] == [];
    assert RunCalls(o2, [BareBlock])
            == TwoStreams();
    assert RunCalls(o1, [two, BareBlock]) == RunCalls(o2, [BareBlock]);
  }

  function FirstStream(): Overlay {
    Overlay(map[0 := FileState(1, map[1 := Session(false, {1})], 1, 0, false, 1, {1})], {1}, true, {}, 1)
  }

  lemma OneSession(id: nat, p: int)
    ensures Asked(map[id := Session(false, {p})]) == {p}
  {
    assert p in Asked(map[id := Session(false, {p})]) by { assert p in map[id := Session(false, {p})][id].wanted; }
  }

  lemma Lone(id: nat, p: int, born: nat, applied: set<int>)
    ensures Wanted(FileState(born, map[id := Session(false, {p})], 1, 0, false, 1, applied), false) == {p}
  {
    OneSession(id, p);
    assert id in map[id := Session(false, {p})];
  }

  lemma FirstAdd()
    ensures Do(Overlay(map[], {}, true, {}, 0), Add(0, Session(false, {1}))) == FirstStream()
  {
    Lone(1, 1, 1, {});
    var t := FileState(1, map[1 := Session(false, {1})], 1, 0, false, 1, {});
    assert t.sessions == map[][1 := Session(false, {1})];
    var o := Overlay(map[0 := t], {}, true, {}, 1);
    assert Recomputed(o) == FirstStream().states;
    assert Union(FirstStream().states) == {1} by { assert 1 in FirstStream().states[0].applied; }
    assert DoRefresh(o) == FirstStream();
  }

  lemma SecondAdd()
    ensures Do(FirstStream(), Add(1, Session(false, {2}))) == TwoStreams().(eligible := true)
  {
    Lone(1, 1, 1, {1});
    Lone(2, 2, 2, {});
    var t := FileState(2, map[2 := Session(false, {2})], 1, 0, false, 1, {});
    assert t.sessions == map[][2 := Session(false, {2})];
    var o := FirstStream().(states := FirstStream().states[1 := t], nextId := 2);
    assert Recomputed(o) == TwoStreams().states;
    assert Union(o.states) == {1} by { assert 1 in o.states[0].applied; }
    assert Union(TwoStreams().states) == {1, 2} by {
      assert 1 in TwoStreams().states[0].applied && 2 in TwoStreams().states[1].applied;
    }
    assert DoRefresh(o) == TwoStreams().(eligible := true);
  }

  // ------------------------------------------------------------------ the object

  class StreamManager {
    var states: map<nat, FileState>
    var high: set<int>
    var eligible: bool
    var complete: set<nat>
    var nextId: nat

    ghost function View(): Overlay
      reads this
    {
      Overlay(states, high, eligible, complete, nextId)
    }

    constructor ()
      ensures View() == Overlay(map[], {}, true, {}, 0)
    {
      states, high, eligible, complete, nextId := map[], {}, true, {}, 0;
    }

    /** The snapshot, apply and publish sequence over all files of the torrent. */
    method RefreshTorrentOverlay()
      modifies this`states, this`high
      ensures View() == DoRefresh(old(View()))
    {
      var before, after, next := RecomputeAll(Overlay(states, high, eligible, complete, nextId));
      high := (high - (before - after)) + after;
      states := next;
    }

    method AddSession(file: nat, session: Session) returns (id: nat)
      modifies this
      ensures View() == DoAdd(old(View()), file, session) && id == nextId
    {
      nextId := nextId + 1;
      id := nextId;
      var s := if file in states then states[file] else FileState(id, map[], 0, 0, false, 0, {});
      s := Joined(s, id, session);
      states := states[file := s];
      RefreshTorrentOverlay();
    }

    method ClearStreamOverlay(file: nat)
      modifies this
      ensures View() == DoClear(old(View()), file)
    {
      if file !in states || states[file].streams != 0 || states[file].preloads != 0 { return; }
      var ranges := states[file].applied;
      states := states - {file};
      if ranges == {} { return; }
      high := high - (ranges - Union(states));
      if eligible { RefreshTorrentOverlay(); } else { high := {}; }
    }

    method RemoveSession(file: nat, id: nat, debounce: bool)
      modifies this
      ensures View() == DoRemove(old(View()), file, id, debounce)
    {
      if file !in states || id !in states[file].sessions { return; }
      var s := Without(states[file], id);
      states := states[file := s];
      if s.streams > 0 || s.preloads > 0 {
        RefreshTorrentOverlay();
      } else if debounce {
        states := states[file := s.(timer := true, version := s.version + 1)];
      } else {
        ClearStreamOverlay(file);
      }
    }

    method ExpireDebounce(file: nat, born: nat, version: nat)
      modifies this
      ensures View() == DoExpire(old(View()), file, born, version)
    {
      if file in states && states[file].born == born && states[file].version == version
         && states[file].streams == 0 && states[file].preloads == 0 {
        ClearStreamOverlay(file);
      }
    }
  }

  /** The loop of the refresh: old and new pieces of every file, and the new states. */
  method RecomputeAll(o: Overlay) returns (before: set<int>, after: set<int>, next: map<nat, FileState>)
    ensures next == Recomputed(o) && before == Union(o.states) && after == Union(next)
  {
    before, after, next := {}, {}, map[];
    var todo := o.states.Keys;
    ghost var seen: map<nat, FileState> := map[];
    while todo != {}
      invariant todo <= o.states.Keys && Part(seen, o.states, todo)
      invariant next == Recomputed(o.(states := seen)) && before == Union(seen) && after == Union(next)
      decreases |todo|
    {
      var k :| k in todo;
      var s := o.states[k];
      var t := Renewed(s, o.eligible, k in o.complete);
      Grown(seen, k, s);
      Grown(next, k, t);
      PartGrows(o, seen, todo, k);
      before, after := before + s.applied, after + t.applied;
      next := next[k := t];
      seen := seen[k := s];
      todo := todo - {k};
    }
    assert seen == o.states;
  }

  predicate Part(seen: map<nat, FileState>, states: map<nat, FileState>, todo: set<nat>) {
    seen.Keys == states.Keys - todo && forall k :: k in seen ==> seen[k] == states[k]
  }

  lemma PartGrows(o: Overlay, seen: map<nat, FileState>, todo: set<nat>, k: nat)
    requires todo <= o.states.Keys && Part(seen, o.states, todo) && k in todo
    ensures Part(seen[k := o.states[k]], o.states, todo - {k})
    ensures Recomputed(o.(states := seen[k := o.states[k]]))
         == Recomputed(o.(states := seen))[k := Renewed(o.states[k], o.eligible, k in o.complete)]
  {
  }

  lemma Grown(states: map<nat, FileState>, file: nat, s: FileState)
    requires file !in states
    ensures Union(states[file := s]) == Union(states) + s.applied
  {
    UnionSplit(states[file := s], file);
    assert states[file := s] - {file} == states;
  }
}
