/**
 * Ordered acquisition of several keys. Each process runs acquireKeys on a sorted key list: it
 * waits for one key at a time while holding the earlier ones, and on failure or release gives
 * its reservations back last first. Steps of different processes interleave freely.
 */
module KeyOrder {
  import opened Coordinator
  import opened Text
  import opened Wrappers

  // ------------------------------------------------------------------ the key list

  predicate Sorted(keys: seq<string>) {
    forall i, j :: 0 <= i < j < |keys| ==> keys[i] == keys[j] || Less(keys[i], keys[j])
  }

  predicate Increasing(keys: seq<string>) {
    forall i, j :: 0 <= i < j < |keys| ==> Less(keys[i], keys[j])
  }

  /** The keys acquireKeys actually waits for: a sorted list without its adjacent repeats. */
  method SkipRepeats(keys: seq<string>) returns (order: seq<string>)
    requires Sorted(keys)
    ensures Increasing(order)
    ensures forall k :: k in order <==> k in keys
  {
    order := [];
    for i := 0 to |keys|
      invariant Increasing(order)
      invariant forall k :: k in order <==> k in keys[..i]
      invariant order == [] <==> i == 0
      invariant i > 0 ==> order[|order| - 1] == keys[i - 1]
    {
      assert keys[..i + 1] == keys[..i] + [keys[i]];
      if i > 0 && keys[i] == keys[i - 1] { continue; }
      if i > 0 {
        forall j | 0 <= j < |order| ensures Less(order[j], keys[i]) {
          if j < |order| - 1 { LessTransitive(order[j], order[|order| - 1], keys[i]); }
        }
      }
      order := order + [keys[i]];
    }
  }

  // ------------------------------------------------------------------ processes

  datatype Proc = Proc(keys: seq<string>, held: seq<nat>, pending: Option<nat>, releasing: bool)

  datatype World = World(reg: Registry, procs: map<nat, Proc>)

  datatype Move =
    | Begin(p: nat, keys: seq<string>)
    | Ask(p: nat, id: nat, alloc: nat)
    | Fail(p: nat)
    | Advance(p: nat, done: bool)
    | Withdraw(p: nat)
    | Release(p: nat)
    | Return(p: nat)
    | CloseAll
    | CancelAll

  function Set(w: World, reg: Registry, p: nat, proc: Proc): World {
    World(reg, w.procs[p := proc])
  }

  /** Ask for the next key: the process waits on it, or fails when admission is closed. */
  function DoAsk(w: World, p: nat, id: nat, alloc: nat): World {
    if p in w.procs && !w.procs[p].releasing && w.procs[p].pending.None?
       && |w.procs[p].held| < |w.procs[p].keys| && id !in w.reg.tokens && alloc !in w.reg.objects then
      if Admits(w.reg.shut, Acquire) then
        Set(w, DoReference(w.reg, id, p, w.procs[p].keys[|w.procs[p].held|], Acquire, alloc), p,
            w.procs[p].(pending := Some(id)))
      else Set(w, w.reg, p, w.procs[p].(releasing := true))
    else w
  }

  predicate Pending(w: World, p: nat) {
    p in w.procs && w.procs[p].pending.Some? && Live(w.reg, w.procs[p].pending.value)
  }

  /** The pending acquisition goes on: permit, validation, or the return of a refused permit. */
  function DoAdvance(w: World, p: nat, done: bool): World {
    if !Pending(w, p) then w
    else
      var id := w.procs[p].pending.value;
      match w.reg.tokens[id].phase
      case Waiting => w.(reg := DoTake(w.reg, id))
      case Permitted =>
        var reg := DoValidate(w.reg, id, done);
        if StillValid(w.reg.shut, w.reg.tokens[id].kind, done)
        then Set(w, reg, p, w.procs[p].(held := w.procs[p].held + [id], pending := None))
        else w.(reg := reg)
      case Refused => w.(reg := DoPutBack(w.reg, id))
      case Returning => Set(w, DoUnreference(w.reg, id), p, w.procs[p].(pending := None, releasing := true))
      case Holding => w
  }

  function DoWithdraw(w: World, p: nat): World {
    if Pending(w, p) then w.(reg := DoAbandon(w.reg, w.procs[p].pending.value)) else w
  }

  /** acquireKeys returned its release function and the caller uses it. */
  function DoRelease(w: World, p: nat): World {
    if p in w.procs && w.procs[p].pending.None? && |w.procs[p].held| == |w.procs[p].keys|
    then Set(w, w.reg, p, w.procs[p].(releasing := true)) else w
  }

  /** Give the latest reservation back: first its permit, then its reference. */
  function DoReturn(w: World, p: nat): World {
    if p in w.procs && w.procs[p].releasing && w.procs[p].pending.None? && w.procs[p].held != []
       && Live(w.reg, Last(w.procs[p].held)) then
      var id := Last(w.procs[p].held);
      if w.reg.tokens[id].phase.Holding? then w.(reg := DoPutBack(w.reg, id))
      else Set(w, DoUnreference(w.reg, id), p, w.procs[p].(held := Front(w.procs[p].held)))
    else w
  }

  function Last(s: seq<nat>): nat requires s != [] { s[|s| - 1] }

  function Front(s: seq<nat>): seq<nat> requires s != [] { s[..|s| - 1] }

  function Do(w: World, m: Move): World {
    match m
    case Begin(p, keys) =>
      if p in w.procs || !Increasing(keys) then w else Set(w, w.reg, p, Proc(keys, [], None, false))
    case Ask(p, id, alloc) => DoAsk(w, p, id, alloc)
    case Fail(p) =>
      if p in w.procs && w.procs[p].pending.None? && |w.procs[p].held| < |w.procs[p].keys|
      then Set(w, w.reg, p, w.procs[p].(releasing := true)) else w
    case Advance(p, done) => DoAdvance(w, p, done)
    case Withdraw(p) => DoWithdraw(w, p)
    case Release(p) => DoRelease(w, p)
    case Return(p) => DoReturn(w, p)
    case CloseAll => w.(reg := DoClose(w.reg))
    case CancelAll => w.(reg := Coordinator.Do(w.reg, Cancel))
  }

  function Run(w: World, moves: seq<Move>): World
    decreases |moves|
  {
    if moves == [] then w else Run(Do(w, moves[0]), moves[1..])
  }

  // ------------------------------------------------------------------ the invariant

  predicate Reserved(tokens: map<nat, Token>, id: nat, p: nat, key: string, phases: set<Phase>) {
    id in tokens && tokens[id].proc == p && tokens[id].key == key && tokens[id].kind.Acquire?
    && tokens[id].phase in phases
  }

  /** A process holds exactly a prefix of its keys, in order, and waits for the next one only. */
  predicate Disciplined(proc: Proc, p: nat, tokens: map<nat, Token>) {
    && Increasing(proc.keys) && |proc.held| <= |proc.keys|
    && (forall i :: 0 <= i < |proc.held| ==>
          Reserved(tokens, proc.held[i], p, proc.keys[i],
                   if proc.releasing && i == |proc.held| - 1 then {Holding, Returning} else {Holding}))
    && (proc.pending.Some? ==>
          && !proc.releasing && |proc.held| < |proc.keys|
          && Reserved(tokens, proc.pending.value, p, proc.keys[|proc.held|], {Waiting, Permitted, Refused, Returning}))
  }

  predicate Mine(proc: Proc, id: nat) {
    proc.pending == Some(id) || id in proc.held
  }

  /** Every process is disciplined and every token is some process's reservation or pending wait. */
  predicate Orders(procs: map<nat, Proc>, tokens: map<nat, Token>) {
    && (forall p :: p in procs ==> Disciplined(procs[p], p, tokens))
    && (forall id :: id in tokens ==> tokens[id].proc in procs && Mine(procs[tokens[id].proc], id))
  }

  predicate Sane(w: World) {
    Safe(w.reg) && Orders(w.procs, w.reg.tokens)
  }

  // ------------------------------------------------------------------ every move keeps it

  /** A step of process p that touches one of its own tokens leaves the other processes alone. */
  lemma OwnStep(procs: map<nat, Proc>, tokens: map<nat, Token>, proc: Proc, tokens': map<nat, Token>, p: nat, id: nat)
    requires Orders(procs, tokens) && SameBut(tokens, tokens', id)
    requires id in tokens ==> tokens[id].proc == p
    requires id in tokens' ==> tokens'[id].proc == p && Mine(proc, id)
    requires Disciplined(proc, p, tokens')
    requires p in procs ==> forall j :: Mine(procs[p], j) && j != id ==> Mine(proc, j)
    ensures Orders(procs[p := proc], tokens')
  {
    forall q | q in procs && q != p ensures Disciplined(procs[q], q, tokens') {
      OtherProc(procs[q], q, tokens, tokens', p, id);
    }
  }

  lemma OtherProc(proc: Proc, q: nat, a: map<nat, Token>, b: map<nat, Token>, p: nat, id: nat)
    requires Disciplined(proc, q, a) && q != p && SameBut(a, b, id)
    requires id in a ==> a[id].proc == p
    ensures Disciplined(proc, q, b)
  {
  }

  /** Reservations of one process are for different keys, so they are different tokens. */
  lemma HeldDistinct(proc: Proc, p: nat, tokens: map<nat, Token>, i: nat, j: nat)
    requires Disciplined(proc, p, tokens) && i < |proc.held| && i < j < |proc.keys|
    ensures j < |proc.held| ==> proc.held[i] != proc.held[j]
    ensures j == |proc.held| && proc.pending.Some? ==> proc.held[i] != proc.pending.value
  {
    LessAsymmetric(proc.keys[i], proc.keys[j]);
  }

  lemma Added(procs: map<nat, Proc>, tokens: map<nat, Token>, p: nat, id: nat, t: Token)
    requires Orders(procs, tokens) && p in procs && id !in tokens
    requires procs[p].pending.None? && !procs[p].releasing && |procs[p].held| < |procs[p].keys|
    requires t.proc == p && t.key == procs[p].keys[|procs[p].held|] && t.kind.Acquire? && t.phase.Waiting?
    ensures Orders(procs[p := procs[p].(pending := Some(id))], tokens[id := t])
  {
    var proc := procs[p].(pending := Some(id));
    forall i | 0 <= i < |proc.held| ensures tokens[id := t][proc.held[i]] == tokens[proc.held[i]] {}
    OwnStep(procs, tokens, proc, tokens[id := t], p, id);
  }

  lemma Rephased(procs: map<nat, Proc>, tokens: map<nat, Token>, p: nat, id: nat, phase: Phase)
    requires Orders(procs, tokens) && p in procs && procs[p].pending == Some(id) && !phase.Holding?
    ensures id in tokens && Orders(procs, tokens[id := tokens[id].(phase := phase)])
  {
    var tokens' := tokens[id := tokens[id].(phase := phase)];
    forall i | 0 <= i < |procs[p].held| ensures procs[p].held[i] != id {
      HeldDistinct(procs[p], p, tokens, i, |procs[p].held|);
    }
    assert procs[p := procs[p]] == procs;
    OwnStep(procs, tokens, procs[p], tokens', p, id);
  }

  lemma Promoted(procs: map<nat, Proc>, tokens: map<nat, Token>, p: nat, id: nat)
    requires Orders(procs, tokens) && p in procs && procs[p].pending == Some(id)
    ensures id in tokens
    ensures Orders(procs[p := procs[p].(held := procs[p].held + [id], pending := None)],
                   tokens[id := tokens[id].(phase := Holding)])
  {
    var tokens' := tokens[id := tokens[id].(phase := Holding)];
    var proc := procs[p].(held := procs[p].held + [id], pending := None);
    forall i | 0 <= i < |procs[p].held| ensures procs[p].held[i] != id {
      HeldDistinct(procs[p], p, tokens, i, |procs[p].held|);
    }
    OwnStep(procs, tokens, proc, tokens', p, id);
  }

  lemma Dropped(procs: map<nat, Proc>, tokens: map<nat, Token>, p: nat, id: nat)
    requires Orders(procs, tokens) && p in procs && procs[p].pending == Some(id)
    ensures Orders(procs[p := procs[p].(pending := None, releasing := true)], tokens - {id})
  {
    forall i | 0 <= i < |procs[p].held| ensures procs[p].held[i] != id {
      HeldDistinct(procs[p], p, tokens, i, |procs[p].held|);
    }
    OwnStep(procs, tokens, procs[p].(pending := None, releasing := true), tokens - {id}, p, id);
  }

  predicate Unwinding(procs: map<nat, Proc>, p: nat, id: nat) {
    p in procs && procs[p].releasing && procs[p].pending.None? && procs[p].held != [] && Last(procs[p].held) == id
  }

  lemma Returned(procs: map<nat, Proc>, tokens: map<nat, Token>, p: nat, id: nat)
    requires Orders(procs, tokens) && Unwinding(procs, p, id)
    ensures id in tokens && Orders(procs, tokens[id := tokens[id].(phase := Returning)])
  {
    var held := procs[p].held;
    forall i | 0 <= i < |held| - 1 ensures held[i] != id { HeldDistinct(procs[p], p, tokens, i, |held| - 1); }
    assert procs[p := procs[p]] == procs;
    OwnStep(procs, tokens, procs[p], tokens[id := tokens[id].(phase := Returning)], p, id);
  }

  lemma Popped(procs: map<nat, Proc>, tokens: map<nat, Token>, p: nat, id: nat)
    requires Orders(procs, tokens) && Unwinding(procs, p, id)
    ensures Orders(procs[p := procs[p].(held := Front(procs[p].held))], tokens - {id})
  {
    var held := procs[p].held;
    forall i | 0 <= i < |held| - 1 ensures held[i] != id { HeldDistinct(procs[p], p, tokens, i, |held| - 1); }
    forall j | j in held && j != id ensures j in Front(held) {}
    OwnStep(procs, tokens, procs[p].(held := Front(held)), tokens - {id}, p, id);
  }

  /** Steps that change no token: starting, failing and beginning to release. */
  lemma Restarted(procs: map<nat, Proc>, tokens: map<nat, Token>, p: nat, proc: Proc)
    requires Orders(procs, tokens) && Disciplined(proc, p, tokens)
    requires p in procs ==> proc.held == procs[p].held && proc.pending == procs[p].pending
    requires p !in procs ==> proc.held == [] && proc.pending.None?
    ensures Orders(procs[p := proc], tokens)
  {
  }

  // ------------------------------------------------------------------ the moves

  lemma AskOrders(w: World, p: nat, id: nat, alloc: nat)
    requires Orders(w.procs, w.reg.tokens)
    ensures var w' := DoAsk(w, p, id, alloc); Orders(w'.procs, w'.reg.tokens)
  {
    var w' := DoAsk(w, p, id, alloc);
    if w' != w {
      if Admits(w.reg.shut, Acquire) {
        Added(w.procs, w.reg.tokens, p, id, w'.reg.tokens[id]);
      } else {
        Restarted(w.procs, w.reg.tokens, p, w'.procs[p]);
      }
    }
  }

  lemma WithdrawOrders(w: World, p: nat)
    requires Orders(w.procs, w.reg.tokens)
    ensures var w' := DoWithdraw(w, p); Orders(w'.procs, w'.reg.tokens)
  {
    if Pending(w, p) { Rephased(w.procs, w.reg.tokens, p, w.procs[p].pending.value, Returning); }
  }

  lemma AdvanceOrders(w: World, p: nat, done: bool)
    requires Orders(w.procs, w.reg.tokens)
    ensures var w' := DoAdvance(w, p, done); Orders(w'.procs, w'.reg.tokens)
  {
    if Pending(w, p) {
      var id := w.procs[p].pending.value;
      match w.reg.tokens[id].phase
      case Waiting => Rephased(w.procs, w.reg.tokens, p, id, Permitted);
      case Permitted =>
        if StillValid(w.reg.shut, w.reg.tokens[id].kind, done) {
          Promoted(w.procs, w.reg.tokens, p, id);
        } else {
          Rephased(w.procs, w.reg.tokens, p, id, Refused);
        }
      case Refused => Rephased(w.procs, w.reg.tokens, p, id, Returning);
      case Returning => Dropped(w.procs, w.reg.tokens, p, id);
      case Holding =>
    }
  }

  lemma ReturnOrders(w: World, p: nat)
    requires Orders(w.procs, w.reg.tokens)
    ensures var w' := DoReturn(w, p); Orders(w'.procs, w'.reg.tokens)
  {
    if DoReturn(w, p) != w {
      var proc := w.procs[p];
      var id := Last(proc.held);
      if w.reg.tokens[id].phase.Holding? {
        Returned(w.procs, w.reg.tokens, p, id);
      } else {
        assert Reserved(w.reg.tokens, proc.held[|proc.held| - 1], p, proc.keys[|proc.held| - 1], {Holding, Returning});
        Popped(w.procs, w.reg.tokens, p, id);
      }
    }
  }

  lemma MoveOrders(w: World, m: Move)
    requires Orders(w.procs, w.reg.tokens)
    ensures var w' := Do(w, m); Orders(w'.procs, w'.reg.tokens)
  {
    match m
    case Ask(p, id, alloc) => AskOrders(w, p, id, alloc);
    case Advance(p, done) => AdvanceOrders(w, p, done);
    case Withdraw(p) => WithdrawOrders(w, p);
    case Return(p) => ReturnOrders(w, p);
    case CloseAll =>
    case CancelAll =>
    case _ =>
      if Do(w, m) != w { Restarted(w.procs, w.reg.tokens, m.p, Do(w, m).procs[m.p]); }
  }

  /** Every move is at most one step of the registry. */
  lemma MoveIsStep(w: World, m: Move)
    ensures Do(w, m).reg == w.reg || exists a :: Do(w, m).reg == Coordinator.Do(w.reg, a)
  {
    var reg := Do(w, m).reg;
    if reg != w.reg {
      match m
      case Ask(p, id, alloc) =>
        assert reg == Coordinator.Do(w.reg, Reference(id, p, w.procs[p].keys[|w.procs[p].held|], Acquire, alloc));
      case Advance(p, done) =>
        var id := w.procs[p].pending.value;
        assert reg == Coordinator.Do(w.reg, match w.reg.tokens[id].phase
                                            case Waiting => Take(id)
                                            case Permitted => Validate(id, done)
                                            case Refused => PutBack(id)
                                            case _ => Unreference(id));
      case Withdraw(p) => assert reg == Coordinator.Do(w.reg, Abandon(w.procs[p].pending.value));
      case Return(p) =>
        var id := Last(w.procs[p].held);
        assert reg == Coordinator.Do(w.reg, if w.reg.tokens[id].phase.Holding? then PutBack(id) else Unreference(id));
      case CloseAll => assert reg == Coordinator.Do(w.reg, Close);
      case CancelAll => assert reg == Coordinator.Do(w.reg, Cancel);
      case _ =>
    }
  }

  lemma MoveSane(w: World, m: Move)
    requires Sane(w)
    ensures Sane(Do(w, m))
  {
    MoveOrders(w, m);
    MoveIsStep(w, m);
    if Do(w, m).reg != w.reg {
      var a :| Do(w, m).reg == Coordinator.Do(w.reg, a);
      StepSafe(w.reg, a);
    }
  }

  lemma {:induction false} RunSane(w: World, moves: seq<Move>)
    requires Sane(w)
    ensures Sane(Run(w, moves))
    decreases |moves|
  {
    if moves != [] {
      MoveSane(w, moves[0]);
      RunSane(Do(w, moves[0]), moves[1..]);
    }
  }

  // ------------------------------------------------------------------ no circular wait

  /** The process is in the select of acquire and the permit it needs is not in its channel. */
  predicate Blocked(w: World, p: nat) {
    Pending(w, p) && var t := w.reg.tokens[w.procs[p].pending.value];
    t.phase.Waiting? && !w.reg.objects[t.entry].permit
  }

  function Wanted(w: World, p: nat): string
    requires Pending(w, p)
  {
    w.reg.tokens[w.procs[p].pending.value].key
  }

  predicate OwnsKey(w: World, q: nat, key: string) {
    exists id :: id in w.reg.tokens && w.reg.tokens[id].proc == q && w.reg.tokens[id].key == key
        && w.reg.tokens[id].Owns()
  }

  predicate WaitsFor(w: World, p: nat, q: nat) {
    Blocked(w, p) && OwnsKey(w, q, Wanted(w, p))
  }

  /** Along a wait-for edge into a blocked process the wanted keys strictly increase. */
  lemma WantedIncreases(w: World, p: nat, q: nat)
    requires Orders(w.procs, w.reg.tokens) && WaitsFor(w, p, q) && Blocked(w, q)
    ensures Less(Wanted(w, p), Wanted(w, q))
  {
    var id :| id in w.reg.tokens && w.reg.tokens[id].proc == q
              && w.reg.tokens[id].key == Wanted(w, p) && w.reg.tokens[id].Owns();
    var proc := w.procs[q];
    assert Disciplined(proc, q, w.reg.tokens) && Mine(proc, id);
    assert id in proc.held;
    var i :| 0 <= i < |proc.held| && proc.held[i] == id;
    assert Reserved(w.reg.tokens, proc.held[i], q, proc.keys[i], {Holding});
    assert Less(proc.keys[i], proc.keys[|proc.held|]);
  }

  /** Somebody has the permit a blocked process needs. */
  lemma BlockedByOwner(w: World, p: nat) returns (q: nat)
    requires Sane(w) && Blocked(w, p)
    ensures q in w.procs && WaitsFor(w, p, q)
  {
    var key := Wanted(w, p);
    assert Exact(w.reg.objects[w.reg.entries[key]], w.reg.tokens, key);
    assert Owners(w.reg.tokens, key) != {};
    var id :| id in Owners(w.reg.tokens, key);
    q := w.reg.tokens[id].proc;
    assert OwnsKey(w, q, key);
  }

  predicate Chain(w: World, c: seq<nat>) {
    && c != []
    && (forall i :: 0 <= i < |c| ==> Blocked(w, c[i]))
    && (forall i :: 0 <= i < |c| - 1 ==> WaitsFor(w, c[i], c[i + 1]))
  }

  lemma {:induction false} ClimbingKeys(keys: seq<string>)
    requires |keys| > 1 && forall i :: 0 <= i < |keys| - 1 ==> Less(keys[i], keys[i + 1])
    ensures Less(keys[0], keys[|keys| - 1])
    decreases |keys|
  {
    var n := |keys| - 1;
    assert Less(keys[n - 1], keys[n]);
    if n > 1 {
      ClimbingKeys(keys[..n]);
      LessTransitive(keys[0], keys[n - 1], keys[n]);
    }
  }

  /** In no reachable state does a cycle of processes wait for each other. */
  lemma NoCircularWait(w: World, c: seq<nat>)
    requires Orders(w.procs, w.reg.tokens) && Chain(w, c)
    ensures !WaitsFor(w, c[|c| - 1], c[0])
  {
    if WaitsFor(w, c[|c| - 1], c[0]) {
      WantedIncreases(w, c[|c| - 1], c[0]);
      LessIrreflexive(Wanted(w, c[0]));
      var keys := seq(|c|, i requires 0 <= i < |c| => assert Blocked(w, c[i]); Wanted(w, c[i]));
      forall i | 0 <= i < |c| - 1 ensures Less(keys[i], keys[i + 1]) { WantedIncreases(w, c[i], c[i + 1]); }
      ClimbingKeys(keys);
      LessAsymmetric(keys[0], keys[|c| - 1]);
    }
  }

  function Above(w: World, p: nat): set<nat>
    requires Pending(w, p)
  {
    set x | x in w.procs && Blocked(w, x) && Less(Wanted(w, p), Wanted(w, x))
  }

  lemma AboveShrinks(w: World, p: nat, o: nat)
    requires Blocked(w, p) && Blocked(w, o) && Less(Wanted(w, p), Wanted(w, o))
    ensures |Above(w, o)| < |Above(w, p)|
  {
    forall x | x in Above(w, o) ensures x in Above(w, p) {
      LessTransitive(Wanted(w, p), Wanted(w, o), Wanted(w, x));
    }
    LessIrreflexive(Wanted(w, o));
    assert o in Above(w, p) && o !in Above(w, o);
    SmallerSet(Above(w, o), Above(w, p));
  }

  lemma SmallerSet(a: set<nat>, b: set<nat>)
    requires a < b
    ensures |a| < |b|
  {
    assert |b| == |b - a| + |a|;
  }

  /** Whenever someone is blocked, some process owns a key and is not blocked itself. */
  lemma {:induction false} SomeOwnerCanMove(w: World, p: nat) returns (q: nat, key: string)
    requires Sane(w) && Blocked(w, p)
    ensures q in w.procs && OwnsKey(w, q, key) && !Blocked(w, q)
    decreases |Above(w, p)|
  {
    var o := BlockedByOwner(w, p);
    if !Blocked(w, o) { return o, Wanted(w, p); }
    WantedIncreases(w, p, o);
    AboveShrinks(w, p, o);
    q, key := SomeOwnerCanMove(w, o);
  }

  function Idle(): World {
    World(Empty(), map[])
  }

  lemma RunsAreSane(moves: seq<Move>)
    ensures Sane(Run(Idle(), moves))
  {
    EmptySafe();
    RunSane(Idle(), moves);
  }

  /** Over whole runs: a blocked process always has a runnable owner somewhere ahead of it. */
  lemma NeverStuck(moves: seq<Move>, p: nat)
    requires Blocked(Run(Idle(), moves), p)
    ensures exists q, key :: q in Run(Idle(), moves).procs && OwnsKey(Run(Idle(), moves), q, key)
                             && !Blocked(Run(Idle(), moves), q)
  {
    RunsAreSane(moves);
    var q, key := SomeOwnerCanMove(Run(Idle(), moves), p);
  }

  /** A process that has unwound, after a failure or a release, has no token left in the registry. */
  lemma UnwoundHoldsNothing(moves: seq<Move>, p: nat, id: nat)
    requires var w := Run(Idle(), moves);
             && p in w.procs && w.procs[p].pending.None? && w.procs[p].held == []
             && id in w.reg.tokens
    ensures Run(Idle(), moves).reg.tokens[id].proc != p
  {
    RunsAreSane(moves);
  }
}
