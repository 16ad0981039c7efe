/**
 * The keyed command coordinator: a registry of reference-counted locks with cancellation,
 * shutdown and a single drain capability.
 *
 * A token is one call of acquire, tryAcquire or drain acquire, from its reference to its
 * unreference. Every critical section of the registry mutex and every operation on a permit
 * channel is one step, so a run is any interleaving of any number of callers. Contexts are
 * nondeterministic: a step says whether the caller's context was found done.
 */
module Coordinator {

  datatype Kind = Acquire | TryAcquire | Drain

  /** Refused: took the permit, then found a cancellation. Returning: only the unreference is left. */
  datatype Phase = Waiting | Permitted | Refused | Holding | Returning

  datatype Token = Token(proc: nat, key: string, entry: nat, kind: Kind, phase: Phase) {
    predicate Owns() { phase.Permitted? || phase.Refused? || phase.Holding? }
  }

  /**
   * The permit channel has capacity one: `permit` says whether it holds its element. `key` is the one it was
   * made for.
   */
  datatype Entry = Entry(key: string, permit: bool, refs: int)

  /** `closings` counts executions of close(drained), which would panic if repeated. */
  datatype Shutdown = Shutdown(closed: bool, cancelled: bool, drainClosed: bool, closings: nat,
                               drainOwner: bool, drainCancelled: bool, drainFinished: bool)

  datatype Registry = Registry(entries: map<string, nat>, objects: map<nat, Entry>, refs: int,
                               shut: Shutdown, tokens: map<nat, Token>)

  function Empty(): Registry {
    Registry(map[], map[], 0, Shutdown(false, false, false, 0, false, false, false), map[])
  }

  datatype Step =
    | Reference(id: nat, proc: nat, key: string, kind: Kind, alloc: nat)
    | Take(id: nat)
    | Abandon(id: nat)
    | Validate(id: nat, done: bool)
    | PutBack(id: nat)
    | Unreference(id: nat)
    | Close
    | Cancel
    | BeginDrain
    | CancelDrain
    | Finish

  // ------------------------------------------------------------------ operations

  predicate Admits(s: Shutdown, kind: Kind) {
    if kind.Drain? then s.drainOwner && !s.drainFinished && !s.drainCancelled
    else !s.closed && !s.cancelled
  }

  /** The entry a reference to `key` would count: the registered one, or a new one with its permit in the channel. */
  function Lookup(r: Registry, key: string, alloc: nat): (nat, Entry) {
    if key in r.entries && r.entries[key] in r.objects then (r.entries[key], r.objects[r.entries[key]])
    else (alloc, Entry(key, true, 0))
  }

  /** The registry half of acquire: find or create the entry and count the caller on it. */
  function DoReference(r: Registry, id: nat, proc: nat, key: string, kind: Kind, alloc: nat): Registry {
    if id in r.tokens || alloc in r.objects || !Admits(r.shut, kind) then r
    else
      var (e, was) := Lookup(r, key, alloc);
      Registry(r.entries[key := e], r.objects[e := was.(refs := was.refs + 1)], r.refs + 1, r.shut,
               r.tokens[id := Token(proc, key, e, kind, Waiting)])
  }

  predicate Live(r: Registry, id: nat) {
    id in r.tokens && r.tokens[id].entry in r.objects
  }

  function SetPhase(r: Registry, id: nat, phase: Phase): Registry
    requires id in r.tokens
  {
    r.(tokens := r.tokens[id := r.tokens[id].(phase := phase)])
  }

  function SetPermit(r: Registry, e: nat, permit: bool): Registry
    requires e in r.objects
  {
    r.(objects := r.objects[e := r.objects[e].(permit := permit)])
  }

  function DoTake(r: Registry, id: nat): Registry {
    if Live(r, id) && r.tokens[id].phase.Waiting? && r.objects[r.tokens[id].entry].permit
    then SetPhase(SetPermit(r, r.tokens[id].entry, false), id, Permitted) else r
  }

  /** A waiter leaves: some context is done, or (tryAcquire) the permit is not available. */
  function DoAbandon(r: Registry, id: nat): Registry {
    if Live(r, id) && r.tokens[id].phase.Waiting?
       && (r.tokens[id].kind.TryAcquire? ==> !r.objects[r.tokens[id].entry].permit)
    then SetPhase(r, id, Returning) else r
  }

  /** The checks after the permit was taken. `done`: the caller's own context is done. */
  predicate StillValid(s: Shutdown, kind: Kind, done: bool) {
    match kind
    case Acquire => !done && !s.cancelled
    case TryAcquire => !s.cancelled
    case Drain => !done && !s.drainFinished && s.drainOwner && !s.drainCancelled
  }

  function DoValidate(r: Registry, id: nat, done: bool): Registry {
    if Live(r, id) && r.tokens[id].phase.Permitted?
    then SetPhase(r, id, if StillValid(r.shut, r.tokens[id].kind, done) then Holding else Refused)
    else r
  }

  /** A refused caller, or the first release of a reservation, sends the permit back. */
  function DoPutBack(r: Registry, id: nat): Registry {
    if Live(r, id) && (r.tokens[id].phase.Refused? || r.tokens[id].phase.Holding?)
    then SetPhase(SetPermit(r, r.tokens[id].entry, true), id, Returning) else r
  }

  function Drained(s: Shutdown, refs: int): Shutdown {
    if s.closed && refs == 0 && !s.drainClosed
    then s.(drainClosed := true, closings := s.closings + 1) else s
  }

  /** Deletes whatever the registry maps the key to once the entry's count reaches zero. */
  function DoUnreference(r: Registry, id: nat): Registry {
    if Live(r, id) && r.tokens[id].phase.Returning? then
      var t := r.tokens[id];
      var left := r.objects[t.entry].refs - 1;
      Registry(if left == 0 then r.entries - {t.key} else r.entries,
               r.objects[t.entry := r.objects[t.entry].(refs := left)],
               r.refs - 1, Drained(r.shut, r.refs - 1), r.tokens - {id})
    else r
  }

  function DoClose(r: Registry): Registry {
    if r.shut.closed then r
    else r.(shut := Drained(r.shut.(closed := true, cancelled := true), r.refs))
  }

  /** beginDrain past its close: only after the drained channel closed, and only once. */
  function DoBeginDrain(r: Registry): Registry {
    if r.shut.drainClosed && !r.shut.drainOwner then r.(shut := r.shut.(drainOwner := true)) else r
  }

  function DoFinish(r: Registry): Registry {
    if r.shut.drainOwner && r.refs == 0 then r.(shut := r.shut.(drainFinished := true)) else r
  }

  function Do(r: Registry, a: Step): Registry {
    match a
    case Reference(id, proc, key, kind, alloc) => DoReference(r, id, proc, key, kind, alloc)
    case Take(id) => DoTake(r, id)
    case Abandon(id) => DoAbandon(r, id)
    case Validate(id, done) => DoValidate(r, id, done)
    case PutBack(id) => DoPutBack(r, id)
    case Unreference(id) => DoUnreference(r, id)
    case Close => DoClose(r)
    case Cancel => r.(shut := r.shut.(cancelled := true))
    case BeginDrain => DoBeginDrain(r)
    case CancelDrain => r.(shut := r.shut.(drainCancelled := true))
    case Finish => DoFinish(r)
  }

  function Run(r: Registry, steps: seq<Step>): Registry
    decreases |steps|
  {
    if steps == [] then r else Run(Do(r, steps[0]), steps[1..])
  }

  // ------------------------------------------------------------------ invariants

  function Callers(tokens: map<nat, Token>, key: string): set<nat> {
    set id | id in tokens && tokens[id].key == key
  }

  function Owners(tokens: map<nat, Token>, key: string): set<nat> {
    set id | id in tokens && tokens[id].key == key && tokens[id].Owns()
  }

  /** An entry counts its callers exactly, and its permit is in the channel or has one owner. */
  predicate Exact(e: Entry, tokens: map<nat, Token>, key: string) {
    && e.key == key
    && e.refs == |Callers(tokens, key)| > 0
    && |Owners(tokens, key)| == (if e.permit then 0 else 1)
  }

  /** Every live token points at the entry the registry currently holds for its key, and entries are exact. */
  predicate Linked(entries: map<string, nat>, objects: map<nat, Entry>, tokens: map<nat, Token>) {
    && (forall id :: id in tokens ==>
          tokens[id].key in entries && entries[tokens[id].key] == tokens[id].entry)
    && (forall k :: k in entries ==> entries[k] in objects && Exact(objects[entries[k]], tokens, k))
  }

  predicate Orderly(s: Shutdown, refs: int, tokens: map<nat, Token>) {
    && (s.closed ==> s.cancelled)
    && (s.drainClosed ==> s.closed)
    && (s.closed && refs == 0 ==> s.drainClosed)
    && s.closings == (if s.drainClosed then 1 else 0)
    && (s.drainOwner ==> s.drainClosed)
    && (s.drainFinished ==> s.drainOwner && refs == 0)
    && (forall id :: id in tokens ==> if tokens[id].kind.Drain? then s.drainOwner else !s.drainClosed)
  }

  predicate Safe(r: Registry) {
    Linked(r.entries, r.objects, r.tokens) && r.refs == |r.tokens| && Orderly(r.shut, r.refs, r.tokens)
  }

  // ------------------------------------------------------------------ every step keeps them

  /** Two tables agree everywhere but at x. */
  predicate SameBut<K, V(==)>(a: map<K, V>, b: map<K, V>, x: K) {
    forall i | i in a.Keys + b.Keys && i != x :: i in a && i in b && a[i] == b[i]
  }

  /** Token tables that differ at most in one token of one key agree on every other key. */
  lemma OtherKeys(e: Entry, a: map<nat, Token>, b: map<nat, Token>, id: nat, key: string, k: string)
    requires SameBut(a, b, id) && k != key
    requires (id in a ==> a[id].key == key) && (id in b ==> b[id].key == key)
    ensures Exact(e, a, k) <==> Exact(e, b, k)
  {
    assert Callers(a, k) == Callers(b, k) && Owners(a, k) == Owners(b, k);
  }

  lemma ExactAdd(e: Entry, a: map<nat, Token>, id: nat, t: Token)
    requires id !in a && !t.Owns()
    requires Exact(e, a, t.key) || (Callers(a, t.key) == {} && e == Entry(t.key, true, 0))
    ensures Exact(e.(refs := e.refs + 1), a[id := t], t.key)
  {
    assert Callers(a[id := t], t.key) == Callers(a, t.key) + {id};
    assert id !in Callers(a, t.key);
    assert Owners(a[id := t], t.key) == Owners(a, t.key) <= Callers(a, t.key);
  }

  lemma ExactDrop(e: Entry, a: map<nat, Token>, id: nat)
    requires id in a && !a[id].Owns() && Exact(e, a, a[id].key)
    ensures |Callers(a - {id}, a[id].key)| == e.refs - 1
    ensures e.refs > 1 ==> Exact(e.(refs := e.refs - 1), a - {id}, a[id].key)
  {
    assert Callers(a, a[id].key) == Callers(a - {id}, a[id].key) + {id};
    assert Owners(a - {id}, a[id].key) == Owners(a, a[id].key);
  }

  /** Ownership moves together with the element of the channel. */
  lemma ExactMove(e: Entry, a: map<nat, Token>, id: nat, phase: Phase, permit: bool)
    requires id in a && Exact(e, a, a[id].key)
    requires Moves(e, a[id], phase, permit)
    ensures Exact(e.(permit := permit), a[id := a[id].(phase := phase)], a[id].key)
  {
    var b := a[id := a[id].(phase := phase)];
    assert Callers(b, a[id].key) == Callers(a, a[id].key);
    assert Owners(b, a[id].key) == if b[id].Owns() then Owners(a, a[id].key) + {id}
                                   else Owners(a, a[id].key) - {id};
  }

  predicate Moves(e: Entry, t: Token, phase: Phase, permit: bool) {
    var was, now := t.Owns(), t.(phase := phase).Owns();
    if was == now then permit == e.permit else was == permit && (now ==> e.permit)
  }

  /** Changing one key's entry, one object and one of its tokens keeps every other key linked. */
  lemma Relink(r: Registry, r': Registry, id: nat, key: string, e: nat)
    requires Linked(r.entries, r.objects, r.tokens)
    requires SameBut(r.tokens, r'.tokens, id) && SameBut(r.entries, r'.entries, key)
    requires SameBut(r.objects, r'.objects, e) && (e in r.objects ==> r.objects[e].key == key)
    requires id in r.tokens ==> r.tokens[id].key == key
    requires id in r'.tokens ==> r'.tokens[id].key == key && r'.tokens[id].entry == e
    requires key in r.entries ==> r.entries[key] == e
    requires if key in r'.entries then r'.entries[key] == e && e in r'.objects && Exact(r'.objects[e], r'.tokens, key)
             else Callers(r'.tokens, key) == {}
    ensures Linked(r'.entries, r'.objects, r'.tokens)
  {
    forall i | i in r'.tokens
      ensures r'.tokens[i].key in r'.entries && r'.entries[r'.tokens[i].key] == r'.tokens[i].entry
    {
      var k := r'.tokens[i].key;
      if k == key { assert i in Callers(r'.tokens, key); }
    }
    forall k | k in r'.entries ensures r'.entries[k] in r'.objects && Exact(r'.objects[r'.entries[k]], r'.tokens, k) {
      if k != key {
        OtherKeys(r.objects[r.entries[k]], r.tokens, r'.tokens, id, key, k);
      }
    }
  }

  /** Adding or changing one token of an admitted kind keeps the shutdown order. */
  lemma OrderlyPut(s: Shutdown, tokens: map<nat, Token>, id: nat, t: Token)
    requires Orderly(s, |tokens|, tokens)
    requires if id in tokens then t.kind == tokens[id].kind else Admits(s, t.kind)
    ensures |tokens[id := t]| == if id in tokens then |tokens| else |tokens| + 1
    ensures Orderly(s, |tokens[id := t]|, tokens[id := t])
  {
    assert tokens[id := t].Keys == tokens.Keys + {id};
  }

  lemma ReferenceLinked(r: Registry, r': Registry, id: nat, t: Token, was: Entry)
    requires Linked(r.entries, r.objects, r.tokens) && id !in r.tokens && !t.Owns()
    requires if t.key in r.entries then t.entry == r.entries[t.key] && was == r.objects[t.entry]
             else t.entry !in r.objects && was == Entry(t.key, true, 0)
    requires r'.tokens == r.tokens[id := t] && r'.entries == r.entries[t.key := t.entry]
    requires r'.objects == r.objects[t.entry := was.(refs := was.refs + 1)]
    ensures Linked(r'.entries, r'.objects, r'.tokens)
  {
    ExactAdd(was, r.tokens, id, t);
    Relink(r, r', id, t.key, t.entry);
  }

  lemma ReferenceSafe(r: Registry, id: nat, proc: nat, key: string, kind: Kind, alloc: nat)
    requires Safe(r)
    ensures Safe(DoReference(r, id, proc, key, kind, alloc))
  {
    if id !in r.tokens && alloc !in r.objects && Admits(r.shut, kind) {
      var r' := DoReference(r, id, proc, key, kind, alloc);
      ReferenceLinked(r, r', id, r'.tokens[id], Lookup(r, key, alloc).1);
      OrderlyPut(r.shut, r.tokens, id, r'.tokens[id]);
    }
  }

  predicate Leaving(r: Registry, id: nat) {
    Live(r, id) && r.tokens[id].phase.Returning?
  }

  lemma UnreferenceSafe(r: Registry, id: nat)
    requires Safe(r)
    ensures Safe(DoUnreference(r, id))
  {
    if Leaving(r, id) {
      var r' := DoUnreference(r, id);
      var t := r.tokens[id];
      ExactDrop(r.objects[t.entry], r.tokens, id);
      Relink(r, r', id, t.key, t.entry);
      assert r'.tokens.Keys == r.tokens.Keys - {id};
    }
  }

  lemma TransferLinked(r: Registry, r': Registry, id: nat, t: Token, e: Entry)
    requires Linked(r.entries, r.objects, r.tokens) && id in r.tokens
    requires t == r.tokens[id].(phase := t.phase) && e == r.objects[t.entry].(permit := e.permit)
    requires Moves(r.objects[t.entry], r.tokens[id], t.phase, e.permit)
    requires r'.entries == r.entries && r'.tokens == r.tokens[id := t] && r'.objects == r.objects[t.entry := e]
    ensures Linked(r'.entries, r'.objects, r'.tokens)
  {
    ExactMove(r.objects[t.entry], r.tokens, id, t.phase, e.permit);
    Relink(r, r', id, t.key, t.entry);
  }

  /** Phase changes, with the permit moving between the channel and the token as ownership does. */
  lemma TransferSafe(r: Registry, id: nat, phase: Phase, permit: bool)
    requires Safe(r) && id in r.tokens
    requires Moves(r.objects[r.tokens[id].entry], r.tokens[id], phase, permit)
    ensures Safe(SetPhase(SetPermit(r, r.tokens[id].entry, permit), id, phase))
  {
    var r' := SetPhase(SetPermit(r, r.tokens[id].entry, permit), id, phase);
    TransferLinked(r, r', id, r'.tokens[id], r'.objects[r.tokens[id].entry]);
    OrderlyPut(r.shut, r.tokens, id, r'.tokens[id]);
  }

  /** The owner of a key found its permit channel empty, so sending the permit back cannot block. */
  lemma OwnerEmptiesChannel(r: Registry, id: nat)
    requires Safe(r) && id in r.tokens && r.tokens[id].Owns()
    ensures !r.objects[r.tokens[id].entry].permit
  {
    assert Exact(r.objects[r.tokens[id].entry], r.tokens, r.tokens[id].key);
    assert id in Owners(r.tokens, r.tokens[id].key);
  }

  lemma SamePermit(r: Registry, e: nat)
    requires e in r.objects
    ensures SetPermit(r, e, r.objects[e].permit) == r
  {
    assert r.objects[e := r.objects[e]] == r.objects;
  }

  /** A phase change that keeps ownership. */
  lemma RephaseSafe(r: Registry, id: nat, phase: Phase)
    requires Safe(r) && Live(r, id) && r.tokens[id].Owns() == r.tokens[id].(phase := phase).Owns()
    ensures Safe(SetPhase(r, id, phase))
  {
    SamePermit(r, r.tokens[id].entry);
    TransferSafe(r, id, phase, r.objects[r.tokens[id].entry].permit);
  }

  lemma TokenStepSafe(r: Registry, a: Step)
    requires Safe(r) && (a.Take? || a.Abandon? || a.Validate? || a.PutBack?)
    ensures Safe(Do(r, a))
  {
    if Live(r, a.id) && Do(r, a) != r {
      match a
      case Take(id) => TransferSafe(r, id, Permitted, false);
      case Abandon(id) => RephaseSafe(r, id, Returning);
      case Validate(id, done) =>
        RephaseSafe(r, id, if StillValid(r.shut, r.tokens[id].kind, done) then Holding else Refused);
      case PutBack(id) =>
        OwnerEmptiesChannel(r, id);
        TransferSafe(r, id, Returning, true);
      case _ =>
    }
  }

  lemma StepSafe(r: Registry, a: Step)
    requires Safe(r)
    ensures Safe(Do(r, a))
  {
    match a
    case Reference(id, proc, key, kind, alloc) => ReferenceSafe(r, id, proc, key, kind, alloc);
    case Unreference(id) => UnreferenceSafe(r, id);
    case Take(_) => TokenStepSafe(r, a);
    case Abandon(_) => TokenStepSafe(r, a);
    case Validate(_, _) => TokenStepSafe(r, a);
    case PutBack(_) => TokenStepSafe(r, a);
    case _ =>
      var r' := Do(r, a);
  }

  lemma {:induction false} RunSafe(r: Registry, steps: seq<Step>)
    requires Safe(r)
    ensures Safe(Run(r, steps))
    decreases |steps|
  {
    if steps != [] {
      StepSafe(r, steps[0]);
      RunSafe(Do(r, steps[0]), steps[1..]);
    }
  }

  // ------------------------------------------------------------------ what every run guarantees

  lemma EmptySafe()
    ensures Safe(Empty())
  {
  }

  lemma AtMostOne(s: set<nat>, i: nat, j: nat)
    requires |s| <= 1 && i in s && j in s
    ensures i == j
  {
    assert |s - {i}| == 0;
    assert j !in s - {i};
  }

  /** Mutual exclusion over every run, entry deletion and recreation included. */
  lemma OneHolderPerKey(steps: seq<Step>, i: nat, j: nat)
    requires var r := Run(Empty(), steps);
             && i in r.tokens && j in r.tokens && r.tokens[i].key == r.tokens[j].key
             && r.tokens[i].Owns() && r.tokens[j].Owns()
    ensures i == j
  {
    RunSafe(Empty(), steps);
    var r := Run(Empty(), steps);
    var key := r.tokens[i].key;
    assert Exact(r.objects[r.entries[key]], r.tokens, key);
    AtMostOne(Owners(r.tokens, key), i, j);
  }

  /** Reference counts equal the live callers, per entry and in total, and no entry outlives its callers. */
  lemma CountsAreExact(steps: seq<Step>, key: string)
    ensures var r := Run(Empty(), steps);
            && r.refs == |r.tokens|
            && (key in r.entries <==> Callers(r.tokens, key) != {})
            && (key in r.entries ==>
                  r.entries[key] in r.objects && r.objects[r.entries[key]].refs == |Callers(r.tokens, key)|)
  {
    RunSafe(Empty(), steps);
    var r := Run(Empty(), steps);
    if key in r.entries { assert Exact(r.objects[r.entries[key]], r.tokens, key); }
    if Callers(r.tokens, key) != {} { var id :| id in Callers(r.tokens, key); }
  }

  /** The drained channel is closed at most once, and only with admission closed and nobody of the normal kind left. */
  lemma DrainedOnce(steps: seq<Step>, i: nat, j: nat)
    ensures var r := Run(Empty(), steps);
            && r.shut.closings == (if r.shut.drainClosed then 1 else 0)
            && (r.shut.drainClosed ==> r.shut.closed) && (r.shut.closed && r.refs == 0 ==> r.shut.drainClosed)
            && (i in r.tokens && j in r.tokens ==> r.tokens[i].kind.Drain? == r.tokens[j].kind.Drain?)
            && (r.shut.drainClosed && i in r.tokens ==> r.tokens[i].kind.Drain?)
  {
    RunSafe(Empty(), steps);
  }

  /** finish destroys admission for good: no later run ever has a caller again. */
  lemma {:induction false} FinishIsFinal(r: Registry, steps: seq<Step>)
    requires Safe(r) && r.shut.drainFinished
    ensures Run(r, steps).shut.drainFinished && Run(r, steps).tokens == map[]
    decreases |steps|
  {
    if steps != [] {
      var r' := Do(r, steps[0]);
      StepSafe(r, steps[0]);
      assert r.tokens == map[] && r.shut.closed && r.shut.cancelled;
      assert r'.shut.drainFinished;
      FinishIsFinal(r', steps[1..]);
    }
  }

  // ------------------------------------------------------------------ the object

  /**
   * The coordinator object. `tokens` is the ghost ledger of live callers the proofs count. Each
   * method is one step of the registry, so StepSafe keeps Valid over any sequence of calls.
   */
  class ApplicationCoordinator {
    var entries: map<string, nat>
    var objects: map<nat, Entry>
    var refs: int
    var shut: Shutdown
    ghost var tokens: map<nat, Token>

    ghost function View(): Registry
      reads this
    {
      Registry(entries, objects, refs, shut, tokens)
    }

    ghost predicate Valid()
      reads this
    {
      Safe(View())
    }

    constructor ()
      ensures Valid() && View() == Empty()
    {
      entries, objects, refs, tokens := map[], map[], 0, map[];
      shut := Shutdown(false, false, false, 0, false, false, false);
    }

    /** reference, and the registry section of the drain's acquire. */
    method Reference(ghost id: nat, ghost proc: nat, key: string, kind: Kind, alloc: nat) returns (found: bool, e: nat)
      requires id !in tokens && alloc !in objects && (key in entries ==> entries[key] in objects)
      modifies this
      ensures View() == Do(old(View()), Step.Reference(id, proc, key, kind, alloc))
      ensures found == Admits(shut, kind) && (found ==> id in tokens && tokens[id].entry == e && tokens[id].key == key)
    {
      if !Admits(shut, kind) { return false, alloc; }
      var was: Entry;
      if key in entries {
        e := entries[key];
        was := objects[e];
        assert entries == entries[key := e];
      } else {
        e, was := alloc, Entry(key, true, 0);
        entries := entries[key := e];
      }
      objects := objects[e := was.(refs := was.refs + 1)];
      refs := refs + 1;
      tokens := tokens[id := Token(proc, key, e, kind, Waiting)];
      found := true;
    }

    method Unreference(ghost id: nat, key: string, e: nat)
      requires Leaving(View(), id) && tokens[id].key == key && tokens[id].entry == e
      modifies this
      ensures View() == Do(old(View()), Step.Unreference(id))
    {
      objects := objects[e := objects[e].(refs := objects[e].refs - 1)];
      refs := refs - 1;
      if objects[e].refs == 0 { entries := entries - {key}; }
      if shut.closed && refs == 0 && !shut.drainClosed {
        shut := shut.(drainClosed := true, closings := shut.closings + 1);
      }
      tokens := tokens - {id};
    }

    /** The critical section of close, before it waits for the drained channel. */
    method Close()
      modifies this
      ensures View() == Do(old(View()), Step.Close) && shut.closed
    {
      if !shut.closed {
        shut := shut.(closed := true, cancelled := true);
        if refs == 0 && !shut.drainClosed {
          shut := shut.(drainClosed := true, closings := shut.closings + 1);
        }
      }
    }

    method Finish() returns (ok: bool)
      requires shut.drainOwner
      modifies this
      ensures View() == Do(old(View()), Step.Finish)
      ensures ok == (old(refs) == 0) && (ok ==> shut.drainFinished)
    {
      if refs != 0 { return false; }
      shut := shut.(drainFinished := true);
      ok := true;
    }
  }
}
