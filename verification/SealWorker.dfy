/**
 * The checkpoint seal worker: a bounded, coalescing queue of owners served by one goroutine.
 * MarkDirty and Shutdown may run between any two critical sections of the worker.
 */
module SealWorker {
  import opened Wrappers

  const MAX_PENDING_OWNERS := 64
  const MAX_IDENTITY_LENGTH := 256

  /** The mutex-protected fields, and the owner whose seal callback is running. */
  datatype State = State(owners: map<string, bool>, queue: seq<string>, closing: bool, executing: Option<string>)

  /** The batch loop: its bound and index, what it started sealing, and what failed or was marked again. */
  datatype Batch = Idle | Running(drain: bool, start: seq<string>, index: nat, again: seq<string>) | Stopped

  datatype Worker = Worker(st: State, batch: Batch)

  datatype Step =
    | Mark(owner: string)
    | Shutdown
    | StartBatch(drain: bool)
    | Pop(cancelled: bool)
    | Settle(failed: bool)
    | EndBatch

  // ------------------------------------------------------------------ critical sections

  predicate Acceptable(owner: string) {
    0 < |owner| <= MAX_IDENTITY_LENGTH
  }

  predicate Accepts(s: State, owner: string) {
    !s.closing && Acceptable(owner) && (owner in s.owners || |s.owners| < MAX_PENDING_OWNERS)
  }

  function DoMark(s: State, owner: string): State {
    if !Accepts(s, owner) then s
    else s.(owners := s.owners[owner := true],
            queue := if owner in s.owners then s.queue else s.queue + [owner])
  }

  function DoPop(s: State): State
    requires s.queue != []
  {
    s.(queue := s.queue[1..], owners := s.owners[s.queue[0] := false], executing := Some(s.queue[0]))
  }

  predicate Requeues(s: State, failed: bool)
    requires s.executing.Some?
  {
    failed || (s.executing.value in s.owners && s.owners[s.executing.value])
  }

  function DoSettle(s: State, failed: bool): State
    requires s.executing.Some?
  {
    var owner := s.executing.value;
    if Requeues(s, failed) then s.(queue := s.queue + [owner], executing := None)
    else s.(owners := s.owners - {owner}, executing := None)
  }

  /** Whether the loop goes on to pop: not cancelled, and not an ordinary batch during shutdown. */
  predicate Goes(w: Worker, cancelled: bool) {
    && w.batch.Running? && w.st.executing.None? && w.batch.index < |w.batch.start|
    && !cancelled && (w.batch.drain || !w.st.closing)
  }

  function Leave(b: Batch): Batch {
    if b.Running? && b.drain then Stopped else Idle
  }

  function Do(w: Worker, a: Step): Worker {
    match a
    case Mark(owner) => w.(st := DoMark(w.st, owner))
    case Shutdown => w.(st := w.st.(closing := true))
    case StartBatch(drain) =>
      if w.batch.Idle? && (drain ==> w.st.closing) then w.(batch := Running(drain, w.st.queue, 0, [])) else w
    case Pop(cancelled) =>
      if !w.batch.Running? || w.st.executing.Some? || w.batch.index >= |w.batch.start| then w
      else if !Goes(w, cancelled) then w.(batch := Leave(w.batch))
      else if w.st.queue == [] then w
      else w.(st := DoPop(w.st))
    case Settle(failed) =>
      if !w.batch.Running? || w.st.executing.None? then w
      else Worker(DoSettle(w.st, failed),
                  w.batch.(index := w.batch.index + 1,
                           again := if Requeues(w.st, failed) then w.batch.again + [w.st.executing.value]
                               else w.batch.again))
    case EndBatch =>
      if w.batch.Running? && w.st.executing.None? && w.batch.index >= |w.batch.start|
      then w.(batch := Leave(w.batch)) else w
  }

  function Run(w: Worker, steps: seq<Step>): Worker
    decreases |steps|
  {
    if steps == [] then w else Run(Do(w, steps[0]), steps[1..])
  }

  function Start(): Worker {
    Worker(State(map[], [], false, None), Idle)
  }

  // ------------------------------------------------------------------ invariants

  predicate Distinct(q: seq<string>) {
    forall i, j :: 0 <= i < j < |q| ==> q[i] != q[j]
  }

  /** Owners are exactly the queued ones plus the executing one, each once, and at most 64. */
  ghost predicate Balanced(s: State) {
    && Distinct(s.queue)
    && (forall o :: o in s.owners <==> o in s.queue || s.executing == Some(o))
    && (s.executing.Some? ==> s.executing.value !in s.queue)
    && |s.owners| <= MAX_PENDING_OWNERS
    && (forall o :: o in s.owners ==> Acceptable(o))
  }

  /** The part of the starting queue from index n on is still in front, in order. */
  predicate Ahead(queue: seq<string>, start: seq<string>, n: nat) {
    n <= |start| <= n + |queue| && queue[..|start| - n] == start[n..]
  }

  predicate Aligned(w: Worker) {
    match w.batch
    case Running(drain, start, index, again) =>
      && Distinct(start) && (drain ==> w.st.closing)
      && (w.st.executing.Some? ==> index < |start| && w.st.executing.value == start[index])
      && var next := if w.st.executing.Some? then index + 1 else index;
      && Ahead(w.st.queue, start, next)
      && (drain ==> w.st.queue == start[next..] + again && (w.st.executing.Some? ==> !Requeues(w.st, false)))
    case _ => w.st.executing.None?
  }

  ghost predicate Sound(w: Worker) {
    Balanced(w.st) && Aligned(w)
  }

  lemma MarkBalanced(s: State, owner: string)
    requires Balanced(s)
    ensures Balanced(DoMark(s, owner))
  {
  }

  lemma PopBalanced(s: State)
    requires Balanced(s) && s.queue != [] && s.executing.None?
    ensures Balanced(DoPop(s))
  {
    assert DoPop(s).owners.Keys == s.owners.Keys;
    assert s.queue == [s.queue[0]] + s.queue[1..];
  }

  lemma SettleBalanced(s: State, failed: bool)
    requires Balanced(s) && s.executing.Some?
    ensures Balanced(DoSettle(s, failed))
  {
    assert (s.owners - {s.executing.value}).Keys <= s.owners.Keys;
    Smaller(s.owners.Keys - {s.executing.value}, s.owners.Keys);
  }

  lemma Smaller(a: set<string>, b: set<string>)
    requires a <= b
    ensures |a| <= |b|
  {
    assert |b| == |b - a| + |a|;
  }

  lemma AheadPop(queue: seq<string>, start: seq<string>, n: nat)
    requires Ahead(queue, start, n) && n < |start|
    ensures queue[0] == start[n] && Ahead(queue[1..], start, n + 1)
  {
    assert queue[..|start| - n][0] == start[n..][0];
    assert queue[1..][..|start| - n - 1] == queue[..|start| - n][1..] == start[n..][1..] == start[n + 1..];
  }

  lemma AheadAppend(queue: seq<string>, start: seq<string>, n: nat, o: string)
    requires Ahead(queue, start, n)
    ensures Ahead(queue + [o], start, n)
  {
    assert (queue + [o])[..|start| - n] == queue[..|start| - n];
  }

  lemma DrainPop(queue: seq<string>, start: seq<string>, n: nat, again: seq<string>)
    requires n < |start| && queue == start[n..] + again
    ensures queue[1..] == start[n + 1..] + again
  {
  }

  lemma DrainAppend(queue: seq<string>, rest: seq<string>, again: seq<string>, o: string)
    requires queue == rest + again
    ensures queue + [o] == rest + (again + [o])
  {
  }

  lemma PopSound(w: Worker)
    requires Sound(w) && Goes(w, false)
    ensures w.st.queue != [] && w.st.queue[0] == w.batch.start[w.batch.index]
    ensures Sound(w.(st := DoPop(w.st)))
  {
    AheadPop(w.st.queue, w.batch.start, w.batch.index);
    PopBalanced(w.st);
    if w.batch.drain { DrainPop(w.st.queue, w.batch.start, w.batch.index, w.batch.again); }
  }

  lemma MarkSound(w: Worker, owner: string)
    requires Sound(w)
    ensures Sound(w.(st := DoMark(w.st, owner)))
  {
    MarkBalanced(w.st, owner);
    if w.batch.Running? {
      AheadAppend(w.st.queue, w.batch.start, if w.st.executing.Some? then w.batch.index + 1 else w.batch.index, owner);
    }
  }

  lemma SettleSound(w: Worker, failed: bool)
    requires Sound(w) && w.batch.Running? && w.st.executing.Some?
    ensures Sound(Do(w, Settle(failed)))
  {
    SettleBalanced(w.st, failed);
    var o := w.st.executing.value;
    AheadAppend(w.st.queue, w.batch.start, w.batch.index + 1, o);
    if w.batch.drain { DrainAppend(w.st.queue, w.batch.start[w.batch.index + 1..], w.batch.again, o); }
  }

  lemma StartSound(w: Worker, drain: bool)
    requires Sound(w) && w.batch.Idle? && (drain ==> w.st.closing)
    ensures Sound(w.(batch := Running(drain, w.st.queue, 0, [])))
  {
    assert w.st.queue[..|w.st.queue|] == w.st.queue == w.st.queue[0..] == w.st.queue[0..] + [];
  }

  lemma StepSound(w: Worker, a: Step)
    requires Sound(w)
    ensures Sound(Do(w, a))
  {
    if Do(w, a) != w {
      match a
      case Mark(owner) => MarkSound(w, owner);
      case Pop(cancelled) => if Goes(w, cancelled) { PopSound(w); }
      case Settle(failed) => SettleSound(w, failed);
      case StartBatch(drain) => StartSound(w, drain);
      case _ =>
    }
  }

  lemma {:induction false} RunSound(w: Worker, steps: seq<Step>)
    requires Sound(w)
    ensures Sound(Run(w, steps))
    decreases |steps|
  {
    if steps != [] {
      StepSound(w, steps[0]);
      RunSound(Do(w, steps[0]), steps[1..]);
    }
  }

  // ------------------------------------------------------------------ what every run guarantees

  /** The owner will be sealed again: it is queued, or being sealed with a newer mark pending. */
  predicate Owed(s: State, owner: string) {
    owner in s.queue || (s.executing == Some(owner) && owner in s.owners && s.owners[owner])
  }

  /** The step starts a seal of this owner. */
  predicate Seals(w: Worker, a: Step, owner: string) {
    a.Pop? && Goes(w, a.cancelled) && w.st.queue != [] && w.st.queue[0] == owner
  }

  predicate SealedDuring(w: Worker, steps: seq<Step>, owner: string)
    decreases |steps|
  {
    steps != [] && (Seals(w, steps[0], owner) || SealedDuring(Do(w, steps[0]), steps[1..], owner))
  }

  lemma MarkIsOwed(s: State, owner: string)
    requires Balanced(s) && Accepts(s, owner)
    ensures Owed(DoMark(s, owner), owner)
  {
  }

  lemma StepKeepsOwed(w: Worker, a: Step, owner: string)
    requires Sound(w) && Owed(w.st, owner) && !Seals(w, a, owner)
    ensures Owed(Do(w, a).st, owner)
  {
    if a.Pop? && Goes(w, a.cancelled) && w.st.queue != [] {
      assert w.st.queue == [w.st.queue[0]] + w.st.queue[1..];
    }
  }

  /** An accepted mark is never lost: a later seal of the owner has started, or one is still owed. */
  lemma {:induction false} MarksAreServed(w: Worker, steps: seq<Step>, owner: string)
    requires Sound(w) && Owed(w.st, owner)
    ensures SealedDuring(w, steps, owner) || Owed(Run(w, steps).st, owner)
    decreases |steps|
  {
    if steps != [] && !Seals(w, steps[0], owner) {
      StepSound(w, steps[0]);
      StepKeepsOwed(w, steps[0], owner);
      MarksAreServed(Do(w, steps[0]), steps[1..], owner);
    }
  }

  /** Over whole runs, from the start of the worker: mark, then anything. */
  lemma AcceptedMarkIsServed(before: seq<Step>, owner: string, after: seq<Step>)
    requires Accepts(Run(Start(), before).st, owner)
    ensures var w := Do(Run(Start(), before), Mark(owner));
            SealedDuring(w, after, owner) || Owed(Run(w, after).st, owner)
  {
    RunSound(Start(), before);
    var w := Run(Start(), before);
    MarkIsOwed(w.st, owner);
    StepSound(w, Mark(owner));
    MarksAreServed(Do(w, Mark(owner)), after, owner);
  }

  /** Within one batch the i-th seal is of the i-th owner queued at its start, so no owner is sealed twice. */
  lemma BatchSealsInOrder(steps: seq<Step>, owner: string)
    requires Seals(Run(Start(), steps), Pop(false), owner)
    ensures var b := Run(Start(), steps).batch;
            b.index < |b.start| && owner == b.start[b.index] && owner !in b.start[..b.index]
  {
    RunSound(Start(), steps);
    PopSound(Run(Start(), steps));
  }

  /** During a drain only a failed seal puts its owner back, so a drain with no failure ends with an empty queue. */
  lemma DrainLeavesFailures(steps: seq<Step>, failed: bool)
    requires var w := Run(Start(), steps); w.batch.Running? && w.batch.drain
    ensures var w := Run(Start(), steps);
            && (w.st.executing.Some? ==> Requeues(w.st, failed) == failed)
            && (w.st.executing.None? && w.batch.index == |w.batch.start| ==> w.st.queue == w.batch.again)
  {
    RunSound(Start(), steps);
    var w := Run(Start(), steps);
    if w.batch.index == |w.batch.start| { assert w.batch.start[w.batch.index..] == []; }
  }

  // ------------------------------------------------------------------ the object

  /** What other goroutines do while the worker does not hold the lock. */
  datatype Arrival = Marked(owner: string) | ShutDown

  /** One turn of the batch loop: arrivals before its lock, the context, arrivals during the seal, its outcome. */
  datatype Turn = Turn(before: seq<Arrival>, cancelled: bool, during: seq<Arrival>, failed: bool)

  /** A shutdown arrived in the first n turns. */
  predicate Shut(turns: seq<Turn>, n: nat)
    requires n <= |turns|
  {
    n > 0 && (ShutDown in turns[n - 1].before || ShutDown in turns[n - 1].during || Shut(turns, n - 1))
  }

  /** A shutdown arrived before turn n took the lock. */
  predicate ShutAt(turns: seq<Turn>, n: nat)
    requires n <= |turns|
  {
    Shut(turns, n) || (n < |turns| && ShutDown in turns[n].before)
  }

  class SealQueue {
    var owners: map<string, bool>
    var queue: seq<string>
    var closing: bool
    var executing: Option<string>

    ghost function View(): State
      reads this
    {
      State(owners, queue, closing, executing)
    }

    constructor ()
      ensures View() == Start().st
    {
      owners, queue, closing, executing := map[], [], false, None;
    }

    method MarkDirty(owner: string) returns (ok: bool)
      modifies this
      ensures View() == DoMark(old(View()), owner) && ok == Accepts(old(View()), owner)
    {
      if closing || owner == [] || |owner| > MAX_IDENTITY_LENGTH { return false; }
      if owner in owners {
        owners := owners[owner := true];
        return true;
      }
      if |owners| >= MAX_PENDING_OWNERS { return false; }
      owners := owners[owner := true];
      queue := queue + [owner];
      ok := true;
    }

    /** The Shutdown step: nothing but `closing` changes, so the batch under way keeps its place. */
    method Shutdown()
      modifies this`closing
      ensures View() == Do(Worker(old(View()), Idle), Step.Shutdown).st
    {
      closing := true;
    }

    /** Arrivals while the lock is free keep the balance, the executing owner and the queue front. */
    method Interfere(arrivals: seq<Arrival>)
      requires Balanced(View())
      modifies this
      ensures Balanced(View()) && executing == old(executing) && closing == (old(closing) || ShutDown in arrivals)
      ensures old(queue) <= queue
    {
      for i := 0 to |arrivals|
        invariant Balanced(View()) && executing == old(executing)
                  && closing == (old(closing) || ShutDown in arrivals[..i])
        invariant old(queue) <= queue
      {
        assert arrivals[..i + 1] == arrivals[..i] + [arrivals[i]];
        match arrivals[i]
        case Marked(owner) =>
          MarkBalanced(View(), owner);
          var _ := MarkDirty(owner);
        case ShutDown => Shutdown();
      }
      assert arrivals[..|arrivals|] == arrivals;
    }

    /** One turn: pop the head, seal it without the lock, then requeue or forget it. */
    method SealHead(turn: Turn) returns (owner: string)
      requires Balanced(View()) && executing.None? && queue != []
      modifies this
      ensures Balanced(View()) && executing.None? && closing == (old(closing) || ShutDown in turn.during)
      ensures owner == old(queue[0]) && old(queue[1..]) <= queue
      ensures turn.failed ==> owner in queue
    {
      PopBalanced(View());
      owner := queue[0];
      queue := queue[1..];
      owners := owners[owner := false];
      executing := Some(owner);
      Interfere(turn.during);
      SettleBalanced(View(), turn.failed);
      if turn.failed || owners[owner] {
        queue := queue + [owner];
      } else {
        owners := owners - {owner};
      }
      executing := None;
    }

    /** The same turn seen from a batch that started with `start` and is at index n. */
    method SealNext(turn: Turn, ghost start: seq<string>, ghost n: nat, ghost failures: seq<string>)
        returns (owner: string)
      requires AtTurn(View(), start, n, failures) && n < |start|
      modifies this
      ensures closing == (old(closing) || ShutDown in turn.during) && owner == start[n]
      ensures AtTurn(View(), start, n + 1, if turn.failed then failures + [owner] else failures)
    {
      AheadPop(queue, start, n);
      ghost var before := queue;
      owner := SealHead(turn);
      TurnTaken(before, queue, start, n, failures, turn.failed);
    }

    /** Arrivals between two turns leave the batch where it is. */
    method Between(arrivals: seq<Arrival>, ghost start: seq<string>, ghost n: nat, ghost failures: seq<string>)
      requires AtTurn(View(), start, n, failures)
      modifies this
      ensures AtTurn(View(), start, n, failures) && closing == (old(closing) || ShutDown in arrivals)
    {
      ghost var before := queue;
      Interfere(arrivals);
      PrefixAhead(before, queue, start, n);
    }

    /**
     * One batch: its i-th seal is of the i-th owner queued at its start, so none is sealed twice. It
     * stops early only when the context is cancelled or an ordinary batch finds the worker closing;
     * then the owners it did not reach are still queued, in front. An ordinary batch seals nobody
     * after a shutdown arrived.
     */
    method Batch(drain: bool, turns: seq<Turn>) returns (sealed: nat, failures: seq<string>)
      requires Balanced(View()) && executing.None? && |turns| == |queue|
      modifies this
      ensures sealed <= |old(queue)| && (sealed == |old(queue)| || turns[sealed].cancelled || (!drain && closing))
      ensures closing == (old(closing) || ShutAt(turns, sealed))
      ensures !drain && sealed > 0 ==> !old(closing) && !ShutAt(turns, sealed - 1)
      ensures failures == Failed(old(queue), turns, sealed)
      ensures AtTurn(View(), old(queue), sealed, failures)
    {
      ghost var start := queue;
      BatchStarts(View());
      var count := |queue|;
      sealed, failures := 0, [];
      while sealed < count
        invariant sealed <= count && failures == Failed(start, turns, sealed)
        invariant closing == (old(closing) || Shut(turns, sealed))
        invariant !drain && sealed > 0 ==> !old(closing) && !ShutAt(turns, sealed - 1)
        invariant AtTurn(View(), start, sealed, failures)
      {
        Between(turns[sealed].before, start, sealed, failures);
        if turns[sealed].cancelled || (!drain && closing) { return; }
        var owner := SealNext(turns[sealed], start, sealed, failures);
        if turns[sealed].failed { failures := failures + [owner]; }
        sealed := sealed + 1;
      }
    }
  }

  /** Between two turns of a batch: the owners not reached yet lead the queue and the failed ones are in it. */
  ghost predicate AtTurn(st: State, start: seq<string>, n: nat, failures: seq<string>) {
    && Balanced(st) && st.executing.None? && Distinct(start)
    && Ahead(st.queue, start, n) && Kept(st.queue, start, n, failures)
  }

  lemma BatchStarts(st: State)
    requires Balanced(st) && st.executing.None?
    ensures AtTurn(st, st.queue, 0, [])
  {
    assert st.queue[..|st.queue|] == st.queue[0..];
  }

  /** Owners whose seal failed in this batch are queued again. */
  predicate Kept(queue: seq<string>, start: seq<string>, n: nat, failures: seq<string>) {
    n <= |start| && forall o :: o in failures ==> o in queue && o in start[..n]
  }

  lemma TurnTaken(before: seq<string>, queue: seq<string>, start: seq<string>, n: nat, failures: seq<string>,
                  failed: bool)
    requires Distinct(start) && Ahead(before, start, n) && n < |start| && before[0] == start[n] && before[1..] <= queue
    requires Ahead(before[1..], start, n + 1) && Kept(before, start, n, failures) && (failed ==> before[0] in queue)
    ensures Ahead(queue, start, n + 1)
    ensures Kept(queue, start, n + 1, if failed then failures + [before[0]] else failures)
  {
    PrefixAhead(before[1..], queue, start, n + 1);
    EarlierStay(before, queue, start, n, failures);
  }

  /** The owners among the first n whose seal failed. */
  function Failed(start: seq<string>, turns: seq<Turn>, n: nat): seq<string>
    requires n <= |start| && n <= |turns|
  {
    if n == 0 then []
    else if turns[n - 1].failed then Failed(start, turns, n - 1) + [start[n - 1]]
    else Failed(start, turns, n - 1)
  }

  lemma EarlierStay(before: seq<string>, queue: seq<string>, start: seq<string>, n: nat, failures: seq<string>)
    requires Distinct(start) && n < |start| && before != [] && before[0] == start[n] && before[1..] <= queue
    requires forall o :: o in failures ==> o in before && o in start[..n]
    ensures forall o :: o in failures ==> o in queue && o in start[..n + 1]
  {
    assert before == [before[0]] + before[1..];
    forall o | o in failures ensures o in queue && o in start[..n + 1] {
      assert o != start[n];
      assert o in before[1..];
    }
  }

  lemma PrefixAhead(rest: seq<string>, queue: seq<string>, start: seq<string>, n: nat)
    requires Ahead(rest, start, n) && rest <= queue
    ensures Ahead(queue, start, n)
  {
    assert queue[..|start| - n] == rest[..|start| - n];
  }
}
