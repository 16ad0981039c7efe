/**
 The download-slot scheduler (internal/engine/resource_manager.go): the FIFO order over managed
 torrents, the head search and slot count that run under the admission lock, and one
 uninterrupted scheduling pass.
 */
module Scheduler {
  import opened RuntimePolicy
  import opened ManagedTorrent
  import Text
  import opened Wrappers

  /** Explicit positions first, then registration time, then hash. */
  predicate Before(a: Torrent, b: Torrent) {
    if a.position > 0 && b.position > 0 && a.position != b.position then a.position < b.position
    else if (a.position > 0) != (b.position > 0) then a.position > 0
    else if a.added != b.added then a.added < b.added
    else Text.Less(a.hash, b.hash)
  }

  lemma BeforeIrreflexive(a: Torrent)
    ensures !Before(a, a)
  {
    Text.LessIrreflexive(a.hash);
  }

  lemma BeforeTransitive(a: Torrent, b: Torrent, c: Torrent)
    requires Before(a, b) && Before(b, c)
    ensures Before(a, c)
  {
    if Text.Less(a.hash, b.hash) && Text.Less(b.hash, c.hash) {
      Text.LessTransitive(a.hash, b.hash, c.hash);
    }
  }

  lemma BeforeTotal(a: Torrent, b: Torrent)
    requires a.hash != b.hash
    ensures Before(a, b) != Before(b, a)
  {
    Text.LessTotal(a.hash, b.hash);
    if Text.Less(a.hash, b.hash) { Text.LessAsymmetric(a.hash, b.hash); }
    if Text.Less(b.hash, a.hash) { Text.LessAsymmetric(b.hash, a.hash); }
  }

  /** A torrent that could use a slot it does not hold. */
  predicate Waiting(t: Torrent) {
    t.policy.PayloadEligible() && !t.policy.slot && !t.policy.selectedComplete && !t.policy.payloadComplete
  }

  /** A managed collection keys torrents by hash. */
  predicate DistinctHashes(ts: seq<Torrent>) {
    forall i, j :: 0 <= i < j < |ts| ==> ts[i].hash != ts[j].hash
  }

  /** The torrent at index k waits and precedes every other waiting torrent. */
  predicate IsHead(ts: seq<Torrent>, k: nat) {
    k < |ts| && Waiting(ts[k]) && forall i :: 0 <= i < |ts| && i != k && Waiting(ts[i]) ==> Before(ts[k], ts[i])
  }

  /** At most one torrent is the head of a collection, however the collection is enumerated. */
  lemma HeadUnique(ts: seq<Torrent>, us: seq<Torrent>, k: nat, m: nat)
    requires IsHead(ts, k) && IsHead(us, m)
    requires forall t :: t in ts <==> t in us
    ensures ts[k] == us[m]
  {
    assert us[m] in ts && ts[k] in us;
    var i :| 0 <= i < |ts| && ts[i] == us[m];
    var j :| 0 <= j < |us| && us[j] == ts[k];
    if i != k && j != m {
      BeforeTransitive(ts[k], us[m], ts[k]);
      BeforeIrreflexive(ts[k]);
    }
  }

  /** schedulerHeadLocked: a running minimum over any enumeration of the managed torrents. */
  method SchedulerHead(ts: seq<Torrent>) returns (head: Option<nat>)
    requires DistinctHashes(ts)
    ensures head.None? <==> forall i :: 0 <= i < |ts| ==> !Waiting(ts[i])
    ensures head.Some? ==> IsHead(ts, head.value)
  {
    head := None;
    var i := 0;
    while i < |ts|
      invariant 0 <= i <= |ts|
      invariant head.None? <==> forall j :: 0 <= j < i ==> !Waiting(ts[j])
      invariant head.Some? ==> head.value < i && IsHead(ts[..i], head.value)
    {
      if Waiting(ts[i]) {
        if head.None? {
          head := Some(i);
        } else {
          var h := head.value;
          assert ts[..i][h] == ts[h];
          BeforeTotal(ts[h], ts[i]);
          if Before(ts[i], ts[h]) {
            forall j | 0 <= j < i && Waiting(ts[j]) ensures Before(ts[i], ts[j]) {
              if j != h {
                assert Before(ts[..i][h], ts[..i][j]);
                BeforeTransitive(ts[i], ts[h], ts[j]);
              }
            }
            head := Some(i);
          }
        }
      }
      i := i + 1;
    }
    assert ts[..|ts|] == ts;
  }

  function Slots(ts: seq<Torrent>): nat {
    if ts == [] then 0 else (if ts[|ts| - 1].policy.slot then 1 else 0) + Slots(ts[..|ts| - 1])
  }

  lemma {:induction false} SlotsUpdate(ts: seq<Torrent>, k: nat, t: Torrent)
    requires k < |ts|
    ensures Slots(ts[k := t]) ==
            Slots(ts) - (if ts[k].policy.slot then 1 else 0) + (if t.policy.slot then 1 else 0)
  {
    var n := |ts| - 1;
    if k < n {
      assert ts[k := t][..n] == ts[..n][k := t];
      SlotsUpdate(ts[..n], k, t);
    } else {
      assert ts[k := t][..n] == ts[..n];
    }
  }

  /** slotCountLocked. */
  method SlotCount(ts: seq<Torrent>) returns (n: nat)
    ensures n == Slots(ts)
  {
    n := 0;
    for i := 0 to |ts|
      invariant n == Slots(ts[..i])
    {
      assert ts[..i + 1][..i] == ts[..i];
      if ts[i].policy.slot { n := n + 1; }
    }
    assert ts[..|ts|] == ts;
  }

  /** What a pass observes about one torrent's selection. */
  datatype Observation = Observation(selected: bool, complete: bool, empty: bool, streaming: bool)

  function Reconciled(t: Torrent, o: Observation): Torrent {
    ReconcileSection(t, o.selected, o.complete, o.empty, o.streaming)
  }

  predicate Sorted(ts: seq<Torrent>) {
    forall i, j :: 0 <= i < j < |ts| ==> Before(ts[i], ts[j])
  }

  /** Same queue keys: nothing in a pass reorders the queue. */
  predicate SameKeys(t: Torrent, u: Torrent) {
    t.hash == u.hash && t.added == u.added && t.position == u.position
  }

  lemma ReconciledKeys(t: Torrent, o: Observation)
    requires GateSound(t)
    ensures SameKeys(t, Reconciled(t, o)) && GateSound(Reconciled(t, o))
  {
    ReconcileSound(t, o.selected, o.complete, o.empty, o.streaming);
  }

  /** A slot request is granted exactly to a waiting torrent for which capacity is offered. */
  lemma RequestOutcome(t: Torrent, available: bool)
    requires GateSound(t) && !t.policy.slot
    ensures var u := Apply(t, SlotRequested(available));
            SameKeys(t, u) && GateSound(u) && u.gate == t.gate
            && (u.policy.slot <==> Waiting(t) && available) && (!u.policy.slot ==> u == t)
  {
    ApplyFollows(t, SlotRequested(available));
  }

  /** In FIFO order with nobody waiting before index i, a waiting torrent at i is the head. */
  lemma HeadIsNext(ts: seq<Torrent>, i: nat, h: nat)
    requires i < |ts| && Sorted(ts) && IsHead(ts, h) && Waiting(ts[i])
    requires forall j :: 0 <= j < i ==> !Waiting(ts[j])
    ensures h == i
  {
    if h != i {
      assert Before(ts[i], ts[h]);
      BeforeTransitive(ts[i], ts[h], ts[i]);
      BeforeIrreflexive(ts[i]);
    }
  }

  /** Reconciling the selection does not take the slot away. */
  predicate KeepsSlot(t: Torrent, o: Observation) {
    t.policy.slot ==> Reconciled(t, o).policy.slot
  }

  /** Nobody among the first n torrents of the queue waits for a slot. */
  predicate Served(ts: seq<Torrent>, n: nat)
    requires n <= |ts|
  {
    forall j :: 0 <= j < n ==> !Waiting(ts[j])
  }

  /** The turn of one torrent in a pass: reconcile its selection, then request a slot if it is the head. */
  method Visit(ts: seq<Torrent>, i: nat, max: int, o: Observation) returns (t: Torrent)
    requires i < |ts| && DistinctHashes(ts) && Sorted(ts) && GateSound(ts[i])
    ensures SameKeys(ts[i], t) && GateSound(t)
    ensures t.policy.slot && !ts[i].policy.slot ==> Slots(ts) < max
    ensures KeepsSlot(ts[i], o) && ts[i].policy.slot ==> t.policy.slot
    ensures KeepsSlot(ts[i], o) && Served(ts, i) && Slots(ts) < max ==> !Waiting(t)
  {
    t := Reconciled(ts[i], o);
    ReconciledKeys(ts[i], o);
    ReconcileSound(ts[i], o.selected, o.complete, o.empty, o.streaming);
    if !t.policy.slot {
      var now := ts[i := t];
      SlotsUpdate(ts, i, t);
      SortedKeys(ts, now);
      var count := SlotCount(now);
      var head := SchedulerHead(now);
      if head.Some? && Waiting(t) && Served(ts, i) { HeadIsNext(now, i, head.value); }
      if Waiting(t) { assert Waiting(now[i]); }
      var available := count < max && head == Some(i);
      RequestOutcome(t, available);
      t := Apply(t, SlotRequested(available));
    }
  }

  lemma SortedKeys(ts: seq<Torrent>, us: seq<Torrent>)
    requires |ts| == |us| && forall j :: 0 <= j < |ts| ==> SameKeys(ts[j], us[j])
    requires Sorted(ts) && DistinctHashes(ts)
    ensures Sorted(us) && DistinctHashes(us)
  {
    forall i, j | 0 <= i < j < |us| ensures Before(us[i], us[j]) {
      assert Before(ts[i], ts[j]);
    }
  }

  /**
   * One manageResources pass with nobody else running and every probe and admission succeeding: the
   * capacity is never exceeded, and a pass in which reconciliation takes no slot away ends either
   * with every slot held or with nobody waiting.
   */
  method Pass(order: seq<Torrent>, max: int, seen: seq<Observation>) returns (r: seq<Torrent>)
    requires |seen| == |order| && DistinctHashes(order) && Sorted(order)
    requires forall i :: 0 <= i < |order| ==> GateSound(order[i])
    requires Slots(order) <= (if max > 0 then max else 0)
    ensures |r| == |order| && forall i :: 0 <= i < |r| ==> SameKeys(order[i], r[i])
    ensures Slots(r) <= (if max > 0 then max else 0)
    ensures (forall i :: 0 <= i < |order| ==> KeepsSlot(order[i], seen[i])) ==>
              Slots(order) <= Slots(r) && (Slots(r) >= max || Served(r, |r|))
  {
    r := order;
    ghost var kept := forall i :: 0 <= i < |order| ==> KeepsSlot(order[i], seen[i]);
    for i := 0 to |order|
      invariant |r| == |order|
      invariant forall j :: 0 <= j < |r| ==> SameKeys(order[j], r[j])
      invariant forall j :: i <= j < |r| ==> r[j] == order[j]
      invariant Slots(r) <= (if max > 0 then max else 0)
      invariant kept ==> Slots(order) <= Slots(r) && (Slots(r) >= max || Served(r, i))
    {
      SortedKeys(order, r);
      var t := Visit(r, i, max, seen[i]);
      SlotsUpdate(r, i, t);
      r := r[i := t];
    }
  }
}
