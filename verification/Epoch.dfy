/**
  One ownership epoch that starts with nothing in flight. The tracker is then an exact encoding of
  two numbers: how many delivered records are committed, and how far the walk has come. At every
  batch boundary the walk has come exactly to the end of the longest completed prefix.
 */
module Epoch {
  import opened WorkItems
  import opened GapOrder
  import opened PartitionTracker
  import opened PartitionWorld
  import opened Liveness

  /** `g` is a completed delivery of index `from` or later. */
  ghost predicate Waiting(w: World, g: Item, from: nat) {
    exists j :: from <= j < |w.delivered| && Arrived(w, j) && g == w.delivered[j]
  }

  /** One First, then each record stamped with the one before: no stamp was cleared on the way. */
  predicate Unbroken(d: seq<Item>) {
    && (forall i :: 0 <= i < |d| ==> (d[i].first <==> i == 0))
    && (forall i :: 0 < i < |d| ==> d[i].prev == d[i - 1].offset)
    && StrictlyIncreasing(d)
  }

  /** `t` encodes: the first `c` deliveries committed, the first `m` walked. */
  ghost predicate Encodes(w: World, t: Tracker, c: nat, m: nat) {
    var d := w.delivered;
    && c <= m <= |d| && Unbroken(d) && 0 <= w.epochStart
    && (forall i :: 0 <= i < |d| ==> w.epochStart <= d[i].offset)
    && (forall i :: 0 <= i < m ==> Arrived(w, i))
    && t.last == (if c == 0 then -1 else d[c - 1].offset)
    && t.ready == (if m == c then None else Some(d[m - 1]))
    && (c > 0 ==> t.cpo == d[c - 1].offset + 1)
    && (c == 0 && d != [] && Arrived(w, 0) ==> t.cpo == d[0].offset)
    && (c == 0 && (d == [] || !Arrived(w, 0)) ==> t.cpo <= w.epochStart)
    && (forall j :: m <= j < |d| && Arrived(w, j) ==> d[j] in t.gap)
    && (forall g :: g in t.gap ==> Waiting(w, g, m))
  }

  /** The flush flag is up whenever the walk could go further. */
  ghost predicate Flagged(w: World, t: Tracker, m: nat) {
    m < |w.delivered| && Arrived(w, m) ==> t.flag
  }

  /** The first `p` deliveries, and not the next one, are completed. */
  predicate CompletedPrefix(w: World, p: nat) {
    && p <= |w.delivered| && (forall i :: 0 <= i < p ==> Arrived(w, i))
    && (p < |w.delivered| ==> !Arrived(w, p))
  }

  /** Between the committed and the next delivery lies nothing the tracker could mistake for it. */
  lemma BaselineAtNext(w: World, t: Tracker, c: nat, m: nat, j: nat)
    requires Encodes(w, t, c, m) && c <= j < |w.delivered|
    ensures w.delivered[j].offset > t.last && w.delivered[j].offset >= t.cpo
    ensures j > c ==> w.delivered[j].offset > t.cpo && w.delivered[j].prev > t.last
    ensures m > c && j >= m ==> w.delivered[j].offset > w.delivered[m - 1].offset
    ensures m > c && j > m ==> w.delivered[j].prev > w.delivered[m - 1].offset
  {
    var d := w.delivered;
    assert j > c ==> d[c].offset < d[j].offset;
    assert j > 0 ==> d[j].prev == d[j - 1].offset;
    assert c > 0 ==> d[c - 1].offset < d[c].offset;
    assert j - 1 > c ==> d[c].offset < d[j - 1].offset;
  }

  lemma PassesExactly(w: World, t: Tracker, c: nat, m: nat, j: nat)
    requires Encodes(w, t, c, m) && m <= j < |w.delivered| && Arrived(w, j)
    ensures Passes(t, w.delivered[j]) <==> j == m
  {
    var d := w.delivered;
    BaselineAtNext(w, t, c, m, j);
    assert j > 0 ==> d[j].prev == d[j - 1].offset;
  }

  lemma TakeEncodes(w: World, t: Tracker, c: nat, m: nat)
    requires Encodes(w, t, c, m) && StrictlyIncreasing(t.gap)
    requires t.gap != [] && m < |w.delivered| && t.gap[0] == w.delivered[m] && Arrived(w, m)
    ensures Encodes(w, Take(t, t.gap[0]).(gap := t.gap[1..]), c, m + 1)
  {
    var d := w.delivered;
    BaselineAtNext(w, t, c, m, m);
    var u := Take(t, t.gap[0]).(gap := t.gap[1..]);
    forall j | m + 1 <= j < |d| && Arrived(w, j) ensures d[j] in u.gap {
      assert d[j] in t.gap && d[j] != d[m];
    }
    forall g | g in u.gap ensures Waiting(w, g, m + 1) {
      assert g in t.gap && g.offset > t.gap[0].offset;
      var j :| m <= j < |d| && Arrived(w, j) && g == d[j];
      assert j != m;
    }
  }

  /** The walk stops exactly at the first delivery that has not completed. */
  lemma {:induction false} WalkEncodes(w: World, t: Tracker, c: nat, m: nat) returns (p: nat)
    requires Encodes(w, t, c, m) && StrictlyIncreasing(t.gap)
    ensures Encodes(w, Walk(t, t.gap), c, p) && CompletedPrefix(w, p)
    decreases |t.gap|
  {
    var d := w.delivered;
    if m < |d| && Arrived(w, m) {
      HeadIsNext(w, t, c, m);
      PassesExactly(w, t, c, m, m);
      TakeEncodes(w, t, c, m);
      var u := Take(t, t.gap[0]);
      p := WalkEncodes(w, u.(gap := t.gap[1..]), c, m + 1);
      WalkIgnoresGap(u, t.gap[1..], t.gap[1..]);
    } else {
      p := m;
      if t.gap != [] {
        assert t.gap[0] in t.gap;
        var j :| m <= j < |d| && Arrived(w, j) && t.gap[0] == d[j];
        PassesExactly(w, t, c, m, j);
      }
    }
  }

  lemma HeadIsNext(w: World, t: Tracker, c: nat, m: nat)
    requires Encodes(w, t, c, m) && StrictlyIncreasing(t.gap) && m < |w.delivered| && Arrived(w, m)
    ensures t.gap != [] && t.gap[0] == w.delivered[m]
  {
    var d := w.delivered;
    assert d[m] in t.gap;
    var k :| 0 <= k < |t.gap| && t.gap[k] == d[m];
    assert t.gap[0] in t.gap;
    var j :| m <= j < |d| && Arrived(w, j) && t.gap[0] == d[j];
  }

  /** Sorting and compacting loses nothing: deliveries of one epoch have no twins. */
  lemma CompactEncodes(w: World, t: Tracker, c: nat, m: nat, sorted: seq<Item>)
    requires Encodes(w, t, c, m) && Arranged(t.gap, sorted)
    ensures Encodes(w, t.(gap := Compact(sorted)), c, m)
  {
    var d := w.delivered;
    ArrangedMembers(t.gap, sorted);
    CompactMembers(sorted);
    forall g | g in t.gap ensures g in Compact(sorted) {
      var i :| 0 <= i < |sorted| && sorted[i] == g;
      CompactKeepsLatest(sorted, i);
      var k :| k in Compact(sorted) && k.offset == g.offset && k.readTime >= g.readTime;
      SameOffsetSameItem(w, g, k, m);
    }
  }

  lemma SameOffsetSameItem(w: World, g: Item, h: Item, m: nat)
    requires Unbroken(w.delivered) && Waiting(w, g, m) && Waiting(w, h, m) && g.offset == h.offset
    ensures g == h
  {
    var i :| m <= i < |w.delivered| && Arrived(w, i) && g == w.delivered[i];
    var j :| m <= j < |w.delivered| && Arrived(w, j) && h == w.delivered[j];
  }

  /** After a flush, flagged or not, the walk has come to the end of the completed prefix. */
  lemma FlushEncodes(w: World, t: Tracker, c: nat, m: nat, sorted: seq<Item>) returns (p: nat)
    requires Encodes(w, t, c, m) && Flagged(w, t, m) && Arranged(t.gap, sorted)
    ensures Encodes(w, Flush(t, sorted), c, p) && CompletedPrefix(w, p)
  {
    if t.flag && t.gap != [] {
      var s := t.(flag := false, dropped := t.dropped + Dropped(sorted));
      CompactEncodes(w, s, c, m, sorted);
      CompactStrict(sorted);
      p := WalkEncodes(w, s.(gap := Compact(sorted)), c, m);
      WalkIgnoresGap(s, Compact(sorted), Compact(sorted));
    } else {
      p := m;
    }
  }

  /** At a batch boundary the repair finds no candidate and nothing is stale. */
  lemma RepairInert(w: World, t: Tracker, c: nat, p: nat)
    requires Encodes(w, t, c, p) && CompletedPrefix(w, p)
    ensures t.ready.None? ==> Successor(t.gap, t.cpo, t.last).None?
    ensures Collect(t) == t
  {
    SuccessorProvable(t.gap, t.cpo, t.last);
    var s := Successor(t.gap, t.cpo, t.last);
    if p == c && s.Some? {
      var j :| p <= j < |w.delivered| && Arrived(w, j) && s.value == w.delivered[j];
      BaselineAtNext(w, t, c, p, j);
      assert false;
    }
    if p > c {
      BaselineAtNext(w, t, c, p, p - 1);
    }
  }

  lemma AcknowledgeEncodes(w: World, t: Tracker, c: nat, p: nat)
    requires Encodes(w, t, c, p) && p > c
    ensures Encodes(w, Acknowledge(t), p, p)
  {
    BaselineAtNext(w, t, c, p, p - 1);
  }

  /** One completion moves the walk by at most one record, and flags the flush if more is possible. */
  lemma ArriveEncodes(w: World, w': World, t: Tracker, c: nat, m: nat, i: nat) returns (m': nat)
    requires Encodes(w, t, c, m) && Flagged(w, t, m)
    requires i < |w.delivered| && !Arrived(w, i) && w'.flight == w.flight - {w.delivered[i]}
    requires w'.delivered == w.delivered && w'.epochStart == w.epochStart
    ensures Encodes(w', Arrive(t, w.delivered[i]), c, m') && Flagged(w', Arrive(t, w.delivered[i]), m')
  {
    var d := w.delivered;
    var u := Arrive(t, d[i]);
    assert i >= m;
    ArrivalsGrow(w, w', i);
    BaselineAtNext(w, t, c, m, i);
    if u.gap == t.gap {
      m' := m + 1;
      assert i == m && u.ready == Some(d[m]);
      WaitingMoves(w, w', t, m, i);
      if m + 1 < |d| && Arrived(w', m + 1) {
        assert d[m + 1] in t.gap && d[m + 1].prev == d[m].offset;
        assert LinksTo(t.gap, d[m].offset);
      }
    } else {
      m' := m;
      assert u.gap == t.gap + [d[i]];
      WaitingJoins(w, w', t.gap, m, i);
      assert i == m ==> u.flag;
    }
  }

  lemma WaitingJoins(w: World, w': World, gap: seq<Item>, m: nat, i: nat)
    requires m <= i < |w.delivered| && w'.delivered == w.delivered
    requires forall g :: g in gap ==> Waiting(w, g, m)
    requires forall j :: 0 <= j < |w.delivered| ==> (Arrived(w', j) <==> Arrived(w, j) || j == i)
    ensures forall g :: g in gap + [w.delivered[i]] ==> Waiting(w', g, m)
  {
    forall g | g in gap + [w.delivered[i]] ensures Waiting(w', g, m) {
      if g in gap {
        var j :| m <= j < |w.delivered| && Arrived(w, j) && g == w.delivered[j];
        assert Arrived(w', j);
      } else {
        assert Arrived(w', i);
      }
    }
  }

  lemma ArrivalsGrow(w: World, w': World, i: nat)
    requires Unbroken(w.delivered) && i < |w.delivered| && w'.flight == w.flight - {w.delivered[i]}
    requires w'.delivered == w.delivered
    ensures forall j :: 0 <= j < |w.delivered| ==> (Arrived(w', j) <==> Arrived(w, j) || j == i)
  {
    forall j | 0 <= j < |w.delivered| && j != i ensures w.delivered[j] != w.delivered[i] {
      assert j < i ==> w.delivered[j].offset < w.delivered[i].offset;
      assert i < j ==> w.delivered[i].offset < w.delivered[j].offset;
    }
  }

  lemma WaitingMoves(w: World, w': World, t: Tracker, m: nat, i: nat)
    requires forall g :: g in t.gap ==> Waiting(w, g, m)
    requires i == m < |w.delivered| && !Arrived(w, m) && w'.delivered == w.delivered
    requires forall j :: 0 <= j < |w.delivered| ==> (Arrived(w', j) <==> Arrived(w, j) || j == i)
    ensures forall g :: g in t.gap ==> Waiting(w', g, m + 1)
  {
    forall g | g in t.gap ensures Waiting(w', g, m + 1) {
      var j :| m <= j < |w.delivered| && Arrived(w, j) && g == w.delivered[j];
      assert j != m && Arrived(w', j);
    }
  }

  // ---- the epoch as part of a run ----

  ghost predicate Exact(w: World, c: nat, m: nat) {
    && Live(w) && (w.phase.Granted? || w.phase.Owned?)
    && (forall g :: g in w.flight ==> g in w.delivered) && (w.delivered != [] ==> w.stamp.Some?)
    && Encodes(w, w.tracker.value, c, m) && Flagged(w, w.tracker.value, m)
    && (w.sending ==> m > c && CompletedPrefix(w, m))
  }

  /** Nothing is in flight, and a revoke marked what the tracker holds, or it holds nothing. */
  predicate Settled(w: World) {
    && w.flight == {}
    && (TrackerOf(w).assignment.Revoked? || (TrackerOf(w).ready.None? && TrackerOf(w).gap == []))
  }

  /** An assign of a settled partition, as after a completed drain, starts an exact epoch. */
  lemma AssignExact(w: World, b: int)
    requires Base(w) && Settled(w) && Can(w, ResetOnAssign(b))
    ensures Exact(Next(w, ResetOnAssign(b)), 0, 0)
  {
    ResetLive(w, b);
  }

  lemma DeliverEncodes(w: World, w': World, item: Item, t: Tracker, c: nat, m: nat)
    requires Encodes(w, t, c, m) && Unbroken(w'.delivered) && w'.epochStart == w.epochStart <= item.offset
    requires w'.delivered == w.delivered + [item] && w'.flight == w.flight + {item}
    ensures Encodes(w', t, c, m) && (Flagged(w, t, m) ==> Flagged(w', t, m))
    ensures CompletedPrefix(w, m) ==> CompletedPrefix(w', m)
  {
    var n := |w.delivered|;
    forall i | 0 <= i < n ensures w'.delivered[i] == w.delivered[i] && (Arrived(w', i) <==> Arrived(w, i)) {
      assert w'.delivered[i].offset < w'.delivered[n].offset;
    }
    assert !Arrived(w', n);
    forall g | g in t.gap ensures Waiting(w', g, m) {
      var j :| m <= j < n && Arrived(w, j) && g == w.delivered[j];
      assert Arrived(w', j) && g == w'.delivered[j];
    }
  }

  lemma UnbrokenGrows(d: seq<Item>, item: Item)
    requires Unbroken(d)
    requires if d == [] then item.first
             else !item.first && item.prev == d[|d| - 1].offset < item.offset
    ensures Unbroken(d + [item])
  {
  }

  /** With the stamp in place the next record is linked to the last one. */
  lemma DeliverLinks(w: World, o: int, at: int)
    requires Base(w) && Can(w, Deliver(o, at)) && (w.delivered != [] ==> w.stamp.Some?)
    ensures var item := StampItem(w, o, at);
      && w.epochStart <= item.offset
      && if w.delivered == [] then item.first
         else !item.first && item.prev == w.delivered[|w.delivered| - 1].offset < item.offset
  {
  }

  lemma DeliverExact(w: World, o: int, at: int, c: nat, m: nat)
    requires Exact(w, c, m) && Can(w, Deliver(o, at))
    ensures Exact(Next(w, Deliver(o, at)), c, m)
  {
    DeliverLive(w, o, at);
    var item := StampItem(w, o, at);
    DeliverLinks(w, o, at);
    UnbrokenGrows(w.delivered, item);
    DeliverEncodes(w, Next(w, Deliver(o, at)), item, w.tracker.value, c, m);
    FlightDelivered(w.flight, w.delivered, item);
  }

  lemma FlightDelivered(flight: set<Item>, d: seq<Item>, item: Item)
    requires forall g :: g in flight ==> g in d
    ensures forall g :: g in flight + {item} ==> g in d + [item]
  {
  }

  lemma CompleteExact(w: World, item: Item, c: nat, m: nat) returns (m': nat)
    requires Exact(w, c, m) && Can(w, Complete(item))
    ensures Exact(Next(w, Complete(item)), c, m')
  {
    assert item in w.delivered;
    CompleteLive(w, item);
    var i :| 0 <= i < |w.delivered| && w.delivered[i] == item;
    m' := ArriveEncodes(w, Next(w, Complete(item)), w.tracker.value, c, m, i);
  }

  lemma BatchExact(w: World, sorted: seq<Item>, c: nat, m: nat) returns (p: nat)
    requires Exact(w, c, m) && Can(w, BatchEnd(sorted))
    ensures Exact(Next(w, BatchEnd(sorted)), c, p) && CompletedPrefix(w, p)
  {
    BatchLive(w, sorted);
    p := FlushEncodes(w, w.tracker.value, c, m, sorted);
    SameEncodes(w, Next(w, BatchEnd(sorted)), Flush(w.tracker.value, sorted), c, p);
  }

  /** Encodes looks at the deliveries and at what is in flight, nothing else. */
  lemma SameEncodes(w: World, w': World, t: Tracker, c: nat, m: nat)
    requires Encodes(w, t, c, m)
    requires w'.delivered == w.delivered && w'.flight == w.flight && w'.epochStart == w.epochStart
    ensures Encodes(w', t, c, m)
    ensures CompletedPrefix(w, m) ==> CompletedPrefix(w', m)
  {
    assert forall i :: 0 <= i < |w.delivered| ==> (Arrived(w', i) <==> Arrived(w, i));
    forall g | g in t.gap ensures Waiting(w', g, m) {
      var j :| m <= j < |w.delivered| && Arrived(w, j) && g == w.delivered[j];
      assert Arrived(w', j);
    }
  }

  /** An owned tick sends a commit exactly when the completed prefix grew, and commits its end. */
  lemma TickBeginExact(w: World, sorted: seq<Item>, c: nat, m: nat) returns (p: nat)
    requires Exact(w, c, m) && w.phase.Owned? && Can(w, TickBegin(sorted))
    ensures var w' := Next(w, TickBegin(sorted));
      && Exact(w', c, p) && CompletedPrefix(w, p)
      && (w'.sending <==> p > c)
      && (w'.sending ==> w'.tracker.value.ready == Some(w.delivered[p - 1]))
  {
    var w' := Next(w, TickBegin(sorted));
    TickBeginLive(w, sorted);
    p := FlushEncodes(w, w.tracker.value, c, m, sorted);
    RepairInert(w, Flush(w.tracker.value, sorted), c, p);
    SameEncodes(w, w', w'.tracker.value, c, p);
  }

  lemma TickEndExact(w: World, outcome: Outcome, c: nat, m: nat) returns (c': nat)
    requires Exact(w, c, m) && Can(w, TickEnd(outcome))
    ensures Exact(Next(w, TickEnd(outcome)), c', m)
    ensures c' == if outcome.Accepted? then m else c
  {
    var w' := Next(w, TickEnd(outcome));
    TickEndLive(w, outcome);
    if outcome.Accepted? {
      c' := m;
      AcknowledgeEncodes(w, w.tracker.value, c, m);
    } else {
      c' := c;
    }
    SameEncodes(w, w', w'.tracker.value, c', m);
  }

  lemma OtherExact(w: World, s: Step, c: nat, m: nat)
    requires Exact(w, c, m) && Can(w, s)
    requires s.Append? || s.Remove? || s.MarkAssigned?
    ensures Exact(Next(w, s), c, m)
  {
    var w' := Next(w, s);
    StepLive(w, s);
    SameEncodes(w, w', w.tracker.value, c, m);
    if w.sending {
      assert CompletedPrefix(w, m);
    }
    assert Flagged(w', w.tracker.value, m);
  }

  /** A tick before the partition is marked finds nothing to discard. */
  lemma GrantedTickExact(w: World, sorted: seq<Item>, c: nat, m: nat)
    requires Exact(w, c, m) && w.phase.Granted? && Can(w, TickBegin(sorted))
    ensures Exact(Next(w, TickBegin(sorted)), c, m)
  {
    var w' := Next(w, TickBegin(sorted));
    TickBeginLive(w, sorted);
    HasMember(w.tracker.value.gap);
    SameEncodes(w, w', w'.tracker.value, c, m);
  }

  predicate WithinEpoch(s: Step) {
    || s.Append? || s.Remove? || s.MarkAssigned? || s.Deliver? || s.Complete?
    || s.BatchEnd? || s.TickBegin? || s.TickEnd?
  }

  lemma StepExact(w: World, s: Step, c: nat, m: nat) returns (c': nat, m': nat)
    requires Exact(w, c, m) && Can(w, s) && WithinEpoch(s)
    ensures Exact(Next(w, s), c', m')
  {
    c', m' := c, m;
    match s
    case Deliver(o, at) => DeliverExact(w, o, at, c, m);
    case Complete(item) => m' := CompleteExact(w, item, c, m);
    case BatchEnd(sorted) => m' := BatchExact(w, sorted, c, m);
    case TickBegin(sorted) =>
      if w.phase.Owned? {
        m' := TickBeginExact(w, sorted, c, m);
      } else {
        GrantedTickExact(w, sorted, c, m);
      }
    case TickEnd(outcome) => c' := TickEndExact(w, outcome, c, m);
    case _ => OtherExact(w, s, c, m);
  }

  lemma {:induction false} RunExact(w: World, steps: seq<Step>, w': World, c: nat, m: nat)
      returns (c': nat, m': nat)
    requires Exact(w, c, m) && Runs(w, steps, w') && forall s :: s in steps ==> WithinEpoch(s)
    ensures Exact(w', c', m')
    decreases |steps|
  {
    if steps == [] {
      c', m' := c, m;
    } else {
      assert steps[0] in steps;
      c', m' := StepExact(w, steps[0], c, m);
      c', m' := RunExact(Next(w, steps[0]), steps[1..], w', c', m');
    }
  }

  /** The commit candidate, or else the last committed record. */
  function Frontier(t: Tracker): int {
    if t.ready.Some? then t.ready.value.offset else t.last
  }

  /** The offset the first `p` deliveries end at, -1 for none. */
  function PrefixEnd(w: World, p: nat): int
    requires p <= |w.delivered|
  {
    if p == 0 then -1 else w.delivered[p - 1].offset
  }

  lemma ExactFrontier(w: World, c: nat, m: nat)
    requires Exact(w, c, m)
    ensures Frontier(w.tracker.value) == PrefixEnd(w, m)
  {
  }

  lemma EpochRun(w: World, b: int, steps: seq<Step>, v: World) returns (c: nat, m: nat)
    requires Base(w) && Settled(w) && Can(w, ResetOnAssign(b))
    requires Locked(Next(w, ResetOnAssign(b))) && Runs(Next(w, ResetOnAssign(b)), steps, v)
    requires forall s :: s in steps ==> WithinEpoch(s)
    ensures Exact(v, c, m)
  {
    AssignExact(w, b);
    c, m := RunExact(Next(w, ResetOnAssign(b)), steps, v, 0, 0);
  }

  /**
    Refinement of one epoch: after an assign of a settled partition, for every order of completions,
    every batching and every pattern of failed commits, the frontier at a batch boundary is exactly
    the end of the longest completed prefix of the delivered sequence.
   */
  lemma BatchBoundaryIsCompletedPrefix(w: World, b: int, steps: seq<Step>, v: World, sorted: seq<Item>)
      returns (p: nat)
    requires Base(w) && Settled(w) && Can(w, ResetOnAssign(b))
    requires Locked(Next(w, ResetOnAssign(b))) && Runs(Next(w, ResetOnAssign(b)), steps, v)
    requires forall s :: s in steps ==> WithinEpoch(s)
    requires Locked(v) && Can(v, BatchEnd(sorted))
    ensures CompletedPrefix(v, p)
    ensures Frontier(Next(v, BatchEnd(sorted)).tracker.value) == PrefixEnd(v, p)
  {
    var c, m := EpochRun(w, b, steps, v);
    p := BatchExact(v, sorted, c, m);
    ExactFrontier(Next(v, BatchEnd(sorted)), c, p);
  }

  /**
    A tick of such an epoch commits exactly the end of the longest completed prefix, and sends nothing
    exactly when that prefix is already committed. The repair has no part in it.
   */
  lemma TickCommitsCompletedPrefix(w: World, b: int, steps: seq<Step>, v: World, sorted: seq<Item>)
      returns (p: nat)
    requires Base(w) && Settled(w) && Can(w, ResetOnAssign(b))
    requires Locked(Next(w, ResetOnAssign(b))) && Runs(Next(w, ResetOnAssign(b)), steps, v)
    requires forall s :: s in steps ==> WithinEpoch(s)
    requires Locked(v) && v.phase.Owned? && Can(v, TickBegin(sorted))
    ensures CompletedPrefix(v, p)
    ensures Next(v, TickBegin(sorted)).sending <==> TrackerOf(v).last != PrefixEnd(v, p)
    ensures Frontier(Next(v, TickBegin(sorted)).tracker.value) == PrefixEnd(v, p)
    ensures Prepared(v, sorted) == Flush(TrackerOf(v), sorted)
  {
    var c, m := EpochRun(w, b, steps, v);
    p := TickBeginExact(v, sorted, c, m);
    var q := FlushEncodes(v, v.tracker.value, c, m, sorted);
    RepairInert(v, Flush(v.tracker.value, sorted), c, q);
  }
}
