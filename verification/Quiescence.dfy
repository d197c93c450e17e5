/**
  What accepted ticks leave behind once everything delivered is completed: when exactly the tracker ends up
  empty, what it holds otherwise, and that baseline, last commit and broker position agree.
 */
module Quiescence {
  import opened WorkItems
  import opened GapOrder
  import opened PartitionTracker
  import opened PartitionWorld
  import opened Soundness
  import opened Liveness
  import opened Progress
  import opened Canonical

  /** An accepted tick as the tracker of an owned partition sees it. */
  function Committed(t: Tracker, sorted: seq<Item>): Tracker {
    var c := Collect(Flush(t, sorted));
    if c.ready.Some? then Acknowledge(c) else c
  }

  lemma TickTracker(w: World, sorted: seq<Item>)
    requires Tickable(w) && Can(w, TickBegin(sorted))
    ensures Tick(w, sorted).tracker == Some(Committed(w.tracker.value, sorted))
  {
  }

  /** Nothing is left for a tick to do. */
  predicate Fixed(t: Tracker) {
    t.ready.None? && !t.flag && (t.last >= 0 ==> Successor(t.gap, t.cpo, t.last).None?)
  }

  lemma FixedStays(t: Tracker, sorted: seq<Item>)
    requires Fixed(t)
    ensures Committed(t, sorted) == t
  {
  }

  lemma CollectHolds(t: Tracker)
    requires !t.flag
    ensures var c := Collect(t);
      && (c.ready.Some? ==> Held(c) <= Held(t))
      && (c.ready.None? ==> Held(c) < Held(t) || (c == t && Fixed(t)))
  {
    SuccessorProvable(t.gap, t.cpo, t.last);
    var s := Successor(t.gap, t.cpo, t.last);
    if Stalled(t) && s.Some? {
      AboveShrinks(t.gap, s.value);
    }
  }

  /** Every accepted tick retires a held item, or finds nothing left to do; no assumption on the run. */
  lemma SettlesOrFalls(t: Tracker, sorted: seq<Item>)
    requires Arranged(t.gap, sorted)
    ensures Held(Committed(t, sorted)) < Held(t) || Fixed(Committed(t, sorted))
  {
    FlushHeld(t, sorted);
    FlushFrame(t, sorted);
    CollectHolds(Flush(t, sorted));
  }

  lemma {:induction false} FixedTicks(w: World, sorts: seq<seq<Item>>, u: World)
    requires Tickable(w) && Ticks(w, sorts, u) && Fixed(w.tracker.value)
    ensures u.tracker == w.tracker
    decreases |sorts|
  {
    if sorts != [] {
      TickLive(w, sorts[0]);
      TickTracker(w, sorts[0]);
      FixedStays(w.tracker.value, sorts[0]);
      FixedTicks(Tick(w, sorts[0]), sorts[1..], u);
    }
  }

  lemma {:induction false} TicksSettle(w: World, sorts: seq<seq<Item>>, u: World)
    requires Tickable(w) && Ticks(w, sorts, u) && |sorts| > Held(w.tracker.value)
    ensures u.tracker.Some? && Fixed(u.tracker.value)
    decreases |sorts|
  {
    var v := Tick(w, sorts[0]);
    TickLive(w, sorts[0]);
    TickTracker(w, sorts[0]);
    SettlesOrFalls(w.tracker.value, sorts[0]);
    if Fixed(v.tracker.value) {
      FixedTicks(v, sorts[1..], u);
    } else {
      TicksSettle(v, sorts[1..], u);
    }
  }

  /** What a settled tracker still holds: orphans above everything delivered, stamped above the last commit. */
  ghost predicate Leftover(w: World, g: Item)
    requires w.delivered != [] && w.tracker.Some?
  {
    g.offset > LastDelivered(w) && g !in w.delivered && g.prev > w.tracker.value.last
  }

  lemma SettledHolds(w: World)
    requires Tickable(w) && w.delivered != [] && AllArrived(w) && Fixed(w.tracker.value)
    ensures var t := w.tracker.value;
      && t.last >= LastDelivered(w) && t.cpo == t.last + 1
      && (forall g :: g in t.gap ==> Leftover(w, g))
  {
    var t := w.tracker.value;
    assert Arrived(w, 0);
    EpochCommitted(w, t);
    if t.last < LastDelivered(w) {
      UncommittedIsProvable(w, t);
    }
    SuccessorProvable(t.gap, t.cpo, t.last);
    forall g | g in t.gap ensures Leftover(w, g) {
      assert !Provable(g, t.cpo, t.last) && StampTrue(w.log, g);
    }
  }

  // ---- the exact condition ----

  /**
    A cut: something is buffered above `c`, and no latest-read buffered item above `c` is stamped at or
    below it, while Ready, the last commit and the baseline are no further than `c`.
   */
  ghost predicate Cut(t: Tracker, c: int) {
    && c >= t.last && c >= t.cpo - 1 && (t.ready.Some? ==> c >= t.ready.value.offset)
    && (exists g :: g in t.gap && g.offset > c)
    && (forall g :: Latest(t.gap, g) && g.offset > c ==> g.prev > c)
  }

  predicate Distinct(gap: seq<Item>) {
    forall a, b :: a in gap && b in gap && a.offset == b.offset ==> a == b
  }

  /** The next repair will not look at twins that a flush would have removed. */
  predicate Settling(t: Tracker) {
    Stalled(t) ==> Distinct(t.gap) || Successor(t.gap, t.cpo, t.last).None?
  }

  predicate Backward(gap: seq<Item>) {
    forall g :: g in gap ==> g.prev < g.offset
  }

  /** Ready, last commit and baseline are no further than `c`. */
  predicate Within(t: Tracker, c: int) {
    t.last <= c && t.cpo <= c + 1 && (t.ready.Some? ==> t.ready.value.offset <= c)
  }

  predicate Beyond(gap: seq<Item>, c: int) {
    forall g :: g in gap && g.offset > c ==> g.prev > c
  }

  lemma {:induction false} WalkStuck(t: Tracker, buffer: seq<Item>, c: int)
    requires Within(t, c) && Backward(buffer) && Beyond(buffer, c)
    ensures Within(Walk(t, buffer), c)
    ensures forall g :: g in buffer && g.offset > c ==> g in Walk(t, buffer).gap
    decreases |buffer|
  {
    if buffer != [] && Passes(t, buffer[0]) {
      assert buffer[0] in buffer;
      assert Backward(buffer[1..]) && Beyond(buffer[1..], c);
      WalkStuck(Take(t, buffer[0]), buffer[1..], c);
    }
  }

  lemma StrictIsDistinct(s: seq<Item>)
    requires StrictlyIncreasing(s)
    ensures Distinct(s)
  {
    forall a, b | a in s && b in s && a.offset == b.offset ensures a == b {
      UniqueAt(s, a, b);
    }
  }

  lemma SurvivorsBeyond(t: Tracker, sorted: seq<Item>, c: int)
    requires Cut(t, c) && Backward(t.gap) && Arranged(t.gap, sorted)
    ensures Beyond(Compact(sorted), c) && Backward(Compact(sorted))
    ensures exists g :: g in Compact(sorted) && g.offset > c
  {
    ArrangedMembers(t.gap, sorted);
    CompactMembers(sorted);
    forall g | g in Compact(sorted) && g.offset > c ensures g.prev > c {
      SurvivorIsLatest(t.gap, sorted, g);
    }
    var g :| g in t.gap && g.offset > c;
    var i :| 0 <= i < |sorted| && sorted[i] == g;
    CompactKeepsLatest(sorted, i);
    var k :| k in Compact(sorted) && k.offset == g.offset;
  }

  lemma FlushStuck(t: Tracker, sorted: seq<Item>, c: int)
    requires Cut(t, c) && Backward(t.gap) && Arranged(t.gap, sorted) && t.flag
    ensures var u := Flush(t, sorted);
      && Within(u, c) && Beyond(u.gap, c) && Backward(u.gap) && Distinct(u.gap) && !u.flag
      && (exists g :: g in u.gap && g.offset > c)
  {
    var s := t.(flag := false, dropped := t.dropped + Dropped(sorted));
    SurvivorsBeyond(t, sorted, c);
    WalkStuck(s, Compact(sorted), c);
    WalkKeeps(s, Compact(sorted));
    CompactStrict(sorted);
    WalkLeavesSuffix(s, Compact(sorted));
    StrictIsDistinct(Flush(t, sorted).gap);
  }

  lemma DistinctIsLatest(gap: seq<Item>, g: Item)
    requires Distinct(gap) && g in gap
    ensures Latest(gap, g)
  {
  }

  lemma CollectStuck(t: Tracker, c: int)
    requires Within(t, c) && Backward(t.gap) && !t.flag
    requires exists g :: g in t.gap && g.offset > c
    requires Stalled(t) ==> Beyond(t.gap, c) || Successor(t.gap, t.cpo, t.last).None?
    ensures var u := Collect(t);
      && Within(u, c) && Backward(u.gap) && (u == t || u.flag || u.ready.Some?)
      && (forall g :: g in t.gap && g.offset > c ==> g in u.gap) && (forall g :: g in u.gap ==> g in t.gap)
      && (u.ready.None? ==> Settling(u))
  {
    SuccessorProvable(t.gap, t.cpo, t.last);
    RepairFrame(t);
    var s := Successor(t.gap, t.cpo, t.last);
    if Stalled(t) && s.Some? {
      assert s.value.prev < s.value.offset;
      AboveMembers(t.gap, s.value);
    }
  }

  /** Dropping items at or below the cut keeps it. */
  lemma CutCarries(t: Tracker, u: Tracker, c: int)
    requires Within(u, c) && (forall g :: g in u.gap ==> g in t.gap)
    requires forall g :: g in t.gap && g.offset > c ==> g in u.gap
    requires exists g :: g in t.gap && g.offset > c
    requires Beyond(t.gap, c) || (forall g :: Latest(t.gap, g) && g.offset > c ==> g.prev > c)
    ensures Cut(u, c)
  {
    forall g | Latest(u.gap, g) && g.offset > c ensures g.prev > c {
      if !Beyond(t.gap, c) {
        assert Latest(t.gap, g);
      }
    }
  }

  lemma TickStuck(t: Tracker, sorted: seq<Item>, c: int)
    requires Cut(t, c) && Settling(t) && Backward(t.gap) && Arranged(t.gap, sorted)
    ensures var v := Committed(t, sorted); Cut(v, c) && Settling(v) && Backward(v.gap)
  {
    var u := Flush(t, sorted);
    if t.flag {
      FlushStuck(t, sorted, c);
    } else if Stalled(t) && Distinct(t.gap) {
      forall g | g in t.gap && g.offset > c ensures g.prev > c {
        DistinctIsLatest(t.gap, g);
      }
    }
    CollectStuck(u, c);
    CutCarries(u, Committed(t, sorted), c);
  }

  lemma {:induction false} TicksStuck(w: World, sorts: seq<seq<Item>>, u: World, c: int)
    requires Tickable(w) && Ticks(w, sorts, u)
    requires Cut(w.tracker.value, c) && Settling(w.tracker.value)
    ensures u.tracker.Some? && Cut(u.tracker.value, c)
    decreases |sorts|
  {
    if sorts != [] {
      forall g | g in w.tracker.value.gap ensures g.prev < g.offset {
        assert StampTrue(w.log, g);
      }
      TickLive(w, sorts[0]);
      TickTracker(w, sorts[0]);
      TickStuck(w.tracker.value, sorts[0], c);
      TicksStuck(Tick(w, sorts[0]), sorts[1..], u, c);
    }
  }

  // ---- the other direction: what is left cuts ----

  predicate Past(t: Tracker, x: int) {
    x <= t.last || x < t.cpo || (t.ready.Some? && x <= t.ready.value.offset)
  }

  /** `v` is what ticks made of `t`: nothing new is buffered, nothing latest-read is lost unless passed. */
  ghost predicate Follows(t: Tracker, v: Tracker) {
    && v.last >= t.last && v.cpo >= t.cpo
    && (t.ready.Some? ==> Past(v, t.ready.value.offset))
    && (forall g :: g in v.gap ==> g in t.gap)
    && (forall g :: Latest(t.gap, g) ==> g in v.gap || Past(v, g.offset))
  }

  lemma FlushFollows(t: Tracker, v: Tracker, sorted: seq<Item>)
    requires Follows(t, v) && NoTies(t.gap) && Arranged(v.gap, sorted)
    ensures Follows(t, Flush(v, sorted))
  {
    FlushFrame(v, sorted);
    if v.flag && v.gap != [] {
      ArrangedMembers(v.gap, sorted);
      WalkKeeps(v.(flag := false, dropped := v.dropped + Dropped(sorted)), Compact(sorted));
      forall g | Latest(t.gap, g) ensures g in Flush(v, sorted).gap || Past(Flush(v, sorted), g.offset) {
        if g in v.gap {
          LatestSurvives(sorted, g);
        }
      }
    }
  }

  lemma CommittedFollows(t: Tracker, v: Tracker, sorted: seq<Item>)
    requires Follows(t, v) && NoTies(t.gap) && Arranged(v.gap, sorted)
    ensures Follows(t, Committed(v, sorted))
  {
    FlushFollows(t, v, sorted);
    CollectFollows(t, Flush(v, sorted));
    AcknowledgeFollows(t, Collect(Flush(v, sorted)));
  }

  lemma CollectFollows(t: Tracker, v: Tracker)
    requires Follows(t, v)
    ensures Follows(t, Collect(v))
  {
    RepairFrame(v);
  }

  lemma AcknowledgeFollows(t: Tracker, v: Tracker)
    requires Follows(t, v)
    ensures v.ready.Some? ==> Follows(t, Acknowledge(v))
  {
  }

  lemma {:induction false} TicksFollow(t: Tracker, w: World, sorts: seq<seq<Item>>, u: World)
    requires Tickable(w) && Ticks(w, sorts, u) && Follows(t, w.tracker.value) && NoTies(t.gap)
    ensures u.tracker.Some? && Follows(t, u.tracker.value)
    decreases |sorts|
  {
    if sorts != [] {
      TickLive(w, sorts[0]);
      TickTracker(w, sorts[0]);
      CommittedFollows(t, w.tracker.value, sorts[0]);
      TicksFollow(t, Tick(w, sorts[0]), sorts[1..], u);
    }
  }

  lemma LeftoverCuts(t: Tracker, u: Tracker)
    requires Follows(t, u) && u.ready.None? && u.last >= 0 && u.cpo == u.last + 1 && u.gap != []
    requires forall g :: g in u.gap ==> g.offset > u.last && g.prev > u.last
    ensures Cut(t, u.last)
  {
    assert u.gap[0] in u.gap;
  }

  predicate Empty(w: World) {
    w.tracker.Some? && w.tracker.value.ready.None? && w.tracker.value.gap == []
  }

  /**
    Quiescence, exactly: with everything delivered completed, one more accepted tick than there are held
    items leaves Ready and the buffer empty if and only if the tracker has no cut. Whatever is left are
    orphans above the last delivery, stamped above the last commit.
   */
  lemma QuiescentExactly(w: World, sorts: seq<seq<Item>>, u: World)
    requires Tickable(w) && Ticks(w, sorts, u) && |sorts| > Held(w.tracker.value)
    requires w.delivered != [] && AllArrived(w)
    requires NoTies(w.tracker.value.gap) && Settling(w.tracker.value)
    ensures Empty(u) <==> forall c :: !Cut(w.tracker.value, c)
    ensures Tickable(u) && SameStream(w, u) && Fixed(u.tracker.value)
    ensures forall g :: g in u.tracker.value.gap ==> Leftover(u, g)
  {
    var t := w.tracker.value;
    TicksFrame(w, sorts, u);
    TicksSettle(w, sorts, u);
    SameArrived(w, u);
    SettledHolds(u);
    TicksFollow(t, w, sorts, u);
    if !Empty(u) {
      assert u.delivered[|u.delivered| - 1].offset >= u.epochStart;
      LeftoverCuts(t, u.tracker.value);
    }
    forall c | Cut(t, c) ensures !Empty(u) {
      TicksStuck(w, sorts, u, c);
    }
  }

  /** Any one tick makes the condition apply. */
  lemma TickSettles(t: Tracker, sorted: seq<Item>)
    requires Arranged(t.gap, sorted)
    ensures Settling(Committed(t, sorted))
  {
    FlushFrame(t, sorted);
    var u := Flush(t, sorted);
    SuccessorProvable(u.gap, u.cpo, u.last);
  }

  /** Below the last delivery, the lowest delivery above `c` is buffered and stamped at or below `c`. */
  lemma DeliveryLinks(w: World, c: int) returns (g: Item)
    requires Tickable(w) && w.delivered != [] && AllArrived(w)
    requires Within(w.tracker.value, c) && c < LastDelivered(w)
    ensures Latest(w.tracker.value.gap, g) && g.offset > c && g.prev <= c
  {
    var t := w.tracker.value;
    var k := LeastAbove(w.delivered, c);
    g := w.delivered[k];
    assert Arrived(w, k) && Kept(t, g);
    assert StampTrue(w.log, g);
    forall h | h in t.gap && h.offset == g.offset ensures h.readTime <= g.readTime {
      assert Dated(w, h) && Dated(w, g);
    }
  }

  /** A cut lies at or above everything delivered. */
  lemma CutAbove(w: World, c: int)
    requires Tickable(w) && w.delivered != [] && AllArrived(w) && Cut(w.tracker.value, c)
    ensures c >= LastDelivered(w)
  {
    if c < LastDelivered(w) {
      var g := DeliveryLinks(w, c);
    }
  }

  /** So with nothing buffered above the last delivery the ticks leave nothing behind. */
  lemma NothingAbove(w: World)
    requires Tickable(w) && w.delivered != [] && AllArrived(w)
    requires forall g :: g in w.tracker.value.gap ==> g.offset <= LastDelivered(w)
    ensures forall c :: !Cut(w.tracker.value, c)
  {
    forall c ensures !Cut(w.tracker.value, c) {
      if Cut(w.tracker.value, c) {
        CutAbove(w, c);
      }
    }
  }
}
