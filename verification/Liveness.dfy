/**
  What rules out a permanent stall: every completed delivery stays within reach of the walk or the repair,
  whatever orphans, stale Firsts, cleared stamps, rewinds and unrevoked assigns the run holds. The one thing
  that breaks it is a tick that throws an epoch's anchor away before the partition is marked.
 */
module Liveness {
  import opened WorkItems
  import opened GapOrder
  import opened PartitionTracker
  import opened PartitionWorld
  import opened Soundness

  /** One epoch's records in the order read: a First, then each another First or stamped with the one before. */
  predicate Chain(d: seq<Item>) {
    && (d != [] ==> d[0].first)
    && (forall i :: 0 < i < |d| && !d[i].first ==> d[i].prev == d[i - 1].offset)
    && StrictlyIncreasing(d)
  }

  /** No record of this epoch lies in [epochStart, x). */
  ghost predicate Low(w: World, x: int) {
    forall r :: r in w.seen ==> !(w.epochStart <= r < x)
  }

  /** Read in this epoch exactly when delivered in it; orphans were read before it began. */
  ghost predicate Dated(w: World, g: Item) {
    && g.readTime <= w.clock
    && (g in w.delivered <==> g.readTime >= w.epochClock)
  }

  ghost predicate Stream(w: World) {
    && Chain(w.delivered)
    && (forall i :: 0 <= i < |w.delivered| ==>
          w.delivered[i].offset in w.seen && w.epochStart <= w.delivered[i].offset < w.fetch)
    && (w.delivered == [] ==> w.stamp.None? && w.fetch == w.epochStart)
    && (w.delivered != [] && w.stamp.Some? ==> w.stamp.value == w.delivered[|w.delivered| - 1].offset)
    && 0 <= w.epochStart && w.epochClock <= w.clock
    && (forall g :: g in w.flight ==> Dated(w, g))
  }

  predicate Arrived(w: World, i: nat)
    requires i < |w.delivered|
  {
    w.delivered[i] !in w.flight
  }

  // ---- the tracker's part ----

  predicate HasOffset(gap: seq<Item>, x: int) {
    exists i :: 0 <= i < |gap| && gap[i].offset == x
  }

  /** The baseline follows the last commit, is held by Ready, or has its completion buffered. */
  predicate Grip(t: Tracker) {
    || (t.last >= 0 && t.cpo == t.last + 1)
    || (t.ready.Some? && t.ready.value.offset >= t.cpo)
    || HasOffset(t.gap, t.cpo)
  }

  /** Nothing is committed at or above the baseline. */
  predicate Lead(t: Tracker) {
    t.last < 0 || t.last < t.cpo
  }

  /** With Ready empty and no flush pending, nothing buffered is at or below the baseline. */
  predicate Quick(t: Tracker) {
    t.ready.None? && !t.flag ==> forall g :: g in t.gap ==> g.offset > t.cpo
  }

  /** A completion is committed, at or below Ready, below the baseline, or buffered. */
  predicate Kept(t: Tracker, g: Item) {
    || g.offset <= t.last
    || (t.ready.Some? && g.offset <= t.ready.value.offset)
    || g.offset < t.cpo
    || g in t.gap
  }

  /** The baseline is gripped, or lies below everything this epoch holds. */
  ghost predicate Anchored(w: World, t: Tracker) {
    Grip(t) || Low(w, t.cpo)
  }

  /** The tracker of a partition that is granted or owned. */
  ghost predicate Tracks(w: World, t: Tracker) {
    && Lead(t) && Quick(t) && Anchored(w, t)
    && (forall g :: g in t.gap ==> Dated(w, g))
    && (forall i :: 0 <= i < |w.delivered| && w.delivered[i].first && Arrived(w, i) ==> t.cpo >= w.delivered[i].offset)
    && (forall i :: 0 <= i < |w.delivered| && Arrived(w, i) ==> Kept(t, w.delivered[i]))
    && (t.last >= 0 ==> t.last < w.pos)
  }

  /** What holds whatever became of the epoch's anchor; every step keeps it. */
  ghost predicate Base(w: World) {
    && Sound(w) && Stream(w)
    && (w.tracker.None? ==> w.phase.Away? && w.flight == {})
    && (w.tracker.Some? ==> forall g :: g in w.tracker.value.gap ==> Dated(w, g))
    && (w.sending ==> w.tracker.value.ready.value.offset >= w.tracker.value.cpo)
    && (w.phase.Granted? ==> w.delivered == [] && w.tracker.value.last < 0)
  }

  predicate Ours(p: Phase) {
    p.Granted? || p.Owned?
  }

  ghost predicate Live(w: World) {
    Base(w) && (Ours(w.phase) ==> Tracks(w, w.tracker.value))
  }

  lemma HasMemberAt(gap: seq<Item>, g: Item)
    requires g in gap
    ensures HasOffset(gap, g.offset)
  {
  }

  lemma HasOffsetGrows(gap: seq<Item>, g: Item, x: int)
    ensures HasOffset(gap + [g], x) <==> HasOffset(gap, x) || g.offset == x
  {
    if HasOffset(gap, x) {
      var i :| 0 <= i < |gap| && gap[i].offset == x;
      assert (gap + [g])[i].offset == x;
    }
    if g.offset == x {
      assert (gap + [g])[|gap|].offset == x;
    }
  }

  lemma CompactHasOffset(gap: seq<Item>, sorted: seq<Item>, x: int)
    requires Arranged(gap, sorted) && HasOffset(gap, x)
    ensures HasOffset(Compact(sorted), x)
  {
    ArrangedMembers(gap, sorted);
    var j :| 0 <= j < |gap| && gap[j].offset == x;
    assert gap[j] in sorted;
    var i :| 0 <= i < |sorted| && sorted[i] == gap[j];
    CompactKeepsLatest(sorted, i);
    var k :| k in Compact(sorted) && k.offset == x;
    HasMemberAt(Compact(sorted), k);
  }

  lemma QuickExcludes(t: Tracker)
    requires Quick(t) && t.ready.None? && !t.flag
    ensures !HasOffset(t.gap, t.cpo)
  {
    forall i | 0 <= i < |t.gap| ensures t.gap[i].offset > t.cpo {
      assert t.gap[i] in t.gap;
    }
  }

  // ---- arrivals ----

  lemma ArriveGrip(t: Tracker, item: Item)
    requires item.prev < item.offset
    ensures Grip(t) || Arrive(t, item).cpo != t.cpo ==> Grip(Arrive(t, item))
  {
    HasOffsetGrows(t.gap, item, t.cpo);
    HasOffsetGrows(t.gap, item, item.offset);
  }

  lemma ArriveQuick(t: Tracker, item: Item)
    requires Quick(t)
    ensures Quick(Arrive(t, item))
  {
  }

  lemma ArriveKeeps(t: Tracker, item: Item, g: Item)
    requires (Kept(t, g) || g == item) && item.prev < item.offset
    ensures Kept(Arrive(t, item), g)
  {
    var u := Arrive(t, item);
    if g in t.gap {
      assert g in u.gap;
    }
    if u.gap == t.gap + [item] {
      assert item in u.gap;
    }
  }

  lemma CompleteStream(w: World, item: Item)
    requires Base(w) && Can(w, Complete(item))
    ensures Stream(Next(w, Complete(item)))
  {
    var w' := Next(w, Complete(item));
    forall g | g in w'.flight ensures Dated(w', g) {
      assert Dated(w, g);
    }
  }

  lemma CompleteBase(w: World, item: Item)
    requires Base(w) && Can(w, Complete(item))
    ensures Base(Next(w, Complete(item)))
  {
    CompleteSound(w, item);
    CompleteStream(w, item);
    assert Dated(w, item);
    ArriveFrame(TrackerOf(w), item);
  }

  lemma CompleteTracks(w: World, item: Item)
    requires Live(w) && Ours(w.phase) && Can(w, Complete(item))
    ensures Tracks(Next(w, Complete(item)), Arrive(w.tracker.value, item))
  {
    var w', t := Next(w, Complete(item)), w.tracker.value;
    assert StampTrue(w.log, item) && Dated(w, item);
    ArriveFrame(t, item);
    ArriveGrip(t, item);
    ArriveQuick(t, item);
    assert Low(w, t.cpo) ==> Low(w', t.cpo);
    forall i | 0 <= i < |w.delivered| && Arrived(w', i)
      ensures Kept(Arrive(t, item), w.delivered[i])
      ensures w.delivered[i].first ==> Arrive(t, item).cpo >= w.delivered[i].offset
    {
      ArriveKeeps(t, item, w.delivered[i]);
    }
    forall g | g in Arrive(t, item).gap ensures Dated(w', g) {
      assert Dated(w, g);
    }
  }

  lemma CompleteLive(w: World, item: Item)
    requires Live(w) && Can(w, Complete(item))
    ensures Live(Next(w, Complete(item)))
  {
    CompleteBase(w, item);
    if Ours(w.phase) {
      CompleteTracks(w, item);
    }
  }

  // ---- flushes ----

  lemma {:induction false} WalkFinds(t: Tracker, buffer: seq<Item>)
    requires StrictlyIncreasing(buffer) && HasOffset(buffer, t.cpo)
    ensures Walk(t, buffer).ready.Some?
    decreases |buffer|
  {
    if t.ready.Some? {
      WalkKeeps(t, buffer);
    } else if buffer[0].offset < t.cpo {
      var i :| 0 <= i < |buffer| && buffer[i].offset == t.cpo;
      assert buffer[1..][i - 1].offset == t.cpo;
      WalkFinds(Return(t, buffer[0]), buffer[1..]);
    } else {
      WalkKeeps(Take(t, buffer[0]), buffer[1..]);
    }
  }

  /** A walk that leaves Ready empty has pruned everything below the baseline. */
  lemma {:induction false} WalkClears(t: Tracker, buffer: seq<Item>)
    requires StrictlyIncreasing(buffer) && Walk(t, buffer).ready.None?
    ensures forall g :: g in Walk(t, buffer).gap ==> g.offset > t.cpo
    decreases |buffer|
  {
    if buffer != [] {
      if Passes(t, buffer[0]) {
        WalkKeeps(Take(t, buffer[0]), buffer[1..]);
        WalkClears(Take(t, buffer[0]), buffer[1..]);
      } else {
        assert t.ready.None? && buffer[0].offset > t.cpo;
      }
    }
  }

  lemma FlushQuick(t: Tracker, sorted: seq<Item>)
    requires Quick(t) && Arranged(t.gap, sorted)
    ensures Quick(Flush(t, sorted))
  {
    if t.flag && t.gap != [] {
      CompactStrict(sorted);
      var s := t.(flag := false, dropped := t.dropped + Dropped(sorted));
      WalkKeeps(s, Compact(sorted));
      if Walk(s, Compact(sorted)).ready.None? {
        WalkClears(s, Compact(sorted));
      }
    }
  }

  /** An item of every offset outlives a flush, or the walk went past it. */
  lemma FlushReaches(t: Tracker, sorted: seq<Item>, x: int)
    requires Arranged(t.gap, sorted) && HasOffset(t.gap, x) && x >= t.cpo
    ensures var u := Flush(t, sorted);
      HasOffset(u.gap, x) || (u.ready.Some? && u.ready.value.offset >= x)
  {
    if t.flag && t.gap != [] {
      var s := t.(flag := false, dropped := t.dropped + Dropped(sorted));
      CompactHasOffset(t.gap, sorted, x);
      var i :| 0 <= i < |Compact(sorted)| && Compact(sorted)[i].offset == x;
      assert Compact(sorted)[i] in Compact(sorted);
      WalkKeeps(s, Compact(sorted));
      if Compact(sorted)[i] in Walk(s, Compact(sorted)).gap {
        HasMemberAt(Walk(s, Compact(sorted)).gap, Compact(sorted)[i]);
      }
    }
  }

  lemma FlushGrip(t: Tracker, sorted: seq<Item>)
    requires Grip(t) && Arranged(t.gap, sorted)
    ensures Grip(Flush(t, sorted))
  {
    FlushFrame(t, sorted);
    if HasOffset(t.gap, t.cpo) {
      FlushReaches(t, sorted, t.cpo);
    }
  }

  /** A delivered item outlives de-duplication: its twins are orphans, read before this epoch. */
  lemma DeliveredSurvives(w: World, t: Tracker, sorted: seq<Item>, i: nat)
    requires Stream(w) && (forall g :: g in t.gap ==> Dated(w, g)) && Arranged(t.gap, sorted)
    requires i < |w.delivered| && w.delivered[i] in t.gap
    ensures w.delivered[i] in Compact(sorted)
  {
    var g := w.delivered[i];
    ArrangedMembers(t.gap, sorted);
    forall h | h in sorted && h.offset == g.offset && h != g ensures h.readTime < g.readTime {
      assert Dated(w, h) && Dated(w, g);
      if h in w.delivered {
        assert false;
      }
    }
    LatestSurvives(sorted, g);
  }

  lemma FlushKeeps(w: World, t: Tracker, sorted: seq<Item>, i: nat)
    requires Stream(w) && Tracks(w, t) && Arranged(t.gap, sorted)
    requires i < |w.delivered| && Arrived(w, i)
    ensures Kept(Flush(t, sorted), w.delivered[i])
  {
    assert Kept(t, w.delivered[i]);
    if t.flag && t.gap != [] {
      WalkKeeps(t.(flag := false, dropped := t.dropped + Dropped(sorted)), Compact(sorted));
      if w.delivered[i] in t.gap {
        DeliveredSurvives(w, t, sorted, i);
      }
    }
  }

  lemma FlushTracks(w: World, t: Tracker, sorted: seq<Item>)
    requires Stream(w) && Tracks(w, t) && Arranged(t.gap, sorted)
    ensures Tracks(w, Flush(t, sorted))
  {
    FlushFrame(t, sorted);
    FlushQuick(t, sorted);
    if Grip(t) {
      FlushGrip(t, sorted);
    }
    forall i | 0 <= i < |w.delivered| && Arrived(w, i) ensures Kept(Flush(t, sorted), w.delivered[i]) {
      FlushKeeps(w, t, sorted, i);
    }
  }

  // ---- ticks ----

  lemma CollectFrame(t: Tracker)
    ensures var u := Collect(t);
      && u.last == t.last && u.cpo == t.cpo
      && (forall g :: g in u.gap ==> g in t.gap)
      && (u.ready.Some? ==> u.ready.value.offset >= u.cpo)
      && (Grip(t) ==> Grip(u)) && (Quick(t) ==> Quick(u))
  {
    RepairFrame(t);
  }

  lemma CollectKeeps(t: Tracker, g: Item)
    requires Kept(t, g)
    ensures Kept(Collect(t), g)
  {
    RepairFrame(t);
  }

  lemma CollectTracks(w: World, t: Tracker)
    requires Stream(w) && Tracks(w, t)
    ensures Tracks(w, Collect(t))
  {
    CollectFrame(t);
    forall i | 0 <= i < |w.delivered| && Arrived(w, i) ensures Kept(Collect(t), w.delivered[i]) {
      CollectKeeps(t, w.delivered[i]);
    }
  }

  /** The tracker, the mutex and the position are no part of the stream. */
  predicate SameStream(w: World, w': World) {
    w' == w.(tracker := w'.tracker, sending := w'.sending, pos := w'.pos)
  }

  lemma StreamSame(w: World, w': World)
    requires SameStream(w, w')
    ensures Stream(w) ==> Stream(w')
    ensures forall g :: Dated(w, g) ==> Dated(w', g)
    ensures forall x :: Low(w, x) ==> Low(w', x)
  {
    forall g | Dated(w, g) ensures Dated(w', g) {
    }
  }

  lemma TracksSame(w: World, w': World, t: Tracker)
    requires SameStream(w, w') && Tracks(w, t) && (t.last >= 0 ==> t.last < w'.pos)
    ensures Tracks(w', t)
  {
    StreamSame(w, w');
    assert forall i :: 0 <= i < |w.delivered| ==> (Arrived(w', i) <==> Arrived(w, i));
  }

  /** Only the tracker, the mutex and the position changed. */
  lemma TrackerStepBase(w: World, w': World)
    requires Base(w) && Sound(w') && SameStream(w, w') && w'.tracker.Some?
    requires w'.sending ==> w'.tracker.value.ready.value.offset >= w'.tracker.value.cpo
    requires forall g :: g in w'.tracker.value.gap ==> Dated(w, g)
    requires w.phase.Granted? ==> w'.tracker.value.last < 0
    ensures Base(w')
  {
    StreamSame(w, w');
  }

  lemma BatchBase(w: World, sorted: seq<Item>)
    requires Base(w) && Can(w, BatchEnd(sorted))
    ensures Base(Next(w, BatchEnd(sorted)))
  {
    StepSound(w, BatchEnd(sorted));
    FlushFrame(w.tracker.value, sorted);
    TrackerStepBase(w, Next(w, BatchEnd(sorted)));
  }

  lemma BatchLive(w: World, sorted: seq<Item>)
    requires Live(w) && Can(w, BatchEnd(sorted))
    ensures Live(Next(w, BatchEnd(sorted)))
  {
    var w' := Next(w, BatchEnd(sorted));
    BatchBase(w, sorted);
    if Ours(w.phase) {
      FlushTracks(w, w.tracker.value, sorted);
      FlushFrame(w.tracker.value, sorted);
      TracksSame(w, w', w'.tracker.value);
    }
  }

  /** A tick between the reset and the mark discards what anchors an epoch with records below the anchor. */
  ghost predicate Strands(w: World, s: Step) {
    s.TickBegin? && w.phase.Granted? && !Low(w, TrackerOf(w).cpo)
  }

  lemma PreparedTracks(w: World, sorted: seq<Item>)
    requires Live(w) && Can(w, TickBegin(sorted)) && !Strands(w, TickBegin(sorted))
    requires Ours(w.phase)
    ensures Tracks(w, Prepared(w, sorted))
  {
    FlushTracks(w, w.tracker.value, sorted);
    FlushFrame(w.tracker.value, sorted);
    if w.phase.Owned? {
      CollectTracks(w, Flush(w.tracker.value, sorted));
    }
  }

  lemma PreparedFrame(w: World, sorted: seq<Item>)
    requires Can(w, TickBegin(sorted))
    ensures var u := Prepared(w, sorted);
      && u.last == w.tracker.value.last && (forall g :: g in u.gap ==> g in w.tracker.value.gap)
      && (Marked(w.phase) && u.ready.Some? ==> u.ready.value.offset >= u.cpo)
  {
    FlushFrame(w.tracker.value, sorted);
    CollectFrame(Flush(w.tracker.value, sorted));
  }

  lemma TickBeginBase(w: World, sorted: seq<Item>)
    requires Base(w) && Can(w, TickBegin(sorted))
    ensures Base(Next(w, TickBegin(sorted)))
  {
    TickSound(w, sorted);
    PreparedFrame(w, sorted);
    TrackerStepBase(w, Next(w, TickBegin(sorted)));
  }

  lemma TickBeginLive(w: World, sorted: seq<Item>)
    requires Live(w) && Can(w, TickBegin(sorted)) && !Strands(w, TickBegin(sorted))
    ensures Live(Next(w, TickBegin(sorted)))
  {
    var w' := Next(w, TickBegin(sorted));
    TickBeginBase(w, sorted);
    if Ours(w.phase) {
      PreparedFrame(w, sorted);
      PreparedTracks(w, sorted);
      TracksSame(w, w', w'.tracker.value);
    }
  }

  lemma AcknowledgeTracks(w: World, t: Tracker)
    requires Stream(w) && Tracks(w, t) && t.ready.Some?
    requires t.ready.value.offset >= t.cpo && t.ready.value.offset >= 0
    ensures Tracks(w.(pos := t.ready.value.offset + 1), Acknowledge(t))
    ensures Tracks(w.(pos := t.ready.value.offset + 1), t)
  {
    var w', u := w.(pos := t.ready.value.offset + 1), Acknowledge(t);
    StreamSame(w, w');
    forall i | 0 <= i < |w.delivered| && Arrived(w', i) ensures Kept(u, w.delivered[i]) && Kept(t, w.delivered[i]) {
      assert Arrived(w, i);
    }
    TracksSame(w, w', t);
  }

  lemma TickEndBase(w: World, outcome: Outcome)
    requires Base(w) && Can(w, TickEnd(outcome))
    ensures Base(Next(w, TickEnd(outcome)))
  {
    TickEndSound(w, outcome);
    TrackerStepBase(w, Next(w, TickEnd(outcome)));
  }

  lemma TickEndTracks(w: World, outcome: Outcome)
    requires Live(w) && w.phase.Owned? && Can(w, TickEnd(outcome))
    ensures var w' := Next(w, TickEnd(outcome)); Tracks(w', w'.tracker.value)
  {
    var w', t := Next(w, TickEnd(outcome)), w.tracker.value;
    assert StampTrue(w.log, t.ready.value);
    if outcome.Refused? {
      TracksSame(w, w', t);
    } else {
      AcknowledgeTracks(w, t);
      TracksSame(w.(pos := w'.pos), w', w'.tracker.value);
    }
  }

  lemma TickEndLive(w: World, outcome: Outcome)
    requires Live(w) && Can(w, TickEnd(outcome))
    ensures Live(Next(w, TickEnd(outcome)))
  {
    TickEndBase(w, outcome);
    if w.phase.Owned? {
      TickEndTracks(w, outcome);
    }
  }

  // ---- deliveries and assigns ----

  lemma ChainGrows(d: seq<Item>, item: Item)
    requires Chain(d)
    requires if d == [] then item.first
             else d[|d| - 1].offset < item.offset && (!item.first ==> item.prev == d[|d| - 1].offset)
    ensures Chain(d + [item])
  {
  }

  lemma DeliverStream(w: World, o: int, at: int)
    requires Base(w) && Can(w, Deliver(o, at))
    ensures Stream(Next(w, Deliver(o, at)))
    ensures !Dated(w, StampItem(w, o, at))
    ensures forall g :: Dated(w, g) ==> Dated(Next(w, Deliver(o, at)), g)
  {
    ChainGrows(w.delivered, StampItem(w, o, at));
  }

  lemma DeliverBase(w: World, o: int, at: int)
    requires Base(w) && Can(w, Deliver(o, at))
    ensures Base(Next(w, Deliver(o, at)))
  {
    DeliverSound(w, o, at);
    DeliverStream(w, o, at);
  }

  lemma DeliverTracks(w: World, o: int, at: int)
    requires Live(w) && w.phase.Owned? && Can(w, Deliver(o, at))
    ensures Tracks(Next(w, Deliver(o, at)), w.tracker.value)
  {
    var w', t := Next(w, Deliver(o, at)), w.tracker.value;
    DeliverStream(w, o, at);
    assert Low(w, t.cpo) ==> Low(w', t.cpo);
    var item := StampItem(w, o, at);
    forall i | 0 <= i < |w'.delivered| && Arrived(w', i)
      ensures i < |w.delivered| && Arrived(w, i) && w'.delivered[i] == w.delivered[i]
    {
      assert item in w'.flight;
    }
  }

  lemma DeliverLive(w: World, o: int, at: int)
    requires Live(w) && Can(w, Deliver(o, at))
    ensures Live(Next(w, Deliver(o, at)))
  {
    DeliverBase(w, o, at);
    if w.phase.Owned? {
      DeliverTracks(w, o, at);
    }
  }

  /** An assign starts afresh, whatever became of the epoch before it. */
  lemma ResetLive(w: World, b: int)
    requires Base(w) && Can(w, ResetOnAssign(b))
    ensures Live(Next(w, ResetOnAssign(b)))
  {
    var w' := Next(w, ResetOnAssign(b));
    ResetSound(w, b);
    forall g | Dated(w, g) ensures Dated(w', g) {
    }
    assert Low(w', b);
  }

  // ---- the log and the phases ----

  ghost predicate LogMoves(w: World, w': World) {
    && w' == w.(log := w'.log, seen := w'.seen, pos := w'.pos)
    && (Ours(w.phase) ==> w'.pos == w.pos)
    && Extends(w.log, w'.log) && w.seen <= w'.seen
    && (forall r :: r in w'.seen && r < w.log.end ==> r in w.seen)
  }

  lemma LogStream(w: World, w': World)
    requires Base(w) && LogMoves(w, w')
    ensures Stream(w')
    ensures forall x :: x <= w.log.end && Low(w, x) ==> Low(w', x)
    ensures forall g :: Dated(w, g) ==> Dated(w', g)
  {
    forall g | Dated(w, g) ensures Dated(w', g) {
    }
  }

  lemma LogTracks(w: World, w': World)
    requires Live(w) && LogMoves(w, w') && Ours(w.phase)
    ensures Tracks(w', w.tracker.value)
  {
    LogStream(w, w');
    assert forall i :: 0 <= i < |w.delivered| ==> (Arrived(w', i) <==> Arrived(w, i));
  }

  predicate OfTheLog(s: Step) {
    s.Append? || s.Remove? || s.OtherOwner? || s.Rewind?
  }

  lemma LogStep(w: World, s: Step)
    requires Sound(w) && Can(w, s) && OfTheLog(s)
    ensures Sound(Next(w, s)) && LogMoves(w, Next(w, s))
  {
    StepSound(w, s);
  }

  /** A world whose log moved on. */
  lemma LogMovedBase(w: World, w': World)
    requires Base(w) && Sound(w') && LogMoves(w, w')
    ensures Base(w')
  {
    LogStream(w, w');
  }

  lemma LogBase(w: World, s: Step)
    requires Base(w) && Can(w, s) && OfTheLog(s)
    ensures Base(Next(w, s))
  {
    LogStep(w, s);
    LogMovedBase(w, Next(w, s));
  }

  lemma LogLive(w: World, s: Step)
    requires Live(w) && Can(w, s) && OfTheLog(s)
    ensures Live(Next(w, s))
  {
    LogStep(w, s);
    LogMovedBase(w, Next(w, s));
    if Ours(w.phase) {
      LogTracks(w, Next(w, s));
    }
  }

  predicate OfThePhase(s: Step) {
    s.Fence? || s.MarkAssigned? || s.MarkLost? || s.AckRevoke? || s.ClearStamp?
  }

  lemma PhaseTracks(w: World, w': World)
    requires w' == w.(phase := w'.phase, tracker := w'.tracker, stamp := w'.stamp)
    requires w'.stamp == w.stamp || w'.stamp.None?
    ensures Stream(w) ==> Stream(w')
    ensures forall g :: Dated(w, g) ==> Dated(w', g)
    ensures forall t :: Tracks(w, t) ==> Tracks(w', t)
  {
    forall g | Dated(w, g) ensures Dated(w', g) {
    }
    forall t | Tracks(w, t) ensures Tracks(w', t) {
      assert Low(w, t.cpo) ==> Low(w', t.cpo);
      assert forall i :: 0 <= i < |w.delivered| ==> (Arrived(w', i) <==> Arrived(w, i));
    }
  }

  lemma PhaseBase(w: World, s: Step)
    requires Base(w) && Can(w, s) && OfThePhase(s)
    ensures Base(Next(w, s))
  {
    PhaseSound(w, s);
    PhaseTracks(w, Next(w, s));
  }

  lemma PhaseLive(w: World, s: Step)
    requires Live(w) && Can(w, s) && OfThePhase(s)
    ensures Live(Next(w, s))
  {
    PhaseBase(w, s);
    PhaseTracks(w, Next(w, s));
  }

  lemma StepBase(w: World, s: Step)
    requires Base(w) && Can(w, s)
    ensures Base(Next(w, s))
  {
    match s
    case Complete(item) => CompleteBase(w, item);
    case BatchEnd(sorted) => BatchBase(w, sorted);
    case TickBegin(sorted) => TickBeginBase(w, sorted);
    case TickEnd(outcome) => TickEndBase(w, outcome);
    case ResetOnAssign(b) => ResetLive(w, b);
    case Deliver(o, at) => DeliverBase(w, o, at);
    case Append(o) => LogBase(w, s);
    case Remove(gone) => LogBase(w, s);
    case OtherOwner(to, completed) => LogBase(w, s);
    case Rewind(to) => LogBase(w, s);
    case _ => PhaseBase(w, s);
  }

  lemma StepLive(w: World, s: Step)
    requires Live(w) && Can(w, s) && !Strands(w, s)
    ensures Live(Next(w, s))
  {
    match s
    case Complete(item) => CompleteLive(w, item);
    case BatchEnd(sorted) => BatchLive(w, sorted);
    case TickBegin(sorted) => TickBeginLive(w, sorted);
    case TickEnd(outcome) => TickEndLive(w, outcome);
    case ResetOnAssign(b) => ResetLive(w, b);
    case Deliver(o, at) => DeliverLive(w, o, at);
    case Append(o) => LogLive(w, s);
    case Remove(gone) => LogLive(w, s);
    case OtherOwner(to, completed) => LogLive(w, s);
    case Rewind(to) => LogLive(w, s);
    case _ => PhaseLive(w, s);
  }

  lemma InitLive(w: World)
    requires Init(w)
    ensures Live(w)
  {
  }

  predicate Restarts(steps: seq<Step>) {
    exists i :: 0 <= i < |steps| && steps[i].ResetOnAssign?
  }

  /** No tick of the run strands the epoch the run ends in: after a tick that strands one, another begins. */
  ghost predicate Regular(w: World, steps: seq<Step>)
    requires Locked(w)
    decreases |steps|
  {
    steps != [] && Can(w, steps[0]) ==>
      && (Strands(w, steps[0]) ==> Restarts(steps[1..]))
      && (NextLocked(w, steps[0]); Regular(Next(w, steps[0]), steps[1..]))
  }

  lemma RestartsLater(steps: seq<Step>)
    requires Restarts(steps) && !steps[0].ResetOnAssign?
    ensures Restarts(steps[1..])
  {
    var i :| 0 <= i < |steps| && steps[i].ResetOnAssign?;
    assert steps[1..][i - 1].ResetOnAssign?;
  }

  lemma {:induction false} RunLive(w: World, steps: seq<Step>, w': World)
    requires Base(w) && (Live(w) || Restarts(steps)) && Runs(w, steps, w') && Regular(w, steps)
    ensures Live(w')
    decreases |steps|
  {
    if steps != [] {
      var s := steps[0];
      StepBase(w, s);
      if s.ResetOnAssign? {
        ResetLive(w, s.baseline);
      } else if Live(w) && !Strands(w, s) {
        StepLive(w, s);
      } else if !Strands(w, s) {
        RestartsLater(steps);
      }
      RunLive(Next(w, s), steps[1..], w');
    }
  }
}
