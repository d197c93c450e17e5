/** What the invariants of Liveness buy: every tick makes progress, and repairs are sound. */
module Progress {
  import opened WorkItems
  import opened GapOrder
  import opened PartitionTracker
  import opened PartitionWorld
  import opened Soundness
  import opened Liveness

  /** The items a tracker holds. */
  function Held(t: Tracker): nat {
    |t.gap| + if t.ready.Some? then 1 else 0
  }

  predicate AllArrived(w: World) {
    forall i :: 0 <= i < |w.delivered| ==> Arrived(w, i)
  }

  /** The last record this epoch delivered. */
  function LastDelivered(w: World): int
    requires w.delivered != []
  {
    w.delivered[|w.delivered| - 1].offset
  }

  lemma {:induction false} WalkHeld(t: Tracker, buffer: seq<Item>)
    ensures Held(Walk(t, buffer)) <= |buffer| + if t.ready.Some? then 1 else 0
    decreases |buffer|
  {
    if buffer != [] && Passes(t, buffer[0]) {
      WalkHeld(Take(t, buffer[0]), buffer[1..]);
    }
  }

  lemma FlushHeld(t: Tracker, sorted: seq<Item>)
    requires Arranged(t.gap, sorted)
    ensures Held(Flush(t, sorted)) <= Held(t)
  {
    if t.flag && t.gap != [] {
      ArrangedMembers(t.gap, sorted);
      CompactSplits(sorted);
      WalkHeld(t.(flag := false, dropped := t.dropped + Dropped(sorted)), Compact(sorted));
    }
  }

  lemma {:induction false} AboveShrinks(gap: seq<Item>, s: Item)
    ensures |Above(gap, s)| <= |gap| && (s in gap ==> |Above(gap, s)| < |gap|)
  {
    if gap != [] {
      AboveShrinks(gap[..|gap| - 1], s);
    }
  }

  lemma {:induction false} LeastAbove(d: seq<Item>, last: int) returns (k: nat)
    requires d != [] && d[|d| - 1].offset > last
    ensures k < |d| && d[k].offset > last && (k > 0 ==> d[k - 1].offset <= last)
  {
    k := 0;
    while d[k].offset <= last
      invariant k < |d| && (k > 0 ==> d[k - 1].offset <= last)
      decreases |d| - k
    {
      k := k + 1;
    }
  }

  /** With the flag spent and Ready empty, an epoch whose First completed has committed up to its baseline. */
  lemma EpochCommitted(w: World, t: Tracker)
    requires Stream(w) && Tracks(w, t) && w.delivered != [] && Arrived(w, 0)
    requires t.ready.None? && !t.flag
    ensures t.last >= 0 && t.cpo == t.last + 1
  {
    assert Kept(t, w.delivered[0]);
    QuickExcludes(t);
    assert w.delivered[0].offset in w.seen;
  }

  /** Then the lowest uncommitted delivery is a provable successor. */
  lemma UncommittedIsProvable(w: World, t: Tracker)
    requires Stream(w) && Tracks(w, t) && w.delivered != [] && AllArrived(w)
    requires t.ready.None? && !t.flag && t.last < LastDelivered(w)
    ensures Stalled(t) && Successor(t.gap, t.cpo, t.last).Some?
  {
    assert Arrived(w, 0);
    EpochCommitted(w, t);
    var k := LeastAbove(w.delivered, t.last);
    assert Arrived(w, k);
    assert Kept(t, w.delivered[k]);
    QuickExcludes(t);
    if w.delivered[k] in t.gap {
      HasMemberAt(t.gap, w.delivered[k]);
    }
    assert Provable(w.delivered[k], t.cpo, t.last);
    SuccessorProvable(t.gap, t.cpo, t.last);
  }

  lemma CollectProgress(w: World, t: Tracker)
    requires Stream(w) && Tracks(w, t) && w.delivered != [] && AllArrived(w)
    requires !t.flag && t.last < LastDelivered(w)
    ensures var u := Collect(t);
      Held(u) <= Held(t) && (u.ready.None? ==> Held(u) < Held(t))
  {
    if t.ready.None? {
      UncommittedIsProvable(w, t);
      SuccessorProvable(t.gap, t.cpo, t.last);
      AboveShrinks(t.gap, Successor(t.gap, t.cpo, t.last).value);
    }
  }

  /** Owned, and no commit on its way. */
  predicate Idle(w: World) {
    w.phase.Owned? && !w.sending
  }

  /** A live partition that is owned and between ticks. */
  ghost predicate Tickable(w: World) {
    Live(w) && Idle(w)
  }

  /** A tick changes the tracker, the position and nothing else of what is delivered or in flight. */
  lemma TickFrame(w: World, sorted: seq<Item>)
    requires Locked(w) && w.phase.Owned? && Can(w, TickBegin(sorted))
    ensures var w' := Tick(w, sorted);
      && SameStream(w, w') && !w'.sending
      && w'.tracker.Some? && w'.tracker.value.last >= w.tracker.value.last
  {
    FlushFrame(w.tracker.value, sorted);
    RepairFrame(Flush(w.tracker.value, sorted));
  }

  lemma TickLive(w: World, sorted: seq<Item>)
    requires Tickable(w) && Can(w, TickBegin(sorted))
    ensures Tickable(Tick(w, sorted)) && SameStream(w, Tick(w, sorted))
    ensures Tick(w, sorted).tracker.value.last >= w.tracker.value.last
  {
    TickBeginLive(w, sorted);
    TickFrame(w, sorted);
    var v := Next(w, TickBegin(sorted));
    if v.sending {
      TickEndLive(v, Accepted);
    }
  }

  /**
    No stall: with everything delivered completed and the last delivery uncommitted, a tick the broker
    accepts retires at least one held item. Orphans sorted in front of the stream do not stop it.
   */
  lemma TickProgress(w: World, sorted: seq<Item>)
    requires Tickable(w) && Can(w, TickBegin(sorted))
    requires w.delivered != [] && AllArrived(w)
    requires w.tracker.value.last < LastDelivered(w)
    ensures Held(Tick(w, sorted).tracker.value) < Held(w.tracker.value)
  {
    var t := w.tracker.value;
    var u := Flush(t, sorted);
    FlushHeld(t, sorted);
    FlushFrame(t, sorted);
    FlushTracks(w, t, sorted);
    CollectProgress(w, u);
  }

  /** A sequence of accepted ticks, each with its own outcome of the sort, and nothing in between. */
  ghost predicate Ticks(w: World, sorts: seq<seq<Item>>, w': World)
    requires Idle(w)
    decreases |sorts|
  {
    if sorts == [] then w' == w
    else Can(w, TickBegin(sorts[0])) && Ticks(Tick(w, sorts[0]), sorts[1..], w')
  }

  /** Ticks keep the stream and never lower the last commit. */
  lemma {:induction false} TicksFrame(w: World, sorts: seq<seq<Item>>, w': World)
    requires Tickable(w) && Ticks(w, sorts, w')
    ensures Tickable(w') && SameStream(w, w') && w'.tracker.value.last >= w.tracker.value.last
    decreases |sorts|
  {
    if sorts != [] {
      TickLive(w, sorts[0]);
      TicksFrame(Tick(w, sorts[0]), sorts[1..], w');
    }
  }

  lemma SameArrived(w: World, v: World)
    requires SameStream(w, v)
    ensures AllArrived(w) <==> AllArrived(v)
  {
    assert forall i :: 0 <= i < |w.delivered| ==> (Arrived(v, i) <==> Arrived(w, i));
  }

  /**
    Eventual completeness: as many accepted ticks as there are held items commit everything this
    epoch delivered.
   */
  lemma {:induction false} TicksCommit(w: World, sorts: seq<seq<Item>>, w': World)
    requires Tickable(w) && Ticks(w, sorts, w')
    requires w.delivered != [] && AllArrived(w) && |sorts| >= Held(w.tracker.value)
    ensures w'.tracker.Some? && w'.tracker.value.last >= LastDelivered(w)
    decreases |sorts|
  {
    TicksFrame(w, sorts, w');
    if w.tracker.value.last < LastDelivered(w) {
      StillHeld(w);
      TickLive(w, sorts[0]);
      TickProgress(w, sorts[0]);
      SameArrived(w, Tick(w, sorts[0]));
      TicksCommit(Tick(w, sorts[0]), sorts[1..], w');
    }
  }

  /** And the broker's position is past it. */
  lemma TicksComplete(w: World, sorts: seq<seq<Item>>, w': World)
    requires Tickable(w) && Ticks(w, sorts, w')
    requires w.delivered != [] && AllArrived(w) && |sorts| >= Held(w.tracker.value)
    ensures Tickable(w') && w'.tracker.value.last >= LastDelivered(w) && w'.pos > LastDelivered(w)
  {
    TicksFrame(w, sorts, w');
    TicksCommit(w, sorts, w');
    assert w.delivered[|w.delivered| - 1].offset >= w.epochStart;
  }

  /**
    The same from the start of a run: after any regular history of epochs, orphans, stale Firsts, cleared
    stamps, rewinds, assigns without a revoke, other owners and failed commits, once everything this epoch
    delivered is completed, that many accepted ticks leave the broker's position past all of it.
   */
  lemma EventuallyCommitted(w: World, steps: seq<Step>, v: World)
    requires Init(w) && Runs(w, steps, v) && Regular(w, steps)
    requires v.phase.Owned? && !v.sending && v.delivered != [] && AllArrived(v)
    ensures Tickable(v)
    ensures forall sorts, u :: Ticks(v, sorts, u) && |sorts| >= Held(v.tracker.value) ==> u.pos > LastDelivered(v)
  {
    InitLive(w);
    RunLive(w, steps, v);
    forall sorts, u | Ticks(v, sorts, u) && |sorts| >= Held(v.tracker.value)
      ensures u.pos > LastDelivered(v)
    {
      TicksComplete(v, sorts, u);
    }
  }

  /** After every accepted commit the tracker's baseline, its last record and the broker's position agree. */
  lemma BaselineAgrees(w: World, steps: seq<Step>, v: World)
    requires Init(w) && Runs(w, steps, v) && Regular(w, steps)
    requires v.sending && v.phase.Owned?
    ensures Locked(v)
    ensures var u := Next(v, TickEnd(Accepted));
      u.tracker.value.cpo == u.pos == u.tracker.value.last + 1
  {
    InitLive(w);
    RunLive(w, steps, v);
  }

  /** While the last delivery is uncommitted something is held. */
  lemma StillHeld(w: World)
    requires Live(w) && w.phase.Owned? && w.delivered != [] && AllArrived(w)
    requires w.tracker.value.last < LastDelivered(w)
    ensures Held(w.tracker.value) > 0
  {
    var t := w.tracker.value;
    assert Arrived(w, 0) && Arrived(w, |w.delivered| - 1);
    assert Kept(t, w.delivered[|w.delivered| - 1]);
    if t.ready.None? && t.gap == [] {
      EpochCommitted(w, t.(flag := false));
    }
  }

  /**
    Repair is sound: no surviving record lies between the last committed one and the promoted
    successor, and every pruned item is already covered or names an offset that is gone.
   */
  lemma RepairSound(w: World, t: Tracker)
    requires Live(w) && w.phase.Owned? && Tracks(w, t) && TrackerSound(w.log, t)
    requires Stalled(t) && Successor(t.gap, t.cpo, t.last).Some?
    ensures var s := Successor(t.gap, t.cpo, t.last).value;
      && Repair(t).ready == Some(s) && s.offset > t.last && s.offset >= t.cpo
      && Vacant(w.log, t.last + 1, s.offset)
      && (forall g :: g in Below(t.gap, s.offset) ==> g.offset <= t.last || g.offset !in w.log.live)
      && (forall g :: g in t.gap && g !in Below(t.gap, s.offset) && g != s ==> g in Repair(t).gap)
  {
    var s := Successor(t.gap, t.cpo, t.last).value;
    SuccessorProvable(t.gap, t.cpo, t.last);
    BelowMembers(t.gap, s.offset);
    AboveMembers(t.gap, s);
    assert StampTrue(w.log, s) && s.offset > t.cpo;
  }
}
