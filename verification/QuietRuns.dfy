/** Quiescence at the end of whole runs: the two situations in which it always empties, and the agreement. */
module QuietRuns {
  import opened WorkItems
  import opened GapOrder
  import opened PartitionTracker
  import opened PartitionWorld
  import opened Soundness
  import opened Liveness
  import opened Progress
  import opened Canonical
  import opened Quiescence
  import opened Epoch
  import opened Twins

  // ---- the broker's position ----

  /** The position is no further than what is committed, or held for the next commit. */
  predicate Posted(w: World, t: Tracker) {
    || w.pos <= w.epochStart
    || w.pos <= t.last + 1
    || (t.ready.Some? && w.pos <= t.ready.value.offset + 1
        && (t.ready.value.offset >= t.cpo || HasOffset(t.gap, t.cpo)))
    || (w.pos <= t.cpo && HasOffset(t.gap, t.cpo))
  }

  ghost predicate Agreeing(w: World) {
    && Live(w)
    && (w.phase.Granted? ==> w.pos == w.epochStart)
    && (w.phase.Owned? ==> Posted(w, w.tracker.value))
  }

  lemma ArrivePosted(w: World, t: Tracker, item: Item)
    requires Posted(w, t) && item.prev < item.offset
    ensures Posted(w, Arrive(t, item))
  {
    HasOffsetGrows(t.gap, item, t.cpo);
    HasOffsetGrows(t.gap, item, item.offset);
  }

  lemma FlushPosted(w: World, t: Tracker, sorted: seq<Item>)
    requires Posted(w, t) && Arranged(t.gap, sorted)
    ensures Posted(w, Flush(t, sorted))
  {
    FlushFrame(t, sorted);
    if HasOffset(t.gap, t.cpo) {
      FlushReaches(t, sorted, t.cpo);
    }
  }

  lemma CollectPosted(w: World, t: Tracker)
    requires Posted(w, t)
    ensures Posted(w, Collect(t))
  {
    RepairFrame(t);
  }

  lemma TickPosted(w: World, sorted: seq<Item>)
    requires Agreeing(w) && w.phase.Owned? && Can(w, TickBegin(sorted))
    ensures Posted(w, Prepared(w, sorted))
  {
    FlushPosted(w, w.tracker.value, sorted);
    CollectPosted(w, Flush(w.tracker.value, sorted));
  }

  lemma StepAgreeing(w: World, s: Step)
    requires Agreeing(w) && Can(w, s) && !Strands(w, s)
    ensures Agreeing(Next(w, s))
  {
    StepLive(w, s);
    if w.phase.Owned? {
      match s
      case Complete(item) =>
        assert StampTrue(w.log, item);
        ArrivePosted(w, w.tracker.value, item);
      case BatchEnd(sorted) => FlushPosted(w, w.tracker.value, sorted);
      case TickBegin(sorted) => TickPosted(w, sorted);
      case _ =>
    }
  }

  lemma ResetAgreeing(w: World, b: int)
    requires Base(w) && Can(w, ResetOnAssign(b))
    ensures Agreeing(Next(w, ResetOnAssign(b)))
  {
    ResetLive(w, b);
  }

  lemma {:induction false} RunAgreeing(w: World, steps: seq<Step>, w': World)
    requires Base(w) && (Agreeing(w) || Restarts(steps)) && Runs(w, steps, w') && Regular(w, steps)
    ensures Agreeing(w')
    decreases |steps|
  {
    if steps != [] {
      var s := steps[0];
      StepBase(w, s);
      if s.ResetOnAssign? {
        ResetAgreeing(w, s.baseline);
      } else if Agreeing(w) && !Strands(w, s) {
        StepAgreeing(w, s);
      } else if !Strands(w, s) {
        RestartsLater(steps);
      }
      RunAgreeing(Next(w, s), steps[1..], w');
    }
  }

  lemma TickAgreeing(w: World, sorted: seq<Item>)
    requires Agreeing(w) && Tickable(w) && Can(w, TickBegin(sorted))
    ensures Agreeing(Tick(w, sorted))
  {
    StepAgreeing(w, TickBegin(sorted));
    var v := Next(w, TickBegin(sorted));
    if v.sending {
      StepAgreeing(v, TickEnd(Accepted));
    }
  }

  lemma {:induction false} TicksAgreeing(w: World, sorts: seq<seq<Item>>, u: World)
    requires Agreeing(w) && Tickable(w) && Ticks(w, sorts, u)
    ensures Agreeing(u)
    decreases |sorts|
  {
    if sorts != [] {
      TickLive(w, sorts[0]);
      TickAgreeing(w, sorts[0]);
      TicksAgreeing(Tick(w, sorts[0]), sorts[1..], u);
    }
  }

  /** Settled, the baseline, the last committed record and the broker's position agree. */
  predicate Agreed(u: World) {
    u.tracker.Some? && u.tracker.value.cpo == u.pos == u.tracker.value.last + 1
  }

  lemma SettledAgrees(u: World)
    requires Agreeing(u) && Tickable(u) && u.delivered != [] && AllArrived(u) && Fixed(u.tracker.value)
    ensures Agreed(u)
  {
    SettledHolds(u);
    QuickExcludes(u.tracker.value);
    assert u.delivered[|u.delivered| - 1].offset >= u.epochStart;
  }

  // ---- whole runs ----

  lemma FewerTies(a: seq<Item>, b: seq<Item>)
    requires NoTies(a) && forall g :: g in b ==> g in a
    ensures NoTies(b)
  {
  }

  lemma TickGap(w: World, sorted: seq<Item>)
    requires Tickable(w) && Can(w, TickBegin(sorted))
    ensures Tick(w, sorted).tracker.Some?
    ensures forall g :: g in Tick(w, sorted).tracker.value.gap ==> g in w.tracker.value.gap
    ensures Settling(Tick(w, sorted).tracker.value)
  {
    TickTracker(w, sorted);
    TickSettles(w.tracker.value, sorted);
    FlushFrame(w.tracker.value, sorted);
    CollectFrame(Flush(w.tracker.value, sorted));
  }

  /** A run that has come to rest: the partition owned, nothing delivered still in flight, no commit on its way. */
  ghost predicate Rests(v: World) {
    v.phase.Owned? && !v.sending && v.delivered != [] && AllArrived(v)
  }

  /**
    At the end of any regular run from a fresh start that has come to rest, after one tick and then one
    more than there are held items: baseline, last commit and position agree, and Ready and the buffer are
    empty if and only if that first tick left no cut.
   */
  lemma QuiescentOverRuns(w: World, steps: seq<Step>, v: World, first: seq<Item>, sorts: seq<seq<Item>>, u: World)
    requires Init(w) && Runs(w, steps, v) && Regular(w, steps) && Rests(v)
    requires Can(v, TickBegin(first)) && Ticks(Tick(v, first), sorts, u)
    requires |sorts| > Held(TrackerOf(Tick(v, first)))
    ensures Agreed(u) && (Empty(u) <==> forall c :: !Cut(TrackerOf(Tick(v, first)), c))
  {
    InitLive(w);
    RunAgreeing(w, steps, v);
    FlushCanonicalOverRuns(w, steps, v);
    var v1 := Tick(v, first);
    TickLive(v, first);
    TickAgreeing(v, first);
    TickGap(v, first);
    FewerTies(v.tracker.value.gap, v1.tracker.value.gap);
    SameArrived(v, v1);
    QuiescentExactly(v1, sorts, u);
    TicksAgreeing(v1, sorts, u);
    SameArrived(v1, u);
    SettledAgrees(u);
  }

  /** With nothing buffered above the last delivery, every rest ends empty. */
  lemma EmptiesBelow(v: World, sorts: seq<seq<Item>>, u: World)
    requires Tickable(v) && Rests(v) && NoTies(v.tracker.value.gap)
    requires forall g :: g in v.tracker.value.gap ==> g.offset <= LastDelivered(v)
    requires Ticks(v, sorts, u) && |sorts| > Held(v.tracker.value) + 1
    ensures Empty(u)
  {
    var v1 := Tick(v, sorts[0]);
    TickLive(v, sorts[0]);
    TickGap(v, sorts[0]);
    TickTracker(v, sorts[0]);
    FewerTies(v.tracker.value.gap, v1.tracker.value.gap);
    SameArrived(v, v1);
    NothingAbove(v1);
    TickNeverGrows(v.tracker.value, sorts[0]);
    QuiescentExactly(v1, sorts[1..], u);
  }

  lemma TickNeverGrows(t: Tracker, sorted: seq<Item>)
    requires Arranged(t.gap, sorted)
    ensures Held(Committed(t, sorted)) <= Held(t)
  {
    FlushHeld(t, sorted);
    FlushFrame(t, sorted);
    CollectHolds(Flush(t, sorted));
  }

  /** First situation: an epoch whose assign found the partition settled. */
  lemma CleanEpochEmpties(w: World, b: int, steps: seq<Step>, v: World, sorts: seq<seq<Item>>, u: World)
    requires Base(w) && Settled(w) && Can(w, ResetOnAssign(b))
    requires Locked(Next(w, ResetOnAssign(b))) && Runs(Next(w, ResetOnAssign(b)), steps, v)
    requires forall s :: s in steps ==> WithinEpoch(s)
    requires Rests(v) && Ticks(v, sorts, u) && |sorts| > Held(TrackerOf(v)) + 1
    ensures Tickable(v) && Empty(u)
  {
    var c, m := EpochRun(w, b, steps, v);
    forall g | g in v.tracker.value.gap ensures g.offset <= LastDelivered(v) && g in v.delivered {
      assert Waiting(v, g, m);
    }
    ChainHasNoTies(v.delivered, v.tracker.value.gap);
    EmptiesBelow(v, sorts, u);
  }

  lemma ChainHasNoTies(d: seq<Item>, gap: seq<Item>)
    requires StrictlyIncreasing(d) && forall g :: g in gap ==> g in d
    ensures NoTies(gap)
  {
    forall a, b | a in gap && b in gap && a.offset == b.offset ensures a == b {
      UniqueAt(d, a, b);
    }
  }

  // ---- second situation: nothing was removed from the log ----

  ghost predicate Alive(w: World) {
    && Locked(w) && w.seen <= w.log.live
    && (forall g :: About(w, g) ==> g.offset in w.log.live)
  }

  lemma StepAlive(w: World, s: Step)
    requires Alive(w) && Can(w, s) && !s.Remove?
    ensures Alive(Next(w, s))
  {
    NextLocked(w, s);
    var w' := Next(w, s);
    match s {
      case Complete(item) =>
        assert About(w, item);
        ArriveFrame(TrackerOf(w), item);
      case BatchEnd(sorted) => FlushFrame(w.tracker.value, sorted);
      case TickBegin(sorted) => PreparedFrame(w, sorted);
      case _ =>
    }
    forall g | About(w', g) ensures g.offset in w'.log.live {
      assert About(w, g) || (s.Deliver? && g == StampItem(w, s.offset, s.at));
    }
  }

  lemma {:induction false} RunAlive(w: World, steps: seq<Step>, w': World)
    requires Alive(w) && Runs(w, steps, w') && forall s :: s in steps ==> !s.Remove?
    ensures Alive(w')
    decreases |steps|
  {
    if steps != [] {
      assert steps[0] in steps;
      StepAlive(w, steps[0]);
      RunAlive(Next(w, steps[0]), steps[1..], w');
    }
  }

  /** A run that removes nothing and has delivered to the end of the log ends empty, orphans or not. */
  lemma CompleteLogEmpties(w: World, steps: seq<Step>, v: World, sorts: seq<seq<Item>>, u: World)
    requires Init(w) && Runs(w, steps, v) && Regular(w, steps) && forall s :: s in steps ==> !s.Remove?
    requires Rests(v) && forall r :: r in v.log.live ==> r <= LastDelivered(v)
    requires Ticks(v, sorts, u) && |sorts| > Held(TrackerOf(v)) + 1
    ensures Tickable(v) && Empty(u)
  {
    InitLive(w);
    RunLive(w, steps, v);
    RunAlive(w, steps, v);
    FlushCanonicalOverRuns(w, steps, v);
    forall g | g in v.tracker.value.gap ensures g.offset <= LastDelivered(v) {
      assert About(v, g);
    }
    EmptiesBelow(v, sorts, u);
  }
}
