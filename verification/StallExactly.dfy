/** The one tick that can stall a partition, exactly. */
module StallExactly {
  import opened WorkItems
  import opened PartitionTracker
  import opened PartitionWorld
  import opened Liveness
  import opened Progress
  import opened Quiescence
  import opened QuietRuns
  import opened Scenarios
  import opened StampReset

  /** At rest, with the last delivery uncommitted and nothing left for a tick to do. */
  ghost predicate Stuck(u: World) {
    Rests(u) && u.tracker.Some? && Fixed(u.tracker.value) && u.tracker.value.last < LastDelivered(u)
  }

  ghost predicate NeverSticks(w: World)
    requires Locked(w)
  {
    forall steps, u :: Runs(w, steps, u) && Regular(w, steps) ==> !Stuck(u)
  }

  /** Nothing held, nothing committed in the epoch, and the baseline above a record of the epoch. */
  ghost predicate Adrift(v: World, r: int) {
    && Locked(v) && !v.sending && v.stamp.None? && v.fetch == v.epochStart && v.delivered == []
    && v.tracker.Some? && v.tracker.value.ready.None? && v.tracker.value.gap == []
    && !v.tracker.value.flag && v.tracker.value.last < 0
    && r in v.seen && 0 <= v.fetch <= r < v.tracker.value.cpo <= v.log.end
    && (forall g :: g in v.flight ==> g.readTime < v.epochClock) && v.epochClock <= v.clock
  }

  /** A stranding tick leaves the partition adrift. */
  lemma TickSetsAdrift(w: World, sorted: seq<Item>) returns (r: int)
    requires Live(w) && Can(w, TickBegin(sorted)) && Strands(w, TickBegin(sorted))
    ensures Adrift(Next(w, TickBegin(sorted)), r) && Next(w, TickBegin(sorted)).phase.Granted?
  {
    r :| r in w.seen && w.epochStart <= r < w.tracker.value.cpo;
    FlushFrame(w.tracker.value, sorted);
    NextLocked(w, TickBegin(sorted));
    forall g | g in w.flight ensures g.readTime < w.epochClock {
      assert Dated(w, g);
    }
  }

  /** The record below the baseline is delivered and completed, and dropped as an orphan. */
  lemma LowDropped(v: World, r: int) returns (steps: seq<Step>, u: World, low: Item)
    requires Adrift(v, r) && v.phase.Granted?
    ensures Locked(u) && Runs(v, steps, u) && Unticked(steps)
    ensures u.phase.Owned? && !u.sending && u.delivered == [low] && low !in u.flight && low.offset == r
    ensures u.stamp == Some(r) && u.fetch == r + 1 && u.log.live == {} && u.log.end == v.log.end && u.clock == v.clock
    ensures u.tracker.Some? && u.tracker.value == v.tracker.value.(returned := u.tracker.value.returned)
    ensures forall g :: g in u.flight ==> g.readTime < v.epochClock
  {
    steps, u := Go(v, [], v, MarkAssigned);
    steps, u := Go(v, steps, u, Remove(v.log.live));
    assert u.log.live == {};
    low := StampItem(u, r, u.clock);
    steps, u := Go(v, steps, u, Deliver(r, u.clock));
    steps, u := Go(v, steps, u, Complete(low));
    assert u.flight == v.flight;
  }

  /** A record appended past the baseline is delivered, completed and buffered with nothing to free it. */
  lemma HighBuffered(u: World, low: Item) returns (steps: seq<Step>, u': World)
    requires Locked(u) && u.phase.Owned? && !u.sending && u.delivered == [low] && low !in u.flight
    requires u.stamp == Some(low.offset) && u.fetch == low.offset + 1 && u.log.live == {} && u.fetch <= u.log.end
    requires u.tracker.Some? && u.tracker.value.ready.None? && u.tracker.value.gap == [] && !u.tracker.value.flag
    requires u.tracker.value.last < 0 && low.offset >= 0 && u.tracker.value.cpo <= u.log.end
    requires low.offset < u.tracker.value.cpo && forall g :: g in u.flight ==> g.readTime < u.clock
    ensures Runs(u, steps, u') && Unticked(steps) && Stuck(u')
  {
    var e := u.log.end + 1;
    steps, u' := Go(u, [], u, Append(e));
    var high := StampItem(u', e, u'.clock);
    steps, u' := Go(u, steps, u', Deliver(e, u'.clock));
    steps, u' := Go(u, steps, u', Complete(high));
    assert u'.delivered == [low, high] && u'.flight == u.flight;
    assert Arrived(u', 0) && Arrived(u', 1);
  }

  lemma AdriftSticks(v: World, r: int) returns (steps: seq<Step>, u: World)
    requires Adrift(v, r) && v.phase.Granted?
    ensures Runs(v, steps, u) && Unticked(steps) && Stuck(u)
  {
    var a, x, low := LowDropped(v, r);
    var b;
    b, u := HighBuffered(x, low);
    RunsConcat(v, a, x, b, u);
    steps := a + b;
  }

  /**
    The no-stall promise after a tick between reset and mark, exactly: no regular continuation comes to rest
    with its last delivery uncommitted and nothing left to do, if and only if the tick did not discard an
    anchor with a record of the epoch below it.
   */
  lemma StrandingExactly(w: World, sorted: seq<Item>)
    requires Live(w) && w.phase.Granted? && Can(w, TickBegin(sorted))
    ensures Locked(Next(w, TickBegin(sorted)))
    ensures NeverSticks(Next(w, TickBegin(sorted))) <==> !Strands(w, TickBegin(sorted))
  {
    var v := Next(w, TickBegin(sorted));
    NextLocked(w, TickBegin(sorted));
    if Strands(w, TickBegin(sorted)) {
      var r := TickSetsAdrift(w, sorted);
      var steps, u := AdriftSticks(v, r);
      UntickedIsRegular(v, steps);
    } else {
      TickBeginLive(w, sorted);
      forall steps, u | Runs(v, steps, u) && Regular(v, steps) ensures !Stuck(u) {
        RunLive(v, steps, u);
        if Stuck(u) {
          SettledHolds(u);
        }
      }
    }
  }
}
