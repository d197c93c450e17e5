/** Concrete runs from a fresh start that reach the behaviours the exact conditions shut out. */
module Scenarios {
  import opened WorkItems
  import opened PartitionTracker
  import opened PartitionWorld
  import opened Safety
  import opened StampReset
  import opened Monotone
  import opened Liveness
  import opened Progress
  import opened Quiescence
  import opened QuietRuns

  /** A partition whose log holds the given records, none of them read. */
  function Unread(records: set<int>, end: int): World {
    World(Log(0, records, records, end, {}), 0, Away, None, false, None, 0, 0, [], records, {}, 0, 0, 0)
  }

  /** Take one more step. */
  lemma Go(a: World, steps: seq<Step>, w: World, s: Step) returns (steps': seq<Step>, w': World)
    requires Locked(a) && Locked(w) && Runs(a, steps, w) && Can(w, s)
    ensures Locked(w') && w' == Next(w, s) && steps' == steps + [s] && Runs(a, steps', w')
  {
    RunsSnoc(a, steps, w, s);
    steps', w' := steps + [s], Next(w, s);
  }

  /** The partition is assigned with baseline `b`, and marked. */
  lemma Begin(records: set<int>, end: int, b: int) returns (steps: seq<Step>, w: World)
    requires b <= 0
    ensures var a := Unread(records, end);
      && Locked(a) && Runs(a, steps, w) && steps == [ResetOnAssign(b), MarkAssigned]
      && w == a.(phase := Owned, tracker := Some(Fresh(b)), clock := 1, epochClock := 1)
  {
    var a := Unread(records, end);
    steps, w := Go(a, [], a, ResetOnAssign(b));
    steps, w := Go(a, steps, w, MarkAssigned);
  }

  /** The partition is revoked and assigned again with baseline `b`. */
  lemma Reassign(a: World, steps: seq<Step>, w: World, b: int) returns (steps': seq<Step>, w': World)
    requires Locked(a) && Locked(w) && Runs(a, steps, w)
    requires w.phase.Owned? && !w.sending && w.tracker == Some(Fresh(b)) && (b == w.pos || b < 0)
    ensures Locked(w') && Runs(a, steps', w') && steps' == steps + [MarkLost, AckRevoke, ResetOnAssign(b), MarkAssigned]
    ensures w' == w.(stamp := None, fetch := w.pos, epochStart := w.pos, delivered := [], seen := w.log.live,
                     clock := w.clock + 1, epochClock := w.clock + 1)
  {
    steps', w' := Go(a, steps, w, MarkLost);
    steps', w' := Go(a, steps', w', AckRevoke);
    assert Reset(MarkRevoked(Fresh(b)), b) == Fresh(b) by {
      assert Reset(MarkRevoked(Fresh(b)), b).returned == [];
    }
    steps', w' := Go(a, steps', w', ResetOnAssign(b));
    steps', w' := Go(a, steps', w', MarkAssigned);
  }

  /** A First completes with nothing to anchor the epoch, and the next tick commits it. */
  lemma FirstCommitted(a: World, steps: seq<Step>, w: World, item: Item) returns (steps': seq<Step>, w': World)
    requires Locked(a) && Locked(w) && Runs(a, steps, w)
    requires w.phase.Owned? && !w.sending && w.tracker == Some(Fresh(-1))
    requires item in w.flight && item.first && item.offset >= 0
    ensures Locked(w') && Runs(a, steps', w') && steps' == steps + [Complete(item), TickBegin([]), TickEnd(Accepted)]
    ensures w'.pos == item.offset + 1 && w'.phase.Owned? && !w'.sending && w'.flight == w.flight - {item}
    ensures w'.log.live == w.log.live && w'.log.end == w.log.end
    ensures w'.tracker.Some? && w'.tracker.value.gap == [] && w'.tracker.value.ready.None?
  {
    steps', w' := Go(a, steps, w, Complete(item));
    steps', w' := Go(a, steps', w', TickBegin([]));
    steps', w' := Go(a, steps', w', TickEnd(Accepted));
  }

  /** Record 0 is assigned, read and still being processed. */
  lemma OneInFlight(b: int) returns (steps: seq<Step>, w: World)
    requires b <= 0
    ensures var a := Unread({0}, 1);
      && Init(a) && Runs(a, steps, w) && NoStampResets(steps)
      && w == a.(phase := Owned, tracker := Some(Fresh(b)), clock := 1, epochClock := 1, stamp := Some(0),
                 fetch := 1, delivered := [Item(0, 0, 0, -1, true, 1)], flight := {Item(0, 0, 0, -1, true, 1)},
                 nextId := 1)
  {
    steps, w := Begin({0}, 1, b);
    steps, w := Go(Unread({0}, 1), steps, w, Deliver(0, 1));
  }

  /** Then everything is safe, and not everything read is completed. */
  lemma ReadUncompleted() returns (steps: seq<Step>, w: World)
    ensures var a := Unread({0}, 1);
      && Init(a) && Runs(a, steps, w) && Safe(w) && Marked(w.phase) && w.tracker.Some?
      && !Covered(w.log, w.fetch - 1)
  {
    var a := Unread({0}, 1);
    steps, w := OneInFlight(0);
    StaysSafe(a, steps, w);
    StillOpen(w.log, 0, w.fetch - 1);
  }

  lemma StaysSafe(a: World, steps: seq<Step>, w: World)
    requires Init(a) && Runs(a, steps, w) && NoStampResets(steps)
    ensures Safe(w)
  {
    InitSafe(a);
    NoResetsDrained(a, steps);
    RunSafe(a, steps, w);
  }

  lemma StillOpen(log: Log, r: int, upto: int)
    requires r in log.live && r !in log.done && log.start <= r <= upto
    ensures !Covered(log, upto)
  {
  }

  /** An assign event that names no partition, while a record is in flight, can end in its loss. */
  lemma EmptyAssignLosesARecord() returns (steps: seq<Step>, w: World)
    ensures Init(Unread({0}, 1)) && Runs(Unread({0}, 1), steps, w)
    ensures exists r :: r in w.log.live && w.log.start <= r < w.pos && r !in w.log.done
  {
    var a := Unread({0}, 1);
    var first, v := ReadUncompleted();
    var rest;
    rest, w := ResetLoses(v);
    var c;
    first, c := Go(a, first, v, ClearStamp);
    RunsConcat(a, first, c, rest, w);
    steps := first + rest;
  }

  // ---- the position moves back ----

  /** Revoked with record 0 in flight, while the log grows and another owner commits past it. */
  lemma TakenOver() returns (steps: seq<Step>, w: World)
    ensures var a := Unread({0}, 1);
      && Init(a) && Runs(a, steps, w) && Locked(w)
      && w.pos == w.log.end == 2 && w.phase.Away? && !w.sending && w.log.live == {0, 1} && w.nextId == 1
      && w.tracker == Some(MarkRevoked(Fresh(-1))) && w.flight == {Item(0, 0, 0, -1, true, 1)}
  {
    var a := Unread({0}, 1);
    steps, w := OneInFlight(-1);
    steps, w := Go(a, steps, w, MarkLost);
    steps, w := Go(a, steps, w, AckRevoke);
    steps, w := Go(a, steps, w, Append(1));
    assert w.log.live == {0, 1};
    steps, w := Go(a, steps, w, OtherOwner(2, {0, 1}));
  }

  /** And the partition comes back with an unknown baseline. */
  lemma StaleFirstInFlight() returns (steps: seq<Step>, w: World)
    ensures var a := Unread({0}, 1);
      && Init(a) && Runs(a, steps, w) && Locked(w)
      && w.pos == w.fetch == w.epochStart == w.log.end == 2 && w.phase.Owned? && !w.sending && w.stamp.None?
      && w.log.live == w.seen == {0, 1} && w.delivered == [] && w.nextId == 1
      && w.tracker == Some(Fresh(-1)) && w.flight == {Item(0, 0, 0, -1, true, 1)}
  {
    var a := Unread({0}, 1);
    steps, w := TakenOver();
    assert Reset(MarkRevoked(Fresh(-1)), -1) == Fresh(-1) by {
      assert Reset(MarkRevoked(Fresh(-1)), -1).returned == [];
    }
    steps, w := Go(a, steps, w, ResetOnAssign(-1));
    steps, w := Go(a, steps, w, MarkAssigned);
  }

  /** With an unknown baseline, that record's late completion moves the committed position back from 2 to 1. */
  lemma UnknownBaselineRegresses() returns (steps: seq<Step>, w: World, rest: seq<Step>, w': World)
    ensures Init(Unread({0}, 1)) && Runs(Unread({0}, 1), steps, w) && Locked(w) && Runs(w, rest, w')
    ensures w.pos == 2 && w'.pos == 1 && (forall s :: s in rest ==> !s.Rewind?)
  {
    steps, w := StaleFirstInFlight();
    rest, w' := FirstCommitted(w, [], w, Item(0, 0, 0, -1, true, 1));
  }

  /** Record 0 completed but not committed, the consumer fenced, and another owner past it. */
  lemma FencedReady() returns (steps: seq<Step>, w: World)
    ensures var a := Unread({0}, 1);
      && Init(a) && Runs(a, steps, w) && Locked(w)
      && w.pos == 2 && w.phase.Fenced? && !w.sending && w.tracker.Some?
      && w.tracker.value.ready.Some? && w.tracker.value.ready.value.offset == 0
      && w.tracker.value.gap == [] && w.tracker.value.assignment.Assigned?
  {
    var a := Unread({0}, 1);
    steps, w := OneInFlight(0);
    steps, w := Go(a, steps, w, Complete(Item(0, 0, 0, -1, true, 1)));
    steps, w := Go(a, steps, w, Fence);
    steps, w := Go(a, steps, w, Append(1));
    assert w.log.live == {0, 1};
    steps, w := Go(a, steps, w, OtherOwner(2, {0, 1}));
  }

  /** So does an assign that no revoke preceded: the Ready of the fenced epoch is committed by the new one. */
  lemma UnrevokedAssignRegresses() returns (steps: seq<Step>, w: World, rest: seq<Step>, w': World)
    ensures Init(Unread({0}, 1)) && Runs(Unread({0}, 1), steps, w) && Locked(w) && Runs(w, rest, w')
    ensures w.pos == 2 && w'.pos == 1 && (forall s :: s in rest ==> !s.Rewind? && !s.Complete?)
  {
    steps, w := FencedReady();
    rest, w' := Go(w, [], w, ResetOnAssign(-1));
    rest, w' := Go(w, rest, w', TickBegin([]));
    rest, w' := Go(w, rest, w', TickEnd(Accepted));
  }

  // ---- a stranded epoch ----

  /** Back at position 2, record 2 is delivered as a First beside the stale one. */
  lemma TwoFirsts() returns (steps: seq<Step>, w: World, f: Item)
    ensures var a := Unread({0}, 1);
      && Init(a) && Runs(a, steps, w) && Locked(w)
      && w.pos == 2 && w.log.end == 3 && w.phase.Owned? && !w.sending && w.log.live == {0, 1, 2}
      && f.offset == 2 && f.first && f.prev == 1 && w.flight == {Item(0, 0, 0, -1, true, 1), f}
      && w.tracker == Some(Fresh(-1))
  {
    var a := Unread({0}, 1);
    steps, w := StaleFirstInFlight();
    steps, w := Go(a, steps, w, Append(2));
    f := StampItem(w, 2, w.clock);
    steps, w := Go(a, steps, w, Deliver(2, w.clock));
  }

  /** The stale First completes and is committed: the position moves back to 1, the other First in flight. */
  lemma MovedBack() returns (steps: seq<Step>, w: World, f: Item)
    ensures var a := Unread({0}, 1);
      && Init(a) && Runs(a, steps, w) && Locked(w)
      && w.pos == 1 && w.log.end == 3 && w.phase.Owned? && !w.sending && w.log.live == {0, 1, 2}
      && f.offset == 2 && f.first && f.prev == 1 && w.flight == {f}
      && w.tracker.Some? && w.tracker.value.gap == [] && w.tracker.value.ready.None?
  {
    var a := Unread({0}, 1);
    steps, w, f := TwoFirsts();
    steps, w := FirstCommitted(a, steps, w, Item(0, 0, 0, -1, true, 1));
  }

  /** The next epoch starts at 1, and before the mark the First at 2 anchors it. */
  lemma AnchoredAbove() returns (steps: seq<Step>, w: World)
    ensures var a := Unread({0}, 1);
      && Init(a) && Runs(a, steps, w) && Locked(w)
      && w.pos == w.fetch == w.epochStart == 1 && w.log.end == 3 && w.phase.Granted? && !w.sending
      && w.log.live == w.seen == {0, 1, 2} && w.stamp.None? && w.delivered == [] && w.flight == {}
      && w.tracker.Some? && w.tracker.value.cpo == 2 && w.tracker.value.last == -1
      && w.tracker.value.gap == [] && w.tracker.value.ready.Some? && !w.tracker.value.flag
  {
    var a := Unread({0}, 1);
    var f;
    steps, w, f := MovedBack();
    steps, w := Go(a, steps, w, MarkLost);
    steps, w := Go(a, steps, w, AckRevoke);
    steps, w := Go(a, steps, w, ResetOnAssign(-1));
    steps, w := Go(a, steps, w, Complete(f));
  }

  /** A tick throws the anchor away; then the partition is marked. */
  lemma AnchorLost() returns (steps: seq<Step>, w: World)
    ensures var a := Unread({0}, 1);
      && Init(a) && Runs(a, steps, w) && Locked(w)
      && w.pos == w.fetch == w.epochStart == 1 && w.log.end == 3 && w.phase.Owned? && !w.sending
      && w.log.live == w.seen == {0, 1, 2} && w.stamp.None? && w.delivered == [] && w.flight == {}
      && w.tracker.Some? && w.tracker.value.cpo == 2 && w.tracker.value.last == -1
      && w.tracker.value.gap == [] && w.tracker.value.ready.None? && !w.tracker.value.flag
  {
    var a := Unread({0}, 1);
    steps, w := AnchoredAbove();
    steps, w := Go(a, steps, w, TickBegin([]));
    steps, w := Go(a, steps, w, MarkAssigned);
  }

  /** Record 2 is gone and 3 is appended. */
  lemma AnchorGone() returns (steps: seq<Step>, w: World)
    ensures var a := Unread({0}, 1);
      && Init(a) && Runs(a, steps, w) && Locked(w) && w.pos == 1 && w.fetch == 1 && w.phase.Owned? && !w.sending
      && w.log.live == {0, 1, 3} && w.seen == {0, 1, 2, 3} && w.stamp.None? && w.delivered == [] && w.flight == {}
      && w.tracker.Some? && w.tracker.value.cpo == 2 && w.tracker.value.last == -1
      && w.tracker.value.gap == [] && w.tracker.value.ready.None? && !w.tracker.value.flag
  {
    var a := Unread({0}, 1);
    steps, w := AnchorLost();
    steps, w := Go(a, steps, w, Remove({2}));
    steps, w := Go(a, steps, w, Append(3));
  }

  /** Records 1 and 3 are delivered. */
  lemma TwoDelivered() returns (steps: seq<Step>, w: World, one: Item, three: Item)
    ensures var a := Unread({0}, 1);
      && Init(a) && Runs(a, steps, w) && Locked(w) && w.pos == 1 && w.phase.Owned? && !w.sending
      && one.offset == 1 && three.offset == 3 && three.prev == 1 && !three.first
      && w.delivered == [one, three] && w.flight == {one, three}
      && w.tracker.Some? && w.tracker.value.cpo == 2 && w.tracker.value.last == -1
      && w.tracker.value.gap == [] && w.tracker.value.ready.None? && !w.tracker.value.flag
  {
    var a := Unread({0}, 1);
    steps, w := AnchorGone();
    one := StampItem(w, 1, w.clock);
    steps, w := Go(a, steps, w, Deliver(1, w.clock));
    three := StampItem(w, 3, w.clock);
    steps, w := Go(a, steps, w, Deliver(3, w.clock));
  }

  /**
    A stall: everything the epoch delivered is completed, the position is below the last delivery, and
    every tick leaves everything as it is.
   */
  lemma StrandedStalls() returns (steps: seq<Step>, w: World)
    ensures Init(Unread({0}, 1)) && Runs(Unread({0}, 1), steps, w) && Locked(w)
    ensures Rests(w) && w.pos <= LastDelivered(w)
    ensures forall sorted :: Can(w, TickBegin(sorted)) ==> Tick(w, sorted) == w
  {
    var a := Unread({0}, 1);
    var one, three;
    steps, w, one, three := TwoDelivered();
    steps, w := Go(a, steps, w, Complete(one));
    steps, w := Go(a, steps, w, Complete(three));
    forall sorted | Can(w, TickBegin(sorted)) ensures Tick(w, sorted) == w {
      FixedStays(w.tracker.value, sorted);
    }
  }

  // ---- the same with real baselines, and a position that never moves ----

  /** Baselines are the broker's, and nothing in the run can move the committed position. */
  ghost predicate StandsStill(steps: seq<Step>) {
    RealBaselines(steps) && forall s :: s in steps ==> !s.Rewind? && !s.OtherOwner? && !s.TickEnd?
  }

  /** Take one more such step. */
  lemma GoStill(a: World, steps: seq<Step>, w: World, s: Step) returns (steps': seq<Step>, w': World)
    requires Locked(a) && Locked(w) && Runs(a, steps, w) && Can(w, s) && StandsStill(steps) && StandsStill([s])
    ensures Locked(w') && w' == Next(w, s) && Runs(a, steps', w') && StandsStill(steps')
  {
    assert s in [s];
    steps', w' := Go(a, steps, w, s);
  }

  /** Record 0 is delivered, and an assign that names no partition clears the stamp. */
  lemma ClearedAfterZero() returns (steps: seq<Step>, w: World)
    ensures var a := Unread({0, 1}, 2);
      && Init(a) && Runs(a, steps, w) && Locked(w) && StandsStill(steps)
      && w.pos == 0 && w.log == a.log && w.seen == {0, 1} && w.phase.Owned? && !w.sending && w.stamp.None?
      && w.tracker == Some(Fresh(0)) && w.nextId == 1 && w.fetch == 1 && w.clock == 1
      && (forall g :: g in w.flight ==> g.id < 1)
  {
    var a := Unread({0, 1}, 2);
    steps, w := Begin({0, 1}, 2, 0);
    steps, w := GoStill(a, steps, w, Deliver(0, 1));
    steps, w := GoStill(a, steps, w, ClearStamp);
  }

  /** So record 1 is delivered as a First. */
  lemma SecondFirst() returns (steps: seq<Step>, w: World, f: Item)
    ensures var a := Unread({0, 1}, 2);
      && Init(a) && Runs(a, steps, w) && Locked(w) && StandsStill(steps)
      && w.pos == 0 && w.log == a.log && w.phase.Owned? && !w.sending && w.tracker == Some(Fresh(0)) && w.nextId == 2
      && f.offset == 1 && f.first && f.prev == 0 && f in w.flight && (forall g :: g in w.flight ==> g.id < 2)
  {
    steps, w := ClearedAfterZero();
    f := StampItem(w, 1, 1);
    steps, w := GoStill(Unread({0, 1}, 2), steps, w, Deliver(1, 1));
  }

  /** Revoked, and assigned again at 0. */
  lemma BackAtZero() returns (steps: seq<Step>, w: World, f: Item)
    ensures var a := Unread({0, 1}, 2);
      && Init(a) && Runs(a, steps, w) && Locked(w) && StandsStill(steps)
      && w.pos == w.fetch == w.epochStart == 0 && w.log.end == 2 && w.phase.Granted? && !w.sending
      && w.log.live == w.seen == {0, 1} && w.stamp.None? && w.delivered == [] && w.nextId == 2
      && w.tracker == Some(Fresh(0)) && f.offset == 1 && f.first && f in w.flight
      && (forall g :: g in w.flight ==> g.id < 2)
  {
    var a := Unread({0, 1}, 2);
    steps, w, f := SecondFirst();
    steps, w := GoStill(a, steps, w, MarkLost);
    steps, w := GoStill(a, steps, w, AckRevoke);
    assert Reset(MarkRevoked(Fresh(0)), 0) == Fresh(0) by {
      assert Reset(MarkRevoked(Fresh(0)), 0).returned == [];
    }
    steps, w := GoStill(a, steps, w, ResetOnAssign(0));
  }

  /** The late First raises the baseline to 1 before the mark. */
  lemma RaisedToOne() returns (steps: seq<Step>, w: World)
    ensures var a := Unread({0, 1}, 2);
      && Init(a) && Runs(a, steps, w) && Locked(w) && StandsStill(steps)
      && w.pos == w.fetch == w.epochStart == 0 && w.log.end == 2 && w.phase.Granted? && !w.sending
      && w.log.live == w.seen == {0, 1} && w.stamp.None? && w.delivered == [] && w.nextId == 2
      && (forall g :: g in w.flight ==> g.id < 2) && w.tracker.Some? && w.tracker.value.cpo == 1
      && w.tracker.value.last == -1 && w.tracker.value.gap == [] && !w.tracker.value.flag
  {
    var f;
    steps, w, f := BackAtZero();
    steps, w := GoStill(Unread({0, 1}, 2), steps, w, Complete(f));
  }

  /** A tick strands the epoch. */
  lemma TickedAtOne() returns (steps: seq<Step>, w: World)
    ensures var a := Unread({0, 1}, 2);
      && Init(a) && Runs(a, steps, w) && Locked(w) && StandsStill(steps)
      && w.pos == w.fetch == 0 && w.log.end == 2 && w.phase.Owned? && !w.sending && w.log.live == w.seen == {0, 1}
      && w.stamp.None? && w.delivered == [] && w.nextId == 2 && (forall g :: g in w.flight ==> g.id < 2)
      && w.tracker.Some? && w.tracker.value.cpo == 1 && w.tracker.value.last == -1
      && w.tracker.value.gap == [] && w.tracker.value.ready.None? && !w.tracker.value.flag
  {
    var a := Unread({0, 1}, 2);
    steps, w := RaisedToOne();
    steps, w := GoStill(a, steps, w, TickBegin([]));
    steps, w := GoStill(a, steps, w, MarkAssigned);
  }

  /** Then record 1 is removed and 2 appended. */
  lemma StrandedAtOne() returns (steps: seq<Step>, w: World)
    ensures var a := Unread({0, 1}, 2);
      && Init(a) && Runs(a, steps, w) && Locked(w) && StandsStill(steps)
      && w.pos == w.fetch == 0 && w.phase.Owned? && !w.sending && w.log.live == {0, 2} && w.seen == {0, 1, 2}
      && w.stamp.None? && w.delivered == [] && w.nextId == 2 && (forall g :: g in w.flight ==> g.id < 2)
      && w.tracker.Some? && w.tracker.value.cpo == 1 && w.tracker.value.last == -1
      && w.tracker.value.gap == [] && w.tracker.value.ready.None? && !w.tracker.value.flag
  {
    var a := Unread({0, 1}, 2);
    steps, w := TickedAtOne();
    steps, w := GoStill(a, steps, w, Remove({1}));
    steps, w := GoStill(a, steps, w, Append(2));
  }

  /** Records 0 and 2 are delivered. */
  lemma ZeroAndTwo() returns (steps: seq<Step>, w: World, zero: Item, two: Item)
    ensures var a := Unread({0, 1}, 2);
      && Init(a) && Runs(a, steps, w) && Locked(w) && StandsStill(steps)
      && w.pos == 0 && w.phase.Owned? && !w.sending && w.delivered == [zero, two]
      && zero.offset == 0 && two.offset == 2 && two.prev == 0 && !two.first
      && zero in w.flight && two in w.flight && zero != two
      && w.tracker.Some? && w.tracker.value.cpo == 1 && w.tracker.value.last == -1
      && w.tracker.value.gap == [] && w.tracker.value.ready.None? && !w.tracker.value.flag
  {
    var a := Unread({0, 1}, 2);
    steps, w := StrandedAtOne();
    zero := StampItem(w, 0, w.clock);
    steps, w := GoStill(a, steps, w, Deliver(0, w.clock));
    two := StampItem(w, 2, w.clock);
    steps, w := GoStill(a, steps, w, Deliver(2, w.clock));
  }

  /** Real baselines, no rewind, no other owner, the position at 0 throughout: and still a stall. */
  lemma RealBaselineStalls() returns (steps: seq<Step>, w: World)
    ensures Init(Unread({0, 1}, 2)) && Runs(Unread({0, 1}, 2), steps, w) && Locked(w) && StandsStill(steps)
    ensures Rests(w) && w.pos == 0 && LastDelivered(w) == 2
    ensures forall sorted :: Can(w, TickBegin(sorted)) ==> Tick(w, sorted) == w
  {
    var a := Unread({0, 1}, 2);
    var zero, two;
    steps, w, zero, two := ZeroAndTwo();
    steps, w := GoStill(a, steps, w, Complete(zero));
    steps, w := GoStill(a, steps, w, Complete(two));
    forall sorted | Can(w, TickBegin(sorted)) ensures Tick(w, sorted) == w {
      FixedStays(w.tracker.value, sorted);
    }
  }

  // ---- an orphan left at rest ----

  ghost predicate Unticked(steps: seq<Step>) {
    forall s :: s in steps ==> !s.TickBegin?
  }

  /** Records 0 and 1 are read and not completed. */
  lemma TwoInFlight() returns (steps: seq<Step>, w: World)
    ensures var a := Unread({0, 1, 2}, 3);
      && Init(a) && Runs(a, steps, w) && Locked(w) && Unticked(steps)
      && w.pos == 0 && w.phase.Owned? && !w.sending && w.log == a.log && w.seen == {0, 1, 2}
      && w.tracker == Some(Fresh(0)) && w.stamp == Some(1) && w.fetch == 2 && w.clock == 1 && w.nextId == 2
      && (forall g :: g in w.flight ==> g.id < 2)
  {
    var a := Unread({0, 1, 2}, 3);
    steps, w := Begin({0, 1, 2}, 3, 0);
    steps, w := Go(a, steps, w, Deliver(0, 1));
    steps, w := Go(a, steps, w, Deliver(1, 1));
  }

  /** So is record 2. */
  lemma ThreeInFlight() returns (steps: seq<Step>, w: World, orphan: Item)
    ensures var a := Unread({0, 1, 2}, 3);
      && Init(a) && Runs(a, steps, w) && Locked(w) && Unticked(steps)
      && w.pos == 0 && w.phase.Owned? && !w.sending && w.log == a.log && w.tracker == Some(Fresh(0))
      && orphan in w.flight && orphan.offset == 2 && orphan.prev == 1 && !orphan.first && w.nextId == 3
      && (forall g :: g in w.flight ==> g.id < 3)
  {
    var a := Unread({0, 1, 2}, 3);
    steps, w := TwoInFlight();
    orphan := StampItem(w, 2, 1);
    steps, w := Go(a, steps, w, Deliver(2, 1));
  }

  /** Then the partition is revoked and assigned again at 0. */
  lemma OrphanedThree() returns (steps: seq<Step>, w: World, orphan: Item)
    ensures var a := Unread({0, 1, 2}, 3);
      && Init(a) && Runs(a, steps, w) && Locked(w) && Unticked(steps)
      && w.pos == w.fetch == w.epochStart == 0 && w.phase.Owned? && !w.sending && w.stamp.None?
      && w.log.live == w.seen == {0, 1, 2} && w.log.end == 3 && w.delivered == [] && w.tracker == Some(Fresh(0))
      && orphan in w.flight && orphan.offset == 2 && orphan.prev == 1 && !orphan.first && w.nextId == 3
      && (forall g :: g in w.flight ==> g.id < 3)
  {
    var a := Unread({0, 1, 2}, 3);
    steps, w, orphan := ThreeInFlight();
    steps, w := Reassign(a, steps, w, 0);
  }

  lemma {:induction false} UntickedIsRegular(w: World, steps: seq<Step>)
    requires Locked(w) && Unticked(steps)
    ensures Regular(w, steps)
    decreases |steps|
  {
    if steps != [] && Can(w, steps[0]) {
      assert steps[0] in steps;
      NextLocked(w, steps[0]);
      UntickedIsRegular(Next(w, steps[0]), steps[1..]);
    }
  }

  /** Record 2 completes as an orphan, and 1 and 2 are removed. */
  lemma OrphanCompleted() returns (steps: seq<Step>, w: World, orphan: Item)
    ensures var a := Unread({0, 1, 2}, 3);
      && Init(a) && Runs(a, steps, w) && Locked(w) && Unticked(steps)
      && w.phase.Owned? && !w.sending && w.stamp.None? && w.fetch == 0 && w.delivered == []
      && w.log.live == {0} && 0 in w.seen && w.nextId == 3 && (forall g :: g in w.flight ==> g.id < 3)
      && orphan.offset == 2 && orphan.prev == 1
      && w.tracker.Some? && w.tracker.value == Fresh(0).(gap := [orphan])
  {
    var a := Unread({0, 1, 2}, 3);
    steps, w, orphan := OrphanedThree();
    steps, w := Go(a, steps, w, Complete(orphan));
    steps, w := Go(a, steps, w, Remove({1, 2}));
  }

  /** Record 0 is delivered and completed. */
  lemma OrphanBuffered() returns (steps: seq<Step>, w: World, orphan: Item)
    ensures var a := Unread({0, 1, 2}, 3);
      && Init(a) && Runs(a, steps, w) && Locked(w) && Unticked(steps)
      && Rests(w) && LastDelivered(w) == 0 && w.log.live == {0}
      && w.tracker.Some? && w.tracker.value.gap == [orphan] && orphan.offset == 2 && orphan.prev == 1
      && w.tracker.value.ready.Some? && w.tracker.value.ready.value.offset == 0
      && w.tracker.value.cpo == 0 && w.tracker.value.last == -1
  {
    var a := Unread({0, 1, 2}, 3);
    steps, w, orphan := OrphanCompleted();
    var zero := StampItem(w, 0, w.clock);
    steps, w := Go(a, steps, w, Deliver(0, w.clock));
    steps, w := Go(a, steps, w, Complete(zero));
    assert w.delivered == [zero] && zero !in w.flight;
  }

  /** At rest with the whole log delivered and committed, and yet no number of ticks empties the buffer. */
  lemma OrphanStaysBuffered() returns (steps: seq<Step>, w: World)
    ensures Init(Unread({0, 1, 2}, 3)) && Runs(Unread({0, 1, 2}, 3), steps, w) && Tickable(w) && Rests(w)
    ensures w.log.live == {LastDelivered(w)}
    ensures forall sorts, u :: Ticks(w, sorts, u) ==> !Empty(u)
  {
    var orphan;
    steps, w, orphan := OrphanBuffered();
    InitLive(Unread({0, 1, 2}, 3));
    UntickedIsRegular(Unread({0, 1, 2}, 3), steps);
    RunLive(Unread({0, 1, 2}, 3), steps, w);
    assert orphan in w.tracker.value.gap;
    assert Cut(w.tracker.value, 0);
    forall sorts, u | Ticks(w, sorts, u) ensures !Empty(u) {
      TicksStuck(w, sorts, u, 0);
    }
  }
}
