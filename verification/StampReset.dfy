/**
  An assign event that names no partition clears every partition's stamp without touching any commit
  baseline. When exactly that loses records.
 */
module StampReset {
  import opened WorkItems
  import opened GapOrder
  import opened Stamps
  import opened PartitionTracker
  import opened PartitionWorld
  import opened Safety

  lemma {:induction false} RunsSnoc(w: World, steps: seq<Step>, w': World, s: Step)
    requires Locked(w) && Locked(w') && Runs(w, steps, w') && Can(w', s)
    ensures Locked(Next(w', s)) && Runs(w, steps + [s], Next(w', s))
    decreases |steps|
  {
    NextLocked(w', s);
    if steps == [] {
      assert [s][1..] == [];
    } else {
      NextLocked(w, steps[0]);
      RunsSnoc(Next(w, steps[0]), steps[1..], w', s);
      assert (steps + [s])[1..] == steps[1..] + [s];
    }
  }

  /** A Ready at or above the baseline is committed by the next accepted tick, or something above it. */
  lemma ReadyCommits(c: World) returns (steps: seq<Step>, w': World)
    requires Locked(c) && c.phase.Owned? && !c.sending && c.tracker.Some?
    requires c.tracker.value.ready.Some? && c.tracker.value.ready.value.offset >= c.tracker.value.cpo
    ensures Runs(c, steps, w') && NoStampResets(steps)
    ensures w'.pos > c.tracker.value.ready.value.offset && w'.log == c.log
  {
    var t := c.tracker.value;
    SomeArrangement(t.gap);
    var sorted :| Arranged(t.gap, sorted);
    var c1 := Next(c, TickBegin(sorted));
    RunsSnoc(c, [], c, TickBegin(sorted));
    WalkKeeps(t.(flag := false, dropped := t.dropped + Dropped(sorted)), Compact(sorted));
    assert c1.sending && c1.tracker.value.ready.value.offset >= t.ready.value.offset;
    w' := Next(c1, TickEnd(Accepted));
    steps := [] + [TickBegin(sorted)];
    RunsSnoc(c, steps, c1, TickEnd(Accepted));
    steps := steps + [TickEnd(Accepted)];
  }

  lemma {:induction false} RunsConcat(w: World, a: seq<Step>, v: World, b: seq<Step>, u: World)
    requires Locked(w) && Locked(v) && Runs(w, a, v) && Runs(v, b, u)
    ensures Runs(w, a + b, u)
    decreases |a|
  {
    if a == [] {
      assert a + b == b;
    } else {
      NextLocked(w, a[0]);
      RunsConcat(Next(w, a[0]), a[1..], v, b, u);
      assert (a + b)[1..] == a[1..] + b;
    }
  }

  /** A commit in flight is answered, if there is one. */
  lemma Answered(c: World) returns (steps: seq<Step>, v: World)
    requires Locked(c) && Marked(c.phase)
    ensures Locked(v) && Runs(c, steps, v) && NoStampResets(steps)
    ensures v == c.(sending := false)
  {
    steps, v := [], c;
    if c.sending {
      RunsSnoc(c, [], c, TickEnd(Refused));
      steps, v := [] + [TickEnd(Refused)], Next(c, TickEnd(Refused));
    }
  }

  /** With the stamp cleared, a record appended next is delivered as a First. */
  lemma FalseFirst(c: World) returns (steps: seq<Step>, v: World, item: Item)
    requires Locked(c) && Marked(c.phase) && !c.sending && c.stamp.None? && 0 <= c.fetch <= c.log.end
    ensures Locked(v) && Runs(c, steps, v) && NoStampResets(steps)
    ensures v.phase == c.phase && !v.sending && v.pos == c.pos && v.tracker == c.tracker
    ensures item in v.flight && item.first && item.offset == c.log.end
    ensures v.log.start == c.log.start && v.log.done == c.log.done
    ensures forall r :: r in c.log.live && r < c.fetch ==> r in v.log.live
  {
    var e := c.log.end;
    var tail := set r | r in c.log.live && r >= c.fetch;
    var c1 := Next(c, Remove(tail));
    RunsSnoc(c, [], c, Remove(tail));
    var c2 := Next(c1, Append(e));
    steps := [] + [Remove(tail)];
    RunsSnoc(c, steps, c1, Append(e));
    item := StampItem(c2, e, c2.clock);
    v := Next(c2, Deliver(e, c2.clock));
    steps := steps + [Append(e)];
    RunsSnoc(c, steps, c2, Deliver(e, c2.clock));
    steps := steps + [Deliver(e, c2.clock)];
  }

  /** The partition goes and comes back with an unknown baseline, the First still in flight. */
  lemma ComesBack(c: World) returns (steps: seq<Step>, v: World)
    requires Locked(c) && Marked(c.phase) && !c.sending && c.tracker.Some?
    ensures Locked(v) && Runs(c, steps, v) && NoStampResets(steps)
    ensures v.phase.Owned? && !v.sending && v.log == c.log && v.flight == c.flight
    ensures v.tracker.Some? && v.tracker.value.ready.None? && v.tracker.value.cpo == -1
  {
    var c1 := Next(c, MarkLost);
    RunsSnoc(c, [], c, MarkLost);
    var c2 := Next(c1, AckRevoke);
    steps := [] + [MarkLost];
    RunsSnoc(c, steps, c1, AckRevoke);
    var c3 := Next(c2, ResetOnAssign(-1));
    steps := steps + [AckRevoke];
    RunsSnoc(c, steps, c2, ResetOnAssign(-1));
    v := Next(c3, MarkAssigned);
    steps := steps + [ResetOnAssign(-1)];
    RunsSnoc(c, steps, c3, MarkAssigned);
    steps := steps + [MarkAssigned];
  }

  /** An unanchored First is committed over everything below it. */
  lemma FirstCommits(c: World, item: Item) returns (steps: seq<Step>, v: World)
    requires Locked(c) && c.phase.Owned? && !c.sending && c.tracker.Some?
    requires c.tracker.value.ready.None? && c.tracker.value.cpo == -1
    requires item in c.flight && item.first && item.offset >= 0
    ensures Runs(c, steps, v) && NoStampResets(steps)
    ensures v.pos > item.offset && v.log == c.log.(done := c.log.done + {item.offset})
  {
    var c1 := Next(c, Complete(item));
    RunsSnoc(c, [], c, Complete(item));
    var last;
    last, v := ReadyCommits(c1);
    steps := [] + [Complete(item)];
    RunsConcat(c, steps, c1, last, v);
    steps := steps + last;
  }

  /** Clearing the stamp over an uncompleted record can lose it. */
  lemma ResetLoses(w: World) returns (steps: seq<Step>, w': World)
    requires Safe(w) && Marked(w.phase) && w.tracker.Some? && !Covered(w.log, w.fetch - 1)
    ensures Locked(Next(w, ClearStamp)) && Runs(Next(w, ClearStamp), steps, w') && NoStampResets(steps)
    ensures !Covered(w'.log, w'.pos - 1)
  {
    var c := Next(w, ClearStamp);
    var a, c1 := Answered(c);
    var b, c2, item := FalseFirst(c1);
    RunsConcat(c, a, c1, b, c2);
    var d, c3 := ComesBack(c2);
    RunsConcat(c, a + b, c2, d, c3);
    var e;
    e, w' := FirstCommits(c3, item);
    RunsConcat(c, a + b + d, c3, e, w');
    steps := a + b + d + e;
    var r :| r in w.log.live && w.log.start <= r <= w.fetch - 1 && r !in w.log.done;
    assert r in w'.log.live && r !in w'.log.done;
  }

  /** No continuation of `w` whose further resets find the partition drained commits over an uncompleted record. */
  ghost predicate NeverLoses(w: World)
    requires Locked(w)
  {
    forall steps, w' :: Runs(w, steps, w') && ResetsDrained(w, steps) ==> Covered(w'.log, w'.pos - 1)
  }

  /**
    The exact condition: clearing the stamp of a marked partition, fenced or not, with or without a commit
    in flight, keeps no-loss if and only if every surviving record the poll loop has read so far is
    completed, that is, the partition is drained.
   */
  lemma StampResetExactly(w: World)
    requires Safe(w) && Can(w, ClearStamp) && w.tracker.Some?
    ensures Locked(Next(w, ClearStamp))
    ensures NeverLoses(Next(w, ClearStamp)) <==> Covered(w.log, w.fetch - 1)
  {
    var c := Next(w, ClearStamp);
    NextLocked(w, ClearStamp);
    if Covered(w.log, w.fetch - 1) {
      StepSafe(w, ClearStamp);
      forall steps, w' | Runs(c, steps, w') && ResetsDrained(c, steps) ensures Covered(w'.log, w'.pos - 1) {
        RunSafe(c, steps, w');
      }
    } else {
      var steps, w' := ResetLoses(w);
      NoResetsDrained(c, steps);
      assert Runs(c, steps, w') && ResetsDrained(c, steps);
    }
  }
}
