/** The committed position never moves backwards, and the one input that can move it. */
module Monotone {
  import opened WorkItems
  import opened GapOrder
  import opened PartitionTracker
  import opened PartitionWorld
  import opened Soundness

  /** An unknown baseline that nothing has anchored yet. */
  predicate Unanchored(t: Tracker) {
    t.cpo < 0 && t.ready.None? && t.last < 0
  }

  /** The next commit lands at `Floor(t)` or above. */
  function Floor(t: Tracker): int {
    Max(t.cpo, if t.ready.Some? then t.ready.value.offset else t.cpo)
  }

  /**
    With an unknown baseline, what can move the position back: a stale First that completes below it
    while nothing anchors the epoch, or an assign that no revoke preceded and that keeps a Ready below it.
   */
  predicate Regressive(w: World, s: Step) {
    match s
    case Complete(item) =>
      && item.first && (w.phase.Granted? || w.phase.Owned?)
      && Unanchored(TrackerOf(w)) && item.offset + 1 < w.pos
    case ResetOnAssign(b) =>
      && b < 0 && TrackerOf(w).assignment.Assigned?
      && TrackerOf(w).ready.Some? && TrackerOf(w).ready.value.offset + 1 < w.pos
    case _ => false
  }

  /** What keeps commits monotone. The closed-epoch mark is what a later reset clears state by. */
  ghost predicate Mono(w: World) {
    && Sound(w)
    && (w.tracker.None? ==> w.phase.Away? && w.flight == {})
    && (w.tracker.Some? ==>
          var t := w.tracker.value;
          && (w.phase.Away? || w.phase.Leaving? ==> t.assignment.Revoked?)
          && (w.phase.Granted? ==> Unanchored(t) || w.pos <= t.cpo + 1)
          && (w.phase.Owned? ==> Unanchored(t) || w.pos <= Floor(t) + 1)
          && (w.sending ==> t.ready.value.offset >= t.cpo))
  }

  lemma ArriveFloor(t: Tracker, w: Item)
    requires w.offset >= 0
    ensures Arrive(t, w).assignment == t.assignment
    ensures Arrive(t, w).cpo >= t.cpo && Floor(Arrive(t, w)) >= Floor(t)
    ensures Unanchored(t) && !w.first ==> Unanchored(Arrive(t, w))
    ensures w.first ==> Arrive(t, w).cpo >= w.offset
  {
  }

  lemma FlushFloor(log: Log, t: Tracker, sorted: seq<Item>)
    requires TrackerSound(log, t) && Arranged(t.gap, sorted)
    ensures var u := Flush(t, sorted);
      && u.assignment == t.assignment && u.cpo == t.cpo && u.last == t.last && Floor(u) >= Floor(t)
      && (Unanchored(t) ==> Unanchored(u))
  {
    if t.flag && t.gap != [] {
      ArrangedMembers(t.gap, sorted);
      CompactMembers(sorted);
      var s := t.(flag := false, dropped := t.dropped + Dropped(sorted));
      WalkKeeps(s, Compact(sorted));
      if Unanchored(t) && Compact(sorted) != [] {
        assert Compact(sorted)[0] in Compact(sorted);
        assert !Passes(s, Compact(sorted)[0]);
      }
    }
  }

  lemma CollectFloor(t: Tracker)
    ensures var u := Collect(t);
      && u.assignment == t.assignment && u.cpo == t.cpo && u.last == t.last && Floor(u) >= Floor(t)
      && (Unanchored(t) ==> Unanchored(u))
      && (u.ready.Some? ==> u.ready.value.offset >= u.cpo)
  {
    SuccessorProvable(t.gap, t.cpo, t.last);
  }

  lemma CompleteMono(w: World, item: Item)
    requires Mono(w) && Can(w, Complete(item)) && !Regressive(w, Complete(item))
    ensures Mono(Next(w, Complete(item)))
  {
    CompleteSound(w, item);
    assert StampTrue(w.log, item);
    ArriveFloor(w.tracker.value, item);
  }

  lemma TickBeginMono(w: World, sorted: seq<Item>)
    requires Mono(w) && Can(w, TickBegin(sorted))
    ensures Mono(Next(w, TickBegin(sorted)))
  {
    TickSound(w, sorted);
    FlushFloor(w.log, w.tracker.value, sorted);
    CollectFloor(Flush(w.tracker.value, sorted));
  }

  lemma BatchMono(w: World, sorted: seq<Item>)
    requires Mono(w) && Can(w, BatchEnd(sorted))
    ensures Mono(Next(w, BatchEnd(sorted)))
  {
    StepSound(w, BatchEnd(sorted));
    FlushFloor(w.log, w.tracker.value, sorted);
  }

  lemma TickEndMono(w: World, outcome: Outcome)
    requires Mono(w) && Can(w, TickEnd(outcome))
    ensures Mono(Next(w, TickEnd(outcome)))
    ensures Next(w, TickEnd(outcome)).pos >= w.pos
  {
    TickEndSound(w, outcome);
  }

  lemma ResetMono(w: World, b: int)
    requires Mono(w) && Can(w, ResetOnAssign(b)) && !Regressive(w, ResetOnAssign(b))
    ensures Mono(Next(w, ResetOnAssign(b)))
  {
    ResetSound(w, b);
  }

  lemma OtherMono(w: World, s: Step)
    requires Mono(w) && Can(w, s)
    requires !s.Complete? && !s.TickBegin? && !s.BatchEnd? && !s.TickEnd? && !s.ResetOnAssign?
    ensures Mono(Next(w, s))
  {
    StepSound(w, s);
  }

  lemma StepMono(w: World, s: Step)
    requires Mono(w) && Can(w, s) && !Regressive(w, s)
    ensures Mono(Next(w, s))
    ensures !s.Rewind? ==> Next(w, s).pos >= w.pos
  {
    match s
    case Complete(item) => CompleteMono(w, item);
    case BatchEnd(sorted) => BatchMono(w, sorted);
    case TickBegin(sorted) => TickBeginMono(w, sorted);
    case TickEnd(outcome) => TickEndMono(w, outcome);
    case ResetOnAssign(b) => ResetMono(w, b);
    case _ => OtherMono(w, s);
  }

  lemma InitMono(w: World)
    requires Init(w)
    ensures Mono(w)
  {
  }

  /** No step of the run is regressive. */
  ghost predicate NeverRegressive(w: World, steps: seq<Step>)
    requires Locked(w)
    decreases |steps|
  {
    steps != [] && Can(w, steps[0]) ==>
      && !Regressive(w, steps[0])
      && (NextLocked(w, steps[0]); NeverRegressive(Next(w, steps[0]), steps[1..]))
  }

  /**
    Commits never move the position backwards, over every run of assigns (with or without a revoke
    before), revokes, cleared stamps, fencing, orphans, other owners and failed or half-failed commits, unless
    one of the two regressive steps is taken against an unknown baseline.
   */
  lemma {:induction false} PositionNeverRegresses(w: World, steps: seq<Step>, w': World)
    requires Mono(w) && Runs(w, steps, w')
    requires NeverRegressive(w, steps)
    requires forall s :: s in steps ==> !s.Rewind?
    ensures w'.pos >= w.pos && Mono(w')
    decreases |steps|
  {
    if steps != [] {
      assert steps[0] in steps;
      StepMono(w, steps[0]);
      PositionNeverRegresses(Next(w, steps[0]), steps[1..], w');
    }
  }

  // ---- real baselines ----

  ghost predicate RealBaselines(steps: seq<Step>) {
    forall s :: s in steps && s.ResetOnAssign? ==> s.baseline >= 0
  }

  ghost predicate Grounded(w: World) {
    w.phase.Granted? || w.phase.Owned? ==> TrackerOf(w).cpo >= 0
  }

  lemma StepGrounded(w: World, s: Step)
    requires Mono(w) && Grounded(w) && Can(w, s) && (s.ResetOnAssign? ==> s.baseline >= 0)
    ensures Grounded(Next(w, s)) && !Regressive(w, s)
  {
    match s
    case BatchEnd(sorted) => FlushFloor(w.log, w.tracker.value, sorted);
    case TickBegin(sorted) =>
      FlushFloor(w.log, w.tracker.value, sorted);
      CollectFloor(Flush(w.tracker.value, sorted));
    case _ =>
  }

  /** With the broker's position as every assign's baseline no step is regressive. */
  lemma {:induction false} RealBaselinesNeverRegress(w: World, steps: seq<Step>, w': World)
    requires Mono(w) && Grounded(w) && Runs(w, steps, w')
    requires RealBaselines(steps)
    ensures NeverRegressive(w, steps)
    decreases |steps|
  {
    if steps != [] {
      assert steps[0] in steps;
      StepGrounded(w, steps[0]);
      StepMono(w, steps[0]);
      RealBaselinesNeverRegress(Next(w, steps[0]), steps[1..], w');
    }
  }

  /**
    So with real baselines, from a fresh start and between any two moments of the run, the committed
    position never moves back, commits that were applied but reported failed included.
   */
  lemma RealBaselinesMonotone(w: World, before: seq<Step>, u: World, after: seq<Step>, v: World)
    requires Init(w) && Runs(w, before, u) && Locked(u) && Runs(u, after, v)
    requires RealBaselines(before + after)
    requires forall s :: s in before + after ==> !s.Rewind?
    ensures w.pos <= u.pos <= v.pos
  {
    assert forall s :: s in before ==> s in before + after;
    assert forall s :: s in after ==> s in before + after;
    InitMono(w);
    RealBaselinesNeverRegress(w, before, u);
    PositionNeverRegresses(w, before, u);
    RunGrounded(w, before, u);
    RealBaselinesNeverRegress(u, after, v);
    PositionNeverRegresses(u, after, v);
  }

  lemma {:induction false} RunGrounded(w: World, steps: seq<Step>, w': World)
    requires Mono(w) && Grounded(w) && Runs(w, steps, w')
    requires RealBaselines(steps)
    ensures Grounded(w')
    decreases |steps|
  {
    if steps != [] {
      assert steps[0] in steps;
      StepGrounded(w, steps[0]);
      StepMono(w, steps[0]);
      RunGrounded(Next(w, steps[0]), steps[1..], w');
    }
  }

  // ---- the unknown baseline, exactly ----

  /** Where linkage leads from offset `r` through a sorted buffer. */
  function ChainEnd(buffer: seq<Item>, r: int): int {
    if buffer == [] then r
    else if buffer[0].offset <= r then ChainEnd(buffer[1..], r)
    else if buffer[0].prev == r then ChainEnd(buffer[1..], buffer[0].offset)
    else r
  }

  lemma {:induction false} WalkEnds(t: Tracker, buffer: seq<Item>)
    requires t.ready.Some?
    ensures Walk(t, buffer).ready.Some?
    ensures Walk(t, buffer).ready.value.offset == ChainEnd(buffer, t.ready.value.offset)
    decreases |buffer|
  {
    if buffer != [] && Passes(t, buffer[0]) {
      WalkEnds(Take(t, buffer[0]), buffer[1..]);
    }
  }

  lemma {:induction false} ChainStays(buffer: seq<Item>, r: int)
    requires !LinksTo(buffer, r)
    ensures ChainEnd(buffer, r) == r
  {
    if buffer != [] && buffer[0].offset <= r {
      assert !LinksTo(buffer[1..], r);
      ChainStays(buffer[1..], r);
    }
  }

  lemma CompactLinks(gap: seq<Item>, sorted: seq<Item>, r: int)
    requires Arranged(gap, sorted) && !LinksTo(gap, r)
    ensures !LinksTo(Compact(sorted), r)
  {
    ArrangedMembers(gap, sorted);
    CompactMembers(sorted);
    forall i | 0 <= i < |Compact(sorted)| ensures Compact(sorted)[i].prev != r {
      assert Compact(sorted)[i] in gap;
    }
  }

  /** A flush with Ready set ends where the links lead, flagged or not, if the flag is up whenever they lead on. */
  lemma FlushEnds(t: Tracker, sorted: seq<Item>)
    requires t.ready.Some? && Arranged(t.gap, sorted)
    requires !t.flag ==> !LinksTo(t.gap, t.ready.value.offset)
    ensures var u := Flush(t, sorted);
      && u.cpo == t.cpo && u.ready.Some?
      && u.ready.value.offset == ChainEnd(Compact(sorted), t.ready.value.offset) >= t.ready.value.offset
  {
    var s := t.(flag := false, dropped := t.dropped + Dropped(sorted));
    WalkEnds(s, Compact(sorted));
    WalkKeeps(s, Compact(sorted));
    if !t.flag {
      CompactLinks(t.gap, sorted, t.ready.value.offset);
      ChainStays(Compact(sorted), t.ready.value.offset);
    } else if t.gap == [] {
      ArrangedMembers(t.gap, sorted);
    }
  }

  /** The accepted tick of an owned partition with Ready at or above the baseline commits the end of its chain. */
  lemma TickCommitsChain(w: World, sorted: seq<Item>)
    requires Locked(w) && w.phase.Owned? && Can(w, TickBegin(sorted))
    requires var t := w.tracker.value;
      && t.ready.Some? && t.ready.value.offset >= t.cpo && (!t.flag ==> !LinksTo(t.gap, t.ready.value.offset))
    ensures Tick(w, sorted).pos == ChainEnd(Compact(sorted), w.tracker.value.ready.value.offset) + 1
  {
    FlushEnds(w.tracker.value, sorted);
  }

  /**
    A First that anchors an unknown baseline is committed by the next tick together with what the buffer
    links to it. The position moves backwards exactly when that chain ends below the committed record.
   */
  lemma RegressionExactly(w: World, item: Item, sorted: seq<Item>)
    requires Mono(w) && w.phase.Owned? && !w.sending && Unanchored(w.tracker.value)
    requires item in w.flight && item.first && Arranged(w.tracker.value.gap, sorted)
    ensures var w1 := Next(w, Complete(item));
      && Locked(w1) && Can(w1, TickBegin(sorted))
      && (Tick(w1, sorted).pos < w.pos <==> ChainEnd(Compact(sorted), item.offset) + 1 < w.pos)
  {
    assert StampTrue(w.log, item);
    NextLocked(w, Complete(item));
    TickCommitsChain(Next(w, Complete(item)), sorted);
  }

  /**
    An assign with an unknown baseline on a partition still marked: the next tick moves the position
    backwards exactly when no revoke marked the tracker, a Ready survived in it, and its chain ends below
    the committed record.
   */
  lemma ResetRegressionExactly(w: World, b: int, sorted: seq<Item>)
    requires Mono(w) && Marked(w.phase) && b < 0 && Can(w, ResetOnAssign(b))
    requires Arranged(Reset(w.tracker.value, b).gap, sorted)
    ensures var w1 := Next(w, ResetOnAssign(b));
      var t := w.tracker.value;
      && Locked(w1) && Can(w1, TickBegin(sorted))
      && (Tick(w1, sorted).pos < w.pos <==>
            && t.assignment.Assigned? && t.ready.Some?
            && ChainEnd(Compact(sorted), t.ready.value.offset) + 1 < w.pos)
  {
    var t := w.tracker.value;
    var u := Reset(t, b);
    NextLocked(w, ResetOnAssign(b));
    if u.ready.Some? {
      assert StampTrue(w.log, u.ready.value);
      TickCommitsChain(Next(w, ResetOnAssign(b)), sorted);
    } else {
      FlushFloor(w.log, u, sorted);
    }
  }
}
