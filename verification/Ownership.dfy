/**
  Ownership across every interleaving of rebalance steps with ticks and completions, and the tie between
  a partition's steps in the world and the committer's methods.
 */
module Ownership {
  import opened WorkItems
  import opened GapOrder
  import opened PartitionTracker
  import opened PartitionWorld
  import opened Committer

  /** A tracker carries the revoke mark exactly outside any epoch; nothing is in flight before it exists. */
  ghost predicate Closed(w: World) {
    && Locked(w)
    && (w.tracker.None? ==> w.phase.Away? && w.flight == {})
    && (w.tracker.Some? ==> (w.tracker.value.assignment.Revoked? <==> w.phase.Away? || w.phase.Leaving?))
  }

  lemma FlushAssignment(t: Tracker, sorted: seq<Item>)
    ensures Flush(t, sorted).assignment == t.assignment
  {
    if t.flag && t.gap != [] {
      WalkKeeps(t.(flag := false, dropped := t.dropped + Dropped(sorted)), Compact(sorted));
    }
  }

  lemma StepClosed(w: World, s: Step)
    requires Closed(w) && Can(w, s)
    ensures Closed(Next(w, s))
  {
    NextLocked(w, s);
    match s
    case BatchEnd(sorted) => FlushAssignment(w.tracker.value, sorted);
    case TickBegin(sorted) => FlushAssignment(w.tracker.value, sorted);
    case _ =>
  }

  lemma {:induction false} RunClosed(w: World, steps: seq<Step>, w': World)
    requires Closed(w) && Runs(w, steps, w')
    ensures Closed(w')
    decreases |steps|
  {
    if steps != [] {
      StepClosed(w, steps[0]);
      RunClosed(Next(w, steps[0]), steps[1..], w');
    }
  }

  /** Ready, if any, and then the buffer. */
  function Holding(t: Tracker): seq<Item> {
    (if t.ready.Some? then [t.ready.value] else []) + t.gap
  }

  /**
    Whatever run led to the assign: after a revoke nothing the closed epoch left behind survives the reset
    and all of it is handed back; without one, the buffer and a Ready at or above the baseline survive. So
    an epoch starts clean exactly when a revoke preceded it or there was nothing to keep.
   */
  lemma EpochStartsClean(w: World, steps: seq<Step>, w': World, b: int)
    requires Init(w) && Runs(w, steps, w') && Locked(w') && Can(w', ResetOnAssign(b))
    ensures var t := Next(w', ResetOnAssign(b)).tracker.value;
      var r := TrackerOf(w').ready;
      && t.last == -1 && t.cpo == b && (t.flag <==> t.gap != [])
      && (w'.phase.Away? ==> Holding(t) == [])
      && (w'.phase.Away? && w'.tracker.Some? ==> t.returned == w'.tracker.value.returned + Holding(w'.tracker.value))
      && (Holding(t) == [] <==>
            w'.phase.Away? || (TrackerOf(w').gap == [] && (r.Some? ==> r.value.offset < b)))
  {
    RunClosed(w, steps, w');
  }

  /** Steps by which someone else moves the committed position. */
  predicate Foreign(s: Step) {
    s.OtherOwner? || s.Rewind?
  }

  /**
    From the moment a partition is unmarked (before the revoke is acknowledged) until it is marked
    again, no commit for it is in flight or issued, and only others move its position.
   */
  lemma {:induction false} SilentUntilMarked(w: World, steps: seq<Step>, w': World)
    requires Closed(w) && !Marked(w.phase) && Runs(w, steps, w')
    requires forall s :: s in steps ==> !s.MarkAssigned?
    ensures !Marked(w'.phase) && !w'.sending
    ensures (forall s :: s in steps ==> !Foreign(s)) ==> w'.pos == w.pos
    decreases |steps|
  {
    if steps != [] {
      assert steps[0] in steps;
      StepClosed(w, steps[0]);
      SilentUntilMarked(Next(w, steps[0]), steps[1..], w');
    }
  }

  // ---- the steps are what the committer's methods do ----

  /** A tick of the world is CommitOffsets as one partition sees it, commit and answer included. */
  lemma TickIsCommitOffsets(w: World, sorted: seq<Item>, outcome: Outcome)
    requires Locked(w) && Can(w, TickBegin(sorted))
    ensures var f := Flush(w.tracker.value, sorted);
      var v := Next(w, TickBegin(sorted));
      && FlushedTo(w.tracker.value, f)
      && Locked(v) && v.tracker == Some(Ticked(f, Marked(w.phase), false))
      && (v.sending <==> SentBy(f, Marked(w.phase)).Some?)
      && (v.sending && Can(v, TickEnd(outcome)) ==>
            var u := Next(v, TickEnd(outcome));
            && u.tracker == Some(Ticked(f, true, outcome.Accepted?))
            && u.pos == if outcome.Refused? then w.pos else SentBy(f, true).value + 1)
  {
    NextLocked(w, TickBegin(sorted));
  }

  /** The other mutex-held steps are the arrival, the batch-end flush, the assign reset and the revoke mark. */
  lemma StepsAreMethods(w: World, p: int, m: map<int, Tracker>, s: Step)
    requires Locked(w) && Can(w, s) && (p in m <==> w.tracker.Some?) && (p in m ==> m[p] == w.tracker.value)
    ensures s.Complete? ==> Next(w, s).tracker == Some(Arrive(OrFresh(m, p), s.item))
    ensures s.BatchEnd? ==> p in m && Next(w, s).tracker.Some? && FlushedTo(m[p], Next(w, s).tracker.value)
    ensures s.ResetOnAssign? ==> Next(w, s).tracker == Some(AfterAssign(m, map[p := s.baseline], p))
    ensures s.MarkLost? && p in m ==> Next(w, s).tracker == Some(MarkRevoked(m[p]))
  {
  }
}
