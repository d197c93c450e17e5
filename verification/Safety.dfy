/** No loss: nothing is committed over a record that still exists and was never completed. */
module Safety {
  import opened WorkItems
  import opened GapOrder
  import opened PartitionTracker
  import opened PartitionWorld
  import opened Soundness

  /** Every surviving record of the group at or below `o` was completed. */
  ghost predicate Covered(log: Log, o: int) {
    forall r :: r in log.live && log.start <= r <= o ==> r in log.done
  }

  ghost predicate StampedOk(log: Log, g: Item) {
    StampTrue(log, g) && (g.first ==> Covered(log, g.offset - 1))
  }

  ghost predicate CompletedOk(log: Log, g: Item) {
    StampedOk(log, g) && g.offset in log.done
  }

  ghost predicate TrackerSafe(log: Log, t: Tracker) {
    && t.cpo <= log.end && t.last < log.end
    && Covered(log, t.cpo - 1) && Covered(log, t.last)
    && (t.ready.Some? ==> CompletedOk(log, t.ready.value) && Covered(log, t.ready.value.offset))
    && (forall g :: g in t.gap ==> CompletedOk(log, g))
  }

  /** A completed item whose stamp is at or below a covered offset is covered itself. */
  lemma LinkCovers(log: Log, anchor: int, g: Item)
    requires Covered(log, anchor) && CompletedOk(log, g) && g.prev <= anchor
    ensures Covered(log, g.offset)
  {
  }

  lemma ArriveSafe(log: Log, t: Tracker, w: Item)
    requires TrackerSafe(log, t) && CompletedOk(log, w)
    ensures TrackerSafe(log, Arrive(t, w))
  {
    var u := RaiseBaseline(t, w);
    assert TrackerSafe(log, u);
    if u.ready.None? {
      if u.cpo == w.offset {
        LinkCovers(log, u.cpo - 1, w.(prev := w.offset - 1));
      }
    } else if u.ready.value.offset == w.prev {
      LinkCovers(log, w.prev, w);
    }
  }

  lemma InitialisesCovers(log: Log, t: Tracker, g: Item)
    requires TrackerSafe(log, t) && CompletedOk(log, g) && Initialises(t, g)
    ensures Covered(log, g.offset)
  {
    if g.offset != t.cpo {
      LinkCovers(log, t.last, g);
    }
  }

  lemma {:induction false} WalkSafe(log: Log, t: Tracker, buffer: seq<Item>)
    requires TrackerSafe(log, t)
    requires forall g :: g in buffer ==> CompletedOk(log, g)
    ensures TrackerSafe(log, Walk(t, buffer))
    decreases |buffer|
  {
    if buffer != [] && Passes(t, buffer[0]) {
      var g := buffer[0];
      assert g in buffer;
      if t.ready.None? {
        if g.offset >= t.cpo {
          InitialisesCovers(log, t, g);
        }
      } else if g.offset > t.ready.value.offset {
        LinkCovers(log, t.ready.value.offset, g);
      }
      WalkSafe(log, Take(t, g), buffer[1..]);
    }
  }

  lemma FlushSafe(log: Log, t: Tracker, sorted: seq<Item>)
    requires TrackerSafe(log, t) && Arranged(t.gap, sorted)
    ensures TrackerSafe(log, Flush(t, sorted))
  {
    if t.flag && t.gap != [] {
      ArrangedMembers(t.gap, sorted);
      CompactMembers(sorted);
      var u := t.(flag := false, dropped := t.dropped + Dropped(sorted));
      assert TrackerSafe(log, u);
      WalkSafe(log, u, Compact(sorted));
    }
  }

  lemma RepairSafe(log: Log, t: Tracker)
    requires TrackerSafe(log, t)
    ensures TrackerSafe(log, Repair(t))
  {
    SuccessorProvable(t.gap, t.cpo, t.last);
    var s := Successor(t.gap, t.cpo, t.last);
    if Stalled(t) && s.Some? {
      AboveMembers(t.gap, s.value);
      if s.value.offset != t.cpo {
        LinkCovers(log, t.last, s.value);
      }
    }
  }

  lemma CollectSafe(log: Log, t: Tracker)
    requires TrackerSafe(log, t)
    ensures TrackerSafe(log, Collect(t))
  {
    RepairSafe(log, t);
  }

  lemma StampedExtends(log: Log, later: Log, g: Item)
    requires Extends(log, later) && StampedOk(log, g)
    ensures StampedOk(later, g)
  {
  }

  lemma TrackerExtends(log: Log, later: Log, t: Tracker)
    requires Extends(log, later) && TrackerSafe(log, t)
    ensures TrackerSafe(later, t)
  {
    forall g | g in t.gap ensures CompletedOk(later, g) {
      StampedExtends(log, later, g);
    }
    if t.ready.Some? {
      StampedExtends(log, later, t.ready.value);
    }
  }

  /**
    What every state of a run keeps. The poll loop's part: the first record it stamps after an assign
    has nothing uncompleted below it, the others follow the record stamped before them.
   */
  ghost predicate Safe(w: World) {
    && Locked(w)
    && w.log.live <= w.log.ever
    && (forall r :: r in w.log.ever ==> 0 <= r < w.log.end)
    && 0 <= w.pos <= w.log.end && 0 <= w.fetch <= w.log.end
    && Covered(w.log, w.pos - 1)
    && (w.tracker.Some? ==> TrackerSafe(w.log, w.tracker.value))
    && (forall g :: g in w.flight ==> StampedOk(w.log, g))
    && (w.stamp.None? && (Marked(w.phase) || w.phase.Granted?) ==> Covered(w.log, w.fetch - 1))
    && (w.stamp.Some? ==> w.stamp.value >= 0)
    && (w.stamp.Some? && (Marked(w.phase) || w.phase.Granted?) ==> w.fetch == w.stamp.value + 1)
    && w.log.live <= w.seen <= w.log.ever
  }

  lemma InitSafe(w: World)
    requires Init(w)
    ensures Safe(w)
  {
  }

  lemma SafeLogStep(w: World, log': Log, seen': set<int>)
    requires Safe(w) && Extends(w.log, log')
    requires log'.live <= log'.ever && forall r :: r in log'.ever ==> 0 <= r < log'.end
    requires log'.live <= seen' <= log'.ever
    ensures Safe(w.(log := log', seen := seen'))
  {
    if w.tracker.Some? {
      TrackerExtends(w.log, log', w.tracker.value);
    }
    forall g | g in w.flight ensures StampedOk(log', g) {
      StampedExtends(w.log, log', g);
    }
  }

  lemma DeliverSafe(w: World, o: int, at: int)
    requires Safe(w) && Can(w, Deliver(o, at))
    ensures Safe(Next(w, Deliver(o, at)))
  {
    var item := StampItem(w, o, at);
    assert o in w.log.ever;
    assert StampedOk(w.log, item);
  }

  lemma CompleteSafe(w: World, item: Item)
    requires Safe(w) && Can(w, Complete(item))
    ensures Safe(Next(w, Complete(item)))
  {
    var log' := w.log.(done := w.log.done + {item.offset});
    SafeLogStep(w, log', w.seen);
    StampedExtends(w.log, log', item);
    assert Covered(log', -1);
    ArriveSafe(log', TrackerOf(w), item);
  }

  lemma TickSafe(w: World, sorted: seq<Item>)
    requires Safe(w) && Can(w, TickBegin(sorted))
    ensures Safe(Next(w, TickBegin(sorted)))
  {
    FlushSafe(w.log, w.tracker.value, sorted);
    CollectSafe(w.log, Flush(w.tracker.value, sorted));
  }

  lemma BatchSafe(w: World, sorted: seq<Item>)
    requires Safe(w) && Can(w, BatchEnd(sorted))
    ensures Safe(Next(w, BatchEnd(sorted)))
  {
    FlushSafe(w.log, w.tracker.value, sorted);
  }

  lemma AppendSafe(w: World, o: int)
    requires Safe(w) && Can(w, Append(o))
    ensures Safe(Next(w, Append(o)))
  {
    SafeLogStep(w, Next(w, Append(o)).log, Next(w, Append(o)).seen);
  }

  lemma RemoveSafe(w: World, gone: set<int>)
    requires Safe(w)
    ensures Safe(Next(w, Remove(gone)))
  {
    SafeLogStep(w, Next(w, Remove(gone)).log, Next(w, Remove(gone)).seen);
  }

  lemma OtherOwnerSafe(w: World, to: int, completed: set<int>)
    requires Safe(w) && Can(w, OtherOwner(to, completed))
    ensures Safe(Next(w, OtherOwner(to, completed)))
  {
    SafeLogStep(w, Next(w, OtherOwner(to, completed)).log, Next(w, OtherOwner(to, completed)).seen);
  }

  lemma ResetSafe(w: World, b: int)
    requires Safe(w) && Can(w, ResetOnAssign(b))
    ensures Safe(Next(w, ResetOnAssign(b)))
  {
    assert Covered(w.log, b - 1);
    if w.tracker.Some? {
      assert TrackerSafe(w.log, Reset(w.tracker.value, b));
    }
  }

  lemma TickEndSafe(w: World, outcome: Outcome)
    requires Safe(w) && Can(w, TickEnd(outcome))
    ensures Safe(Next(w, TickEnd(outcome)))
  {
    assert TrackerSafe(w.log, w.tracker.value);
    if outcome.Accepted? {
      assert TrackerSafe(w.log, Acknowledge(w.tracker.value));
    }
  }

  lemma PhaseSafe(w: World, s: Step)
    requires Safe(w) && Can(w, s)
    requires s.Rewind? || s.Fence? || s.MarkAssigned? || s.MarkLost? || s.AckRevoke? || s.ClearStamp?
    requires s.ClearStamp? ==> Covered(w.log, w.fetch - 1)
    ensures Safe(Next(w, s))
  {
  }

  /** Every step keeps `Safe`, except a stamp reset that leaves uncompleted records behind. */
  lemma StepSafe(w: World, s: Step)
    requires Safe(w) && Can(w, s)
    requires s.ClearStamp? ==> Covered(w.log, w.fetch - 1)
    ensures Safe(Next(w, s))
  {
    match s
    case Append(o) => AppendSafe(w, o);
    case Remove(gone) => RemoveSafe(w, gone);
    case OtherOwner(to, completed) => OtherOwnerSafe(w, to, completed);
    case ResetOnAssign(b) => ResetSafe(w, b);
    case Deliver(o, at) => DeliverSafe(w, o, at);
    case Complete(item) => CompleteSafe(w, item);
    case BatchEnd(sorted) => BatchSafe(w, sorted);
    case TickBegin(sorted) => TickSafe(w, sorted);
    case TickEnd(outcome) => TickEndSafe(w, outcome);
    case _ => PhaseSafe(w, s);
  }

  /** Whenever the run clears the partition's stamp, every surviving record read so far is completed. */
  ghost predicate ResetsDrained(w: World, steps: seq<Step>)
    requires Locked(w)
    decreases |steps|
  {
    steps != [] && Can(w, steps[0]) ==>
      && (steps[0].ClearStamp? ==> Covered(w.log, w.fetch - 1))
      && (NextLocked(w, steps[0]); ResetsDrained(Next(w, steps[0]), steps[1..]))
  }

  lemma {:induction false} RunSafe(w: World, steps: seq<Step>, w': World)
    requires Safe(w) && Runs(w, steps, w') && ResetsDrained(w, steps)
    ensures Safe(w')
    decreases |steps|
  {
    if steps != [] {
      StepSafe(w, steps[0]);
      RunSafe(Next(w, steps[0]), steps[1..], w');
    }
  }

  ghost predicate NoStampResets(steps: seq<Step>) {
    forall s :: s in steps ==> !s.ClearStamp?
  }

  lemma {:induction false} NoResetsDrained(w: World, steps: seq<Step>)
    requires Locked(w) && NoStampResets(steps)
    ensures ResetsDrained(w, steps)
    decreases |steps|
  {
    if steps != [] && Can(w, steps[0]) {
      assert steps[0] in steps;
      NextLocked(w, steps[0]);
      NoResetsDrained(Next(w, steps[0]), steps[1..]);
    }
  }

  /**
    No loss, over every run that clears no stamp above an uncompleted record: whatever was ever in the log
    between the group's start and the committed position was completed by this consumer or another owner,
    or removed from the log. A commit in flight promises no more than that.
   */
  lemma NoLoss(w: World, steps: seq<Step>, w': World, r: int)
    requires Init(w) && Runs(w, steps, w') && ResetsDrained(w, steps)
    requires r in w'.log.ever && w'.log.start <= r
    requires r < w'.pos || (w'.sending && Locked(w') && r <= w'.tracker.value.ready.value.offset)
    ensures r in w'.log.done || r !in w'.log.live
  {
    InitSafe(w);
    RunSafe(w, steps, w');
  }
}
