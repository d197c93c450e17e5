/**
  What every step of every run keeps, without exception: offsets stay within the log, stamps stay true of
  it, and the poll loop stays ahead of its stamp. Whether anything is lost is another matter (Safety).
 */
module Soundness {
  import opened WorkItems
  import opened GapOrder
  import opened PartitionTracker
  import opened PartitionWorld

  /** The stamp names an earlier offset, and no record lies in between. */
  ghost predicate StampTrue(log: Log, g: Item) {
    && 0 <= g.offset < log.end && g.prev < g.offset && (g.prev >= 0 || g.offset == 0)
    && Vacant(log, g.prev + 1, g.offset)
  }

  ghost predicate TrackerSound(log: Log, t: Tracker) {
    && t.cpo <= log.end && t.last < log.end
    && (t.ready.Some? ==> StampTrue(log, t.ready.value))
    && (forall g :: g in t.gap ==> StampTrue(log, g))
  }

  ghost predicate LogSound(log: Log) {
    log.live <= log.ever && forall r :: r in log.ever ==> 0 <= r < log.end
  }

  ghost predicate Sound(w: World) {
    && Locked(w) && LogSound(w.log)
    && 0 <= w.pos <= w.log.end && 0 <= w.fetch <= w.log.end
    && (w.tracker.Some? ==> TrackerSound(w.log, w.tracker.value))
    && (forall g :: g in w.flight ==> StampTrue(w.log, g))
    && (w.stamp.Some? ==> w.stamp.value >= 0)
    && (w.stamp.Some? && (Marked(w.phase) || w.phase.Granted?) ==> w.fetch == w.stamp.value + 1)
    && w.log.live <= w.seen <= w.log.ever
  }

  /** The log moves on: appends at the end, removals, further completions. */
  ghost predicate Extends(log: Log, later: Log) {
    && later.start == log.start && log.end <= later.end
    && log.done <= later.done && log.ever <= later.ever
    && (forall r :: r in later.live && r < log.end ==> r in log.live)
  }

  lemma StampExtends(log: Log, later: Log, g: Item)
    requires Extends(log, later) && StampTrue(log, g)
    ensures StampTrue(later, g)
  {
  }

  lemma SoundExtends(log: Log, later: Log, t: Tracker)
    requires Extends(log, later) && TrackerSound(log, t)
    ensures TrackerSound(later, t)
  {
    forall g | g in t.gap ensures StampTrue(later, g) {
      StampExtends(log, later, g);
    }
    if t.ready.Some? {
      StampExtends(log, later, t.ready.value);
    }
  }

  lemma LogSoundStep(w: World, log': Log, seen': set<int>)
    requires Sound(w) && Extends(w.log, log') && LogSound(log') && log'.live <= seen' <= log'.ever
    ensures Sound(w.(log := log', seen := seen'))
  {
    if w.tracker.Some? {
      SoundExtends(w.log, log', w.tracker.value);
    }
    forall g | g in w.flight ensures StampTrue(log', g) {
      StampExtends(w.log, log', g);
    }
  }

  /** Appends, removals, and another owner's progress. */
  lemma LogStepSound(w: World, s: Step)
    requires Sound(w) && Can(w, s) && (s.Append? || s.Remove? || s.OtherOwner?)
    ensures Sound(Next(w, s))
  {
    LogSoundStep(w, Next(w, s).log, Next(w, s).seen);
  }

  /** A tracker made of sound items within the log is sound. */
  lemma SourcesSound(log: Log, t: Tracker, u: Tracker)
    requires TrackerSound(log, t) && u.cpo <= log.end && u.last < log.end
    requires forall g :: g in u.gap ==> g in t.gap
    requires u.ready.Some? ==> u.ready == t.ready || u.ready.value in t.gap
    ensures TrackerSound(log, u)
  {
  }

  lemma CompleteSound(w: World, item: Item)
    requires Sound(w) && Can(w, Complete(item))
    ensures Sound(Next(w, Complete(item)))
  {
    var log' := w.log.(done := w.log.done + {item.offset});
    LogSoundStep(w, log', w.seen);
    StampExtends(w.log, log', item);
    ArriveFrame(TrackerOf(w), item);
  }

  lemma FlushSound(log: Log, t: Tracker, sorted: seq<Item>)
    requires TrackerSound(log, t) && Arranged(t.gap, sorted)
    ensures TrackerSound(log, Flush(t, sorted))
  {
    FlushFrame(t, sorted);
    SourcesSound(log, t, Flush(t, sorted));
  }

  lemma TickSound(w: World, sorted: seq<Item>)
    requires Sound(w) && Can(w, TickBegin(sorted))
    ensures Sound(Next(w, TickBegin(sorted)))
  {
    NextLocked(w, TickBegin(sorted));
    var f := Flush(w.tracker.value, sorted);
    FlushSound(w.log, w.tracker.value, sorted);
    CollectSource(f);
    SourcesSound(w.log, f, Collect(f));
    SourcesSound(w.log, f, Discard(f));
  }

  lemma TickEndSound(w: World, outcome: Outcome)
    requires Sound(w) && Can(w, TickEnd(outcome))
    ensures Sound(Next(w, TickEnd(outcome)))
  {
    assert StampTrue(w.log, w.tracker.value.ready.value);
    SourcesSound(w.log, w.tracker.value, Acknowledge(w.tracker.value));
  }

  lemma ResetSound(w: World, b: int)
    requires Sound(w) && Can(w, ResetOnAssign(b))
    ensures Sound(Next(w, ResetOnAssign(b)))
  {
    NextLocked(w, ResetOnAssign(b));
    if w.tracker.Some? {
      SourcesSound(w.log, w.tracker.value, Reset(w.tracker.value, b));
    }
  }

  lemma DeliverSound(w: World, o: int, at: int)
    requires Sound(w) && Can(w, Deliver(o, at))
    ensures Sound(Next(w, Deliver(o, at)))
  {
    assert o in w.log.ever;
    assert StampTrue(w.log, StampItem(w, o, at));
  }

  lemma PhaseSound(w: World, s: Step)
    requires Sound(w) && Can(w, s)
    requires s.Rewind? || s.Fence? || s.MarkAssigned? || s.MarkLost? || s.AckRevoke? || s.ClearStamp?
    ensures Sound(Next(w, s))
  {
  }

  /** Every step, the clearing of stamps included. */
  lemma StepSound(w: World, s: Step)
    requires Sound(w) && Can(w, s)
    ensures Sound(Next(w, s))
  {
    match s
    case Append(o) => LogStepSound(w, s);
    case Remove(gone) => LogStepSound(w, s);
    case OtherOwner(to, completed) => LogStepSound(w, s);
    case ResetOnAssign(b) => ResetSound(w, b);
    case Deliver(o, at) => DeliverSound(w, o, at);
    case Complete(item) => CompleteSound(w, item);
    case BatchEnd(sorted) => FlushSound(w.log, w.tracker.value, sorted);
    case TickBegin(sorted) => TickSound(w, sorted);
    case TickEnd(outcome) => TickEndSound(w, outcome);
    case _ => PhaseSound(w, s);
  }

  lemma InitSound(w: World)
    requires Init(w)
    ensures Sound(w)
  {
  }
}
