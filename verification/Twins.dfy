/**
  Equal offsets in one buffer are twins of different epochs, and no two twins were read at the same time.
  So over every run a flush is canonical.
 */
module Twins {
  import opened WorkItems
  import opened PartitionTracker
  import opened PartitionWorld
  import opened Liveness
  import opened Canonical

  /** In flight, or completed and buffered. */
  ghost predicate About(w: World, g: Item) {
    g in w.flight || (w.tracker.Some? && g in w.tracker.value.gap)
  }

  /** Twins differ in read time: those read in this epoch lie below the poll loop, the others are older. */
  ghost predicate Apart(w: World) {
    && Locked(w) && w.epochClock <= w.clock
    && (forall g :: About(w, g) ==> g.readTime <= w.clock && (g.readTime >= w.epochClock ==> g.offset < w.fetch))
    && (forall a, b :: About(w, a) && About(w, b) && a != b && a.offset == b.offset ==> a.readTime != b.readTime)
  }

  /** Nothing new is about, and neither the clocks nor the poll loop moved. */
  lemma FewerApart(w: World, w': World)
    requires Apart(w) && Locked(w') && (forall g :: About(w', g) ==> About(w, g))
    requires w'.clock == w.clock && w'.epochClock == w.epochClock && w'.fetch == w.fetch
    ensures Apart(w')
  {
  }

  lemma TrackerApart(w: World, s: Step)
    requires Apart(w) && Can(w, s) && (s.Complete? || s.BatchEnd? || s.TickBegin? || s.TickEnd? || s.MarkLost?)
    ensures Apart(Next(w, s))
  {
    var w' := Next(w, s);
    NextLocked(w, s);
    match s {
      case Complete(item) => ArriveFrame(TrackerOf(w), item);
      case BatchEnd(sorted) => FlushFrame(w.tracker.value, sorted);
      case TickBegin(sorted) => PreparedFrame(w, sorted);
      case _ =>
    }
    FewerApart(w, w');
  }

  lemma DeliverApart(w: World, o: int, at: int)
    requires Apart(w) && Can(w, Deliver(o, at))
    ensures Apart(Next(w, Deliver(o, at)))
  {
    var w', item := Next(w, Deliver(o, at)), StampItem(w, o, at);
    NextLocked(w, Deliver(o, at));
    assert forall g :: About(w', g) ==> About(w, g) || g == item;
  }

  lemma ResetApart(w: World, b: int)
    requires Apart(w) && Can(w, ResetOnAssign(b))
    ensures Apart(Next(w, ResetOnAssign(b)))
  {
    var w' := Next(w, ResetOnAssign(b));
    NextLocked(w, ResetOnAssign(b));
    assert forall g :: About(w', g) ==> About(w, g);
  }

  lemma StepApart(w: World, s: Step)
    requires Apart(w) && Can(w, s)
    ensures Apart(Next(w, s))
  {
    if s.Deliver? {
      DeliverApart(w, s.offset, s.at);
    } else if s.ResetOnAssign? {
      ResetApart(w, s.baseline);
    } else if s.Complete? || s.BatchEnd? || s.TickBegin? || s.TickEnd? || s.MarkLost? {
      TrackerApart(w, s);
    } else {
      NextLocked(w, s);
      FewerApart(w, Next(w, s));
    }
  }

  lemma {:induction false} RunApart(w: World, steps: seq<Step>, w': World)
    requires Apart(w) && Runs(w, steps, w')
    ensures Apart(w')
    decreases |steps|
  {
    if steps != [] {
      StepApart(w, steps[0]);
      RunApart(Next(w, steps[0]), steps[1..], w');
    }
  }

  /**
    Over every run, rewinds and all-partition stamp resets included, what a flush does depends only on
    which items are buffered: not on the order they completed in, nor on what the unstable sort does.
   */
  lemma FlushCanonicalOverRuns(w: World, steps: seq<Step>, w': World)
    requires Init(w) && Runs(w, steps, w') && w'.tracker.Some?
    ensures NoTies(w'.tracker.value.gap)
    ensures w'.tracker.value.flag ==> FlushesOneWay(w'.tracker.value)
  {
    RunApart(w, steps, w');
    var t := w'.tracker.value;
    assert forall g :: g in t.gap ==> About(w', g);
    if t.flag {
      NoTiesOnTop(t.gap);
      FlushCanonicalExactly(t);
    }
  }
}
