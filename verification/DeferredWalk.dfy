/**
  The batch-end walk is deferred behind a flag. Over every run, through repairs, refused commits, orphans and
  assigns without a revoke, a lowered flag never hides a walk that could go on.
 */
module DeferredWalk {
  import opened WorkItems
  import opened GapOrder
  import opened PartitionTracker
  import opened PartitionWorld
  import opened Monotone

  /** The walk would drop `g` as already covered. */
  predicate Prunes(t: Tracker, g: Item) {
    match t.ready
    case None => g.offset < t.cpo
    case Some(r) => g.offset <= r.offset
  }

  /** The walk would make `g` the commit candidate. */
  predicate Promotes(t: Tracker, g: Item) {
    Passes(t, g) && !Prunes(t, g)
  }

  /** The walk stops before it reaches `g`. */
  ghost predicate Shielded(t: Tracker, gap: seq<Item>, g: Item) {
    exists h :: h in gap && h.offset < g.offset && !Prunes(t, h)
  }

  /** With the flag down, whatever the walk could promote is out of its reach. */
  ghost predicate Walked(t: Tracker) {
    !t.flag ==> forall g :: g in t.gap && Promotes(t, g) ==> Shielded(t, t.gap, g)
  }

  // ---- a lowered flag hides nothing ----

  lemma {:induction false} WalkOnlyPrunes(t: Tracker, buffer: seq<Item>)
    requires StrictlyIncreasing(buffer) && forall g :: g in buffer && Promotes(t, g) ==> Shielded(t, buffer, g)
    ensures Walk(t, buffer).ready == t.ready
    decreases |buffer|
  {
    if buffer != [] && Passes(t, buffer[0]) {
      assert buffer[0] in buffer;
      NothingBelowFront(t, buffer);
      var u, rest := Take(t, buffer[0]), buffer[1..];
      forall g | g in rest && Promotes(u, g) ensures Shielded(u, rest, g) {
        assert Shielded(t, buffer, g);
        var h :| h in buffer && h.offset < g.offset && !Prunes(t, h);
        assert h in rest;
      }
      WalkOnlyPrunes(u, rest);
    }
  }

  lemma NothingBelowFront(t: Tracker, buffer: seq<Item>)
    requires StrictlyIncreasing(buffer) && buffer != []
    ensures !Shielded(t, buffer, buffer[0])
  {
  }

  lemma SurvivorsShielded(t: Tracker, sorted: seq<Item>, g: Item)
    requires Arranged(t.gap, sorted) && Shielded(t, t.gap, g)
    ensures Shielded(t, Compact(sorted), g)
  {
    var h :| h in t.gap && h.offset < g.offset && !Prunes(t, h);
    ArrangedMembers(t.gap, sorted);
    var i :| 0 <= i < |sorted| && sorted[i] == h;
    CompactKeepsLatest(sorted, i);
    var k :| k in Compact(sorted) && k.offset == h.offset && k.readTime >= h.readTime;
  }

  /** Flushing with the flag raised by force ends at the same commit candidate. */
  lemma FlagHidesNothing(t: Tracker, sorted: seq<Item>)
    requires Walked(t) && Arranged(t.gap, sorted)
    ensures Flush(t, sorted).ready == Flush(t.(flag := true), sorted).ready
  {
    if !t.flag && t.gap != [] {
      var s := t.(flag := false, dropped := t.dropped + Dropped(sorted));
      ArrangedMembers(t.gap, sorted);
      CompactMembers(sorted);
      CompactStrict(sorted);
      forall g | g in Compact(sorted) && Promotes(s, g) ensures Shielded(s, Compact(sorted), g) {
        SurvivorsShielded(s, sorted, g);
      }
      WalkOnlyPrunes(s, Compact(sorted));
    }
  }

  // ---- every step keeps it ----

  lemma ArriveWalked(t: Tracker, item: Item)
    requires Walked(t)
    ensures Walked(Arrive(t, item))
  {
    var u := Arrive(t, item);
    forall g | g in u.gap && Promotes(u, g) && !u.flag ensures Shielded(u, u.gap, g) {
      if u.ready == t.ready {
        assert g in t.gap && Shielded(t, t.gap, g);
        var h :| h in t.gap && h.offset < g.offset && !Prunes(t, h);
        assert h in u.gap;
      }
    }
  }

  lemma {:induction false} WalkStops(t: Tracker, buffer: seq<Item>)
    ensures var u := Walk(t, buffer); u.gap == [] || !Passes(u, u.gap[0])
    decreases |buffer|
  {
    if buffer != [] && Passes(t, buffer[0]) {
      WalkStops(Take(t, buffer[0]), buffer[1..]);
    }
  }

  lemma FlushWalked(t: Tracker, sorted: seq<Item>)
    requires Walked(t) && Arranged(t.gap, sorted)
    ensures Walked(Flush(t, sorted))
  {
    if t.flag && t.gap != [] {
      var s := t.(flag := false, dropped := t.dropped + Dropped(sorted));
      var u := Walk(s, Compact(sorted));
      CompactStrict(sorted);
      WalkStops(s, Compact(sorted));
      WalkLeavesSuffix(s, Compact(sorted));
      forall g | g in u.gap && Promotes(u, g) ensures Shielded(u, u.gap, g) {
        assert u.gap[0] in u.gap && u.gap[0].offset < g.offset;
      }
    }
  }

  lemma CollectWalked(t: Tracker)
    requires Walked(t)
    ensures Walked(Collect(t))
  {
  }

  lemma AcknowledgeWalked(t: Tracker)
    requires t.ready.Some?
    ensures Walked(Acknowledge(t))
  {
  }

  ghost predicate AllWalked(w: World) {
    Locked(w) && (w.tracker.Some? ==> Walked(w.tracker.value))
  }

  lemma StepWalked(w: World, s: Step)
    requires AllWalked(w) && Can(w, s)
    ensures AllWalked(Next(w, s))
  {
    NextLocked(w, s);
    match s
    case Complete(item) => ArriveWalked(TrackerOf(w), item);
    case BatchEnd(sorted) => FlushWalked(w.tracker.value, sorted);
    case TickBegin(sorted) =>
      FlushWalked(w.tracker.value, sorted);
      CollectWalked(Flush(w.tracker.value, sorted));
    case TickEnd(outcome) => AcknowledgeWalked(w.tracker.value);
    case _ =>
  }

  lemma {:induction false} RunWalked(w: World, steps: seq<Step>, w': World)
    requires AllWalked(w) && Runs(w, steps, w')
    ensures AllWalked(w')
    decreases |steps|
  {
    if steps != [] {
      StepWalked(w, steps[0]);
      RunWalked(Next(w, steps[0]), steps[1..], w');
    }
  }

  /**
    Over every run and for every outcome of the sort: a flush ends where it would with the flag raised, and
    with a commit candidate that is where its links lead through the de-duplicated buffer.
   */
  lemma FlagHidesNothingOverRuns(w: World, steps: seq<Step>, v: World, sorted: seq<Item>)
    requires Init(w) && Runs(w, steps, v) && v.tracker.Some? && Arranged(v.tracker.value.gap, sorted)
    ensures var t := v.tracker.value;
      var u := Flush(t, sorted);
      && u.ready == Flush(t.(flag := true), sorted).ready
      && (t.ready.Some? ==>
            u.ready.Some? && u.ready.value.offset == ChainEnd(Compact(sorted), t.ready.value.offset))
  {
    RunWalked(w, steps, v);
    var t := v.tracker.value;
    FlagHidesNothing(t, sorted);
    if t.ready.Some? {
      FlushEnds(t.(flag := true), sorted);
    }
  }

  lemma TickCommitsReady(v: World, sorted: seq<Item>)
    requires Locked(v) && v.phase.Owned? && Can(v, TickBegin(sorted))
    requires Flush(v.tracker.value, sorted).ready.Some?
    requires Flush(v.tracker.value, sorted).ready.value.offset >= Flush(v.tracker.value, sorted).cpo
    ensures Tick(v, sorted).pos == Flush(v.tracker.value, sorted).ready.value.offset + 1
  {
  }

  /** So a tick the broker accepts always commits the end of the candidate's chain, flagged or not. */
  lemma TickCommitsChainOverRuns(w: World, steps: seq<Step>, v: World, sorted: seq<Item>)
    requires Init(w) && Runs(w, steps, v) && v.phase.Owned? && Can(v, TickBegin(sorted))
    requires v.tracker.value.ready.Some? && v.tracker.value.ready.value.offset >= v.tracker.value.cpo
    ensures Tick(v, sorted).pos == ChainEnd(Compact(sorted), v.tracker.value.ready.value.offset) + 1
  {
    FlagHidesNothingOverRuns(w, steps, v, sorted);
    FlushFrame(v.tracker.value, sorted);
    TickCommitsReady(v, sorted);
  }
}
