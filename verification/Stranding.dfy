/**
  Runs whose position never moves back, and that clear a stamp only when everything read is committed, never
  strand an epoch: the no-stall theorem covers them all.
 */
module Stranding {
  import opened WorkItems
  import opened PartitionTracker
  import opened PartitionWorld
  import opened Soundness
  import opened Monotone
  import opened Liveness

  /**
    Whatever its epoch, a First in flight has no surviving record between the committed position and itself,
    and the next one to be stamped will have none either.
   */
  ghost predicate FirstsLow(w: World) {
    && Mono(w) && Live(w) && w.epochStart <= w.pos
    && (forall g :: g in w.flight && g.first ==> Vacant(w.log, w.pos, g.offset))
    && (w.stamp.None? ==> Vacant(w.log, w.pos, w.fetch))
    && (w.phase.Granted? ==> Low(w, w.tracker.value.cpo))
    && (w.phase.Granted? || w.phase.Owned? ==>
          forall g :: g in w.flight && g.first && g !in w.delivered ==> Low(w, g.offset))
  }

  /** The stamp is cleared while a record it covers is neither committed nor gone. */
  ghost predicate Uncommitted(w: World, s: Step) {
    s.ClearStamp? && !Vacant(w.log, w.pos, w.fetch)
  }

  lemma NeverStranded(w: World, s: Step)
    requires FirstsLow(w)
    ensures !Strands(w, s)
  {
  }

  lemma FlightLow(w: World, w': World)
    requires FirstsLow(w) && w'.flight <= w.flight && w'.delivered == w.delivered
    requires w'.seen == w.seen && w'.epochStart == w.epochStart && w'.log.live <= w.log.live && w'.pos >= w.pos
    ensures forall x :: Low(w, x) ==> Low(w', x)
    ensures forall g :: g in w'.flight && g.first ==> Vacant(w'.log, w'.pos, g.offset)
    ensures w.phase.Granted? || w.phase.Owned? ==>
              forall g :: g in w'.flight && g.first && g !in w'.delivered ==> Low(w', g.offset)
  {
  }

  lemma CompleteFirsts(w: World, item: Item)
    requires FirstsLow(w) && Can(w, Complete(item)) && !Regressive(w, Complete(item))
    ensures FirstsLow(Next(w, Complete(item)))
  {
    StepMono(w, Complete(item));
    CompleteLive(w, item);
    FlightLow(w, Next(w, Complete(item)));
    ArriveFrame(TrackerOf(w), item);
  }

  lemma TrackerFirsts(w: World, s: Step)
    requires FirstsLow(w) && Can(w, s) && (s.BatchEnd? || s.TickBegin? || s.TickEnd?)
    ensures FirstsLow(Next(w, s))
  {
    NeverStranded(w, s);
    StepMono(w, s);
    StepLive(w, s);
    FlightLow(w, Next(w, s));
    if s.BatchEnd? || s.TickBegin? {
      FlushFrame(w.tracker.value, s.sorted);
    }
  }

  lemma ResetFirsts(w: World, b: int)
    requires FirstsLow(w) && Can(w, ResetOnAssign(b)) && !Regressive(w, ResetOnAssign(b))
    ensures FirstsLow(Next(w, ResetOnAssign(b)))
  {
    StepMono(w, ResetOnAssign(b));
    ResetLive(w, b);
  }

  lemma DeliverFirsts(w: World, o: int, at: int)
    requires FirstsLow(w) && Can(w, Deliver(o, at))
    ensures FirstsLow(Next(w, Deliver(o, at)))
  {
    var w' := Next(w, Deliver(o, at));
    StepMono(w, Deliver(o, at));
    DeliverLive(w, o, at);
    forall g | g in w'.flight && g.first && g !in w'.delivered
      ensures g in w.flight && g !in w.delivered
    {
      assert StampItem(w, o, at) == w'.delivered[|w.delivered|];
    }
    assert forall x :: Low(w, x) ==> Low(w', x);
  }

  lemma LogMovedFirsts(w: World, w': World)
    requires FirstsLow(w) && Mono(w') && Live(w') && LogMoves(w, w') && w'.pos >= w.pos
    ensures FirstsLow(w')
  {
    LogStream(w, w');
    forall g | g in w.flight && g.first ensures Vacant(w'.log, w'.pos, g.offset) && g.offset < w.log.end {
      assert StampTrue(w.log, g);
    }
  }

  lemma LogFirsts(w: World, s: Step)
    requires FirstsLow(w) && Can(w, s) && (s.Append? || s.Remove? || s.OtherOwner?)
    ensures FirstsLow(Next(w, s))
  {
    StepMono(w, s);
    LogStep(w, s);
    LogLive(w, s);
    LogMovedFirsts(w, Next(w, s));
  }

  lemma PhaseFirsts(w: World, s: Step)
    requires FirstsLow(w) && Can(w, s) && OfThePhase(s) && !Uncommitted(w, s)
    ensures FirstsLow(Next(w, s))
  {
    StepMono(w, s);
    PhaseLive(w, s);
    FlightLow(w, Next(w, s));
  }

  lemma StepFirsts(w: World, s: Step)
    requires FirstsLow(w) && Can(w, s) && !Regressive(w, s) && !Uncommitted(w, s) && !s.Rewind?
    ensures FirstsLow(Next(w, s))
  {
    match s
    case Complete(item) => CompleteFirsts(w, item);
    case ResetOnAssign(b) => ResetFirsts(w, b);
    case Deliver(o, at) => DeliverFirsts(w, o, at);
    case Append(o) => LogFirsts(w, s);
    case Remove(gone) => LogFirsts(w, s);
    case OtherOwner(to, completed) => LogFirsts(w, s);
    case BatchEnd(sorted) => TrackerFirsts(w, s);
    case TickBegin(sorted) => TrackerFirsts(w, s);
    case TickEnd(outcome) => TrackerFirsts(w, s);
    case _ => PhaseFirsts(w, s);
  }

  /** Every stamp the run clears has everything read under it committed, or gone from the log. */
  ghost predicate ResetsCommitted(w: World, steps: seq<Step>)
    requires Locked(w)
    decreases |steps|
  {
    steps != [] && Can(w, steps[0]) ==>
      && !Uncommitted(w, steps[0])
      && (NextLocked(w, steps[0]); ResetsCommitted(Next(w, steps[0]), steps[1..]))
  }

  /** A run that rewinds nothing, takes no regressive step and clears no stamp too early is regular. */
  lemma {:induction false} MonotoneIsRegular(w: World, steps: seq<Step>, w': World)
    requires FirstsLow(w) && Runs(w, steps, w')
    requires NeverRegressive(w, steps) && ResetsCommitted(w, steps)
    requires forall s :: s in steps ==> !s.Rewind?
    ensures Regular(w, steps)
    decreases |steps|
  {
    if steps != [] {
      assert steps[0] in steps;
      NeverStranded(w, steps[0]);
      StepFirsts(w, steps[0]);
      MonotoneIsRegular(Next(w, steps[0]), steps[1..], w');
    }
  }

  lemma InitFirsts(w: World)
    requires Init(w)
    ensures FirstsLow(w)
  {
    InitMono(w);
    InitLive(w);
  }
}
