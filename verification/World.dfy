/**
  One partition's tracker together with everything around it: the log, the broker's committed
  position, ownership, the poll loop's stamps and the work in flight, including orphans of closed
  epochs. A run is any sequence of enabled steps; the only scheduling constraint is the committer
  mutex, which a tick holds across its broker call.
 */
module PartitionWorld {
  import opened WorkItems
  import opened GapOrder
  import opened Stamps
  import opened PartitionTracker

  /**
    Records append at `end` or later and are only ever removed. `done` holds the offsets completed by
    this consumer in some epoch or by another owner.
   */
  datatype Log = Log(start: int, ever: set<int>, live: set<int>, end: int, done: set<int>)

  /**
    Away; reset but not marked; marked; marked but fenced by the broker; revoked but not acked. An
    assign that no revoke preceded finds the partition marked and leaves it so.
   */
  datatype Phase = Away | Granted | Owned | Fenced | Leaving

  datatype World = World(
    log: Log,
    pos: int,                  // the broker's committed position
    phase: Phase,
    tracker: Option<Tracker>,
    sending: bool,             // a commit of Ready is in flight, the mutex is held
    stamp: Option<int>,        // the partition's prevOffsets entry
    fetch: int,                // the next offset the poll loop reads
    epochStart: int,           // the committed position when this epoch began
    delivered: seq<Item>,      // this epoch's stamped records, in order
    seen: set<int>,            // records that were live at some moment of this epoch
    flight: set<Item>,         // stamped, not yet completed, of any epoch
    clock: int,
    epochClock: int,
    nextId: nat)

  datatype Outcome = Accepted | Refused | AppliedButFailed

  datatype Step =
    | Append(offset: int)
    | Remove(gone: set<int>)
    | OtherOwner(to: int, completed: set<int>)
    | Rewind(to: int)
    | Fence
    | ResetOnAssign(baseline: int)
    | MarkAssigned
    | MarkLost
    | AckRevoke
    | Deliver(offset: int, at: int)
    | Complete(item: Item)
    | BatchEnd(sorted: seq<Item>)
    | TickBegin(sorted: seq<Item>)
    | TickEnd(outcome: Outcome)
    | ClearStamp

  /** No live record in [from, to). */
  ghost predicate Vacant(log: Log, from: int, to: int) {
    forall r :: r in log.live ==> !(from <= r < to)
  }

  predicate Marked(p: Phase) {
    p.Owned? || p.Fenced?
  }

  ghost predicate Can(w: World, s: Step) {
    match s
    case Append(o) => o >= w.log.end
    case Remove(gone) => true
    case OtherOwner(to, completed) =>
      && (w.phase.Away? || w.phase.Fenced?)
      && w.pos <= to <= w.log.end
      && (forall r :: r in w.log.live && w.pos <= r < to ==> r in completed)
    case Rewind(to) => w.phase.Away? && 0 <= to <= w.pos
    case Fence => w.phase.Owned?
    case ResetOnAssign(b) => !w.sending && (w.phase.Away? || Marked(w.phase)) && (b == w.pos || b < 0)
    case MarkAssigned => !w.sending && w.phase.Granted?
    case MarkLost => !w.sending && Marked(w.phase)
    case AckRevoke => w.phase.Leaving?
    case Deliver(o, at) =>
      && Marked(w.phase) && at >= w.clock
      && o in w.seen && w.fetch <= o && Vacant(w.log, w.fetch, o)
      && Stamp(w.stamp, o).Stamped?
    case Complete(item) => !w.sending && item in w.flight
    case BatchEnd(sorted) => !w.sending && w.tracker.Some? && Arranged(w.tracker.value.gap, sorted)
    case TickBegin(sorted) => !w.sending && w.tracker.Some? && Arranged(w.tracker.value.gap, sorted)
    case TickEnd(outcome) => w.sending && (w.phase.Fenced? ==> outcome.Refused?)
    case ClearStamp => Marked(w.phase)
  }

  function TrackerOf(w: World): Tracker {
    if w.tracker.Some? then w.tracker.value else Fresh(-1)
  }

  /** The tick's work on this partition up to the broker call. */
  function Prepared(w: World, sorted: seq<Item>): Tracker {
    var t := Flush(TrackerOf(w), sorted);
    if Marked(w.phase) then Collect(t) else Discard(t)
  }

  function StampItem(w: World, o: int, at: int): Item
    requires Stamp(w.stamp, o).Stamped?
  {
    var s := Stamp(w.stamp, o);
    Item(w.nextId, 0, o, s.prev, s.first, at)
  }

  ghost function Next(w: World, s: Step): World
    requires Can(w, s) && (w.sending ==> w.tracker.Some? && w.tracker.value.ready.Some?)
  {
    match s
    case Append(o) =>
      w.(log := w.log.(ever := w.log.ever + {o}, live := w.log.live + {o}, end := o + 1),
         seen := w.seen + {o})
    case Remove(gone) => w.(log := w.log.(live := w.log.live - gone))
    case OtherOwner(to, completed) => w.(log := w.log.(done := w.log.done + completed), pos := to)
    case Rewind(to) => w.(pos := to)
    case Fence => w.(phase := Fenced)
    case ResetOnAssign(b) =>
      w.(phase := if Marked(w.phase) then Owned else Granted, stamp := None,
         tracker := Some(if w.tracker.Some? then Reset(w.tracker.value, b) else Fresh(b)),
         fetch := w.pos, epochStart := w.pos, delivered := [], seen := w.log.live,
         clock := w.clock + 1, epochClock := w.clock + 1)
    case MarkAssigned => w.(phase := Owned)
    case MarkLost =>
      w.(phase := Leaving, tracker := if w.tracker.Some? then Some(MarkRevoked(w.tracker.value)) else None)
    case AckRevoke => w.(phase := Away)
    case Deliver(o, at) =>
      var item := StampItem(w, o, at);
      w.(stamp := EntryAfter(w.stamp, o), fetch := o + 1, clock := at, nextId := w.nextId + 1,
         delivered := w.delivered + [item], flight := w.flight + {item})
    case Complete(item) =>
      w.(flight := w.flight - {item}, log := w.log.(done := w.log.done + {item.offset}),
         tracker := Some(Arrive(TrackerOf(w), item)))
    case BatchEnd(sorted) => w.(tracker := Some(Flush(w.tracker.value, sorted)))
    case TickBegin(sorted) =>
      var t := Prepared(w, sorted);
      w.(tracker := Some(t), sending := Marked(w.phase) && t.ready.Some?)
    case TickEnd(outcome) =>
      var t := w.tracker.value;
      var o := t.ready.value.offset;
      w.(sending := false,
         pos := if outcome.Refused? then w.pos else o + 1,
         tracker := if outcome.Accepted? then Some(Acknowledge(t)) else w.tracker)
    case ClearStamp => w.(stamp := None)
  }

  /** A log with `start` as the group's first position and nothing consumed yet. */
  ghost predicate Init(w: World) {
    && w.log.live <= w.log.ever
    && (forall r :: r in w.log.ever ==> 0 <= r < w.log.end)
    && w.pos == w.log.start == w.fetch == w.epochStart
    && 0 <= w.pos <= w.log.end
    && w.phase.Away? && w.tracker.None? && !w.sending
    && w.flight == {} && w.delivered == [] && w.stamp.None?
    && w.clock == w.epochClock && w.seen == w.log.live
  }

  /** Mutex discipline: a commit is in flight only from a marked partition, and it carries Ready. */
  ghost predicate Locked(w: World) {
    w.sending ==> Marked(w.phase) && w.tracker.Some? && w.tracker.value.ready.Some?
  }

  lemma NextLocked(w: World, s: Step)
    requires Locked(w) && Can(w, s)
    ensures Locked(Next(w, s))
  {
  }

  /** A whole tick whose commit, if it sends one, the broker accepts. */
  ghost function Tick(w: World, sorted: seq<Item>): (w': World)
    requires Locked(w) && Can(w, TickBegin(sorted)) && !w.phase.Fenced?
    ensures !w'.sending && w'.phase == w.phase
  {
    NextLocked(w, TickBegin(sorted));
    var v := Next(w, TickBegin(sorted));
    if v.sending then Next(v, TickEnd(Accepted)) else v
  }

  /** `w'` is reached from `w` by `steps`. */
  ghost predicate Runs(w: World, steps: seq<Step>, w': World)
    requires Locked(w)
    decreases |steps|
  {
    if steps == [] then w' == w
    else
      && Can(w, steps[0])
      && (NextLocked(w, steps[0]); Runs(Next(w, steps[0]), steps[1..], w'))
  }
}
