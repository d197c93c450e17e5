/**
  Drains from end to end: the poll loop, the workers, the channel to the committer, the ingest loop and
  one partition's tracker as a single machine, from the start of the process through any number of drains
  and ownership epochs. A record polled is a delivery, a worker's finish is the send to the committer, and an
  ingested completion is the tracker's arrival.
 */
module EndToEnd {
  import opened WorkItems
  import opened GapOrder
  import opened PartitionTracker
  import W = PartitionWorld
  import P = Pipeline
  import D = DrainWorkers
  import C = DrainCommitter
  import M = Monotone
  import F = DeferredWalk
  import opened Liveness
  import opened Progress
  import opened Epoch

  datatype Joint = Joint(
    sys: D.System,
    com: C.State,
    world: W.World,
    polling: bool,
    polled: seq<nat>,         // ids of the messages polled, of every partition
    tag: map<nat, Item>,      // the work items of this partition by message id
    stale: bool,              // the committer's drain started on a stale verdict
    exact: bool,              // the epoch began settled, and nothing but its own work happened since
    raised: bool)             // a tick or an assign's reset came after the last batch-end flush

  datatype Step =
    | Fetch(msg: P.Msg, offset: int, at: int)
    | FetchOther(msg: P.Msg)
    | StopPolling
    | Work(step: P.Step)
    | DrainWorkers(move: D.Move)
    | Ingest(ingest: C.Step, sorted: seq<Item>)
    | StartCommitterDrain
    | DrainCommitter(drain: C.Step)
    | TickBegin(sorted: seq<Item>)
    | TickEnd(outcome: W.Outcome)
    | Partition(change: W.Step)
    | Resume

  /** What happens to the partition without the pipeline: the log, ownership, resets, other owners. */
  predicate Outside(s: W.Step) {
    !s.Deliver? && !s.Complete? && !s.BatchEnd? && !s.TickBegin? && !s.TickEnd?
  }

  /** Whether the epoch is still exact. */
  predicate ExactAfter(w: W.World, exact: bool, s: W.Step) {
    if s.ResetOnAssign? then Settled(w) else exact && WithinEpoch(s)
  }

  ghost predicate Can(j: Joint, s: Step) {
    match s
    case Fetch(m, o, at) =>
      && j.polling && P.Can(j.sys.pipe, P.Poll(m)) && m.id !in j.polled && W.Can(j.world, W.Deliver(o, at))
    case FetchOther(m) => j.polling && P.Can(j.sys.pipe, P.Poll(m)) && m.id !in j.polled
    case StopPolling => j.sys.pipe.dispatcher.Polling?
    case Work(step) => !step.Poll? && P.Can(j.sys.pipe, step)
    case DrainWorkers(m) => !j.polling && !m.Work? && D.Able(j.sys, m)
    case Ingest(step, sorted) =>
      && (step.Take? || step.Lock? || step.More? || step.FlushAndTest? || step.Signal?) && C.Can(j.com, step)
      && (step.Lock? ==> !j.world.sending)
      && (step.FlushAndTest? ==> Arranged(W.TrackerOf(j.world).gap, sorted))
    case StartCommitterDrain => j.sys.drain.Drained? && C.Can(j.com, C.Start)
    case DrainCommitter(step) =>
      (step.Look? || step.UseToken? || step.GraceEnds? || step.TimerFires?) && C.Can(j.com, step)
    case TickBegin(sorted) => C.MutexFree(j.com) && W.Can(j.world, W.TickBegin(sorted))
    case TickEnd(outcome) => W.Can(j.world, W.TickEnd(outcome))
    case Partition(step) =>
      && Outside(step) && W.Can(j.world, step)
      && (step.ResetOnAssign? || step.MarkAssigned? || step.MarkLost? ==> C.MutexFree(j.com))
    case Resume => !j.polling && (j.com.drain.NotStarted? || j.com.drain.Exited? || j.com.drain.TimedOut?)
  }

  /** What a worker's step sends to the committer. */
  function SentBy(s: P.State, step: P.Step): seq<nat> {
    if step.Finish? && step.w in s.workers && s.workers[step.w].pc.Busy? && s.workers[step.w].pc.handled && step.ok
    then [s.workers[step.w].pc.msg.id] else []
  }

  /** What an ingest step puts through processCommit. */
  function IngestedBy(s: C.State, step: C.Step): Option<nat> {
    if step.Lock? && s.ingest.InHand? then Some(s.ingest.item)
    else if step.More? && s.chan != [] then Some(s.chan[0])
    else None
  }

  ghost predicate Joined(j: Joint) {
    W.Locked(j.world) && (forall k :: k in j.sys.shards)
  }

  /** The tracker's part of an ingest step. */
  ghost function IngestMove(j: Joint, step: C.Step, sorted: seq<Item>): (m: Option<W.Step>)
    ensures m.Some? ==> W.Can(j.world, m.value) && (m.value.Complete? || m.value.BatchEnd?)
  {
    var x := IngestedBy(j.com, step);
    if x.Some? && x.value in j.tag && W.Can(j.world, W.Complete(j.tag[x.value]))
    then Some(W.Complete(j.tag[x.value]))
    else if step.FlushAndTest? && W.Can(j.world, W.BatchEnd(sorted)) then Some(W.BatchEnd(sorted))
    else None
  }

  /** The partition's part of any step. */
  ghost function Moves(j: Joint, s: Step): (m: Option<W.Step>)
    requires Can(j, s)
    ensures m.Some? ==> W.Can(j.world, m.value)
  {
    match s
    case Fetch(m, o, at) => Some(W.Deliver(o, at))
    case Ingest(step, sorted) => IngestMove(j, step, sorted)
    case TickBegin(sorted) => Some(W.TickBegin(sorted))
    case TickEnd(outcome) => Some(W.TickEnd(outcome))
    case Partition(step) => Some(step)
    case _ => None
  }

  ghost function WorldAfter(w: W.World, m: Option<W.Step>): W.World
    requires W.Locked(w) && (m.Some? ==> W.Can(w, m.value))
  {
    if m.Some? then W.Next(w, m.value) else w
  }

  ghost function Next(j: Joint, s: Step): Joint
    requires Joined(j) && Can(j, s)
  {
    match s
    case Fetch(m, o, at) =>
      j.(sys := j.sys.(pipe := P.Next(j.sys.pipe, P.Poll(m))), polled := j.polled + [m.id],
         tag := j.tag[m.id := W.StampItem(j.world, o, at)], world := W.Next(j.world, W.Deliver(o, at)))
    case FetchOther(m) =>
      j.(sys := j.sys.(pipe := P.Next(j.sys.pipe, P.Poll(m))), polled := j.polled + [m.id])
    case StopPolling => j.(polling := false)
    case Work(step) =>
      var sent := SentBy(j.sys.pipe, step);
      j.(sys := j.sys.(pipe := P.Next(j.sys.pipe, step)),
         com := AfterSend(j.com, sent))
    case DrainWorkers(m) => j.(sys := D.Act(j.sys, m))
    case Ingest(step, sorted) =>
      j.(com := C.Next(j.com, step), world := WorldAfter(j.world, IngestMove(j, step, sorted)),
         raised := j.raised && !step.FlushAndTest?)
    case StartCommitterDrain => j.(com := C.Next(j.com, C.Start), stale := C.StaleVerdict(j.com))
    case DrainCommitter(step) => j.(com := C.Next(j.com, step))
    case TickBegin(sorted) => j.(world := W.Next(j.world, W.TickBegin(sorted)), raised := true)
    case TickEnd(outcome) => j.(world := W.Next(j.world, W.TickEnd(outcome)), raised := true)
    case Partition(step) =>
      j.(world := W.Next(j.world, step), exact := ExactAfter(j.world, j.exact, step),
         raised := j.raised || step.ResetOnAssign?)
    case Resume =>
      j.(polling := true, sys := j.sys.(drain := D.Scanning(0)), com := j.com.(drain := C.NotStarted), stale := false)
  }

  // ---- what every step keeps ----

  function Ids(ms: seq<P.Msg>): seq<nat> {
    seq(|ms|, i requires 0 <= i < |ms| => ms[i].id)
  }

  /** The message the dispatcher has polled and not yet sent. */
  function Carrying(d: P.Dispatcher): seq<nat> {
    match d
    case Acquiring(m) => [m.id]
    case Sending(m) => [m.id]
    case Inserted(m, _) => [m.id]
    case _ => []
  }

  /** Until a trip, every message polled was dispatched, or the dispatcher carries it. */
  predicate Dispatches(pipe: P.State, polled: seq<nat>) {
    !pipe.tripped ==> polled == Ids(pipe.dispatched) + Carrying(pipe.dispatcher)
  }

  /** The workers' part; once polling has stopped, the drain's invariant. */
  ghost predicate PipeOk(sys: D.System, polling: bool) {
    && P.Inv(sys.pipe)
    && (forall k :: k in sys.shards) && (forall k :: k in sys.shards ==> sys.shards[k] < sys.count)
    && (polling ==> sys.drain == D.Scanning(0))
    && (!polling ==> D.DrainInv(sys))
  }

  /** The committer's part: it was handed what the workers finished, and its token means what it says. */
  predicate ComOk(com: C.State, finished: seq<nat>, drained: bool, stale: bool) {
    && C.Whole(com) && com.handed == finished && (com.drain.NotStarted? || drained)
    && (!com.drain.NotStarted? && !stale ==> C.TokenMeansComplete(com))
  }

  /** Polled under some id that the ingest loop has not seen. */
  ghost predicate Outstanding(tag: map<nat, Item>, ingested: seq<nat>, g: Item) {
    exists x :: x in tag && tag[x] == g && x !in ingested
  }

  /** The tracker's part: what is in flight is polled and not yet ingested. */
  ghost predicate FlightOk(tag: map<nat, Item>, polled: seq<nat>, ingested: seq<nat>, flight: set<Item>) {
    && (forall x :: x in tag ==> x in polled)
    && (forall g :: g in flight ==> Outstanding(tag, ingested, g))
  }

  /** The committer's mutex: a tick with a commit in flight excludes a batch. */
  predicate Mutex(sending: bool, com: C.State) {
    sending ==> C.MutexFree(com)
  }

  ghost predicate EpochOk(w: W.World, exact: bool) {
    Base(w) && (exact ==> exists c: nat, m: nat :: Exact(w, c, m))
  }

  /** Between batches the flush is done: the flag is down, unless a tick or a reset has raised it since. */
  predicate Flushed(tracker: Option<Tracker>, ingest: C.Ingest, raised: bool) {
    !ingest.Batching? && !raised && tracker.Some? ==> !tracker.value.flag
  }

  predicate Drained(j: Joint) {
    j.sys.drain.Drained? && !j.polling
  }

  ghost predicate Ok(j: Joint) {
    && EpochOk(j.world, j.exact) && Mutex(j.world.sending, j.com)
    && Flushed(j.world.tracker, j.com.ingest, j.raised)
    && PipeOk(j.sys, j.polling) && Dispatches(j.sys.pipe, j.polled)
    && ComOk(j.com, Ids(j.sys.pipe.finished), Drained(j), j.stale)
    && (!j.sys.pipe.tripped ==> FlightOk(j.tag, j.polled, j.com.ingested, j.world.flight))
  }

  lemma OkJoined(j: Joint)
    requires Ok(j)
    ensures Joined(j)
  {
  }

  lemma IdsSnoc(ms: seq<P.Msg>, m: P.Msg)
    ensures Ids(ms + [m]) == Ids(ms) + [m.id]
  {
  }

  lemma DispatchStep(s: P.State, step: P.Step)
    requires P.Can(s, step) && !step.Poll? && !P.Next(s, step).tripped
    ensures Ids(P.Next(s, step).dispatched) + Carrying(P.Next(s, step).dispatcher) ==
            Ids(s.dispatched) + Carrying(s.dispatcher)
  {
    if step.SendExisting? || step.SendNew? {
      IdsSnoc(s.dispatched, s.dispatcher.msg);
    }
  }

  lemma SentStep(s: P.State, step: P.Step)
    requires P.Can(s, step)
    ensures Ids(P.Next(s, step).finished) == Ids(s.finished) + SentBy(s, step)
  {
    if step.Finish? && s.workers[step.w].pc.handled && step.ok {
      IdsSnoc(s.finished, s.workers[step.w].pc.msg);
    }
  }

  /** With the workers drained none of them has anything to finish. */
  lemma DrainedSendsNothing(y: D.System, step: P.Step)
    requires D.DrainInv(y) && y.drain.Drained? && P.Can(y.pipe, step)
    ensures SentBy(y.pipe, step) == []
  {
    DrainedOwnsNothing(y);
    IdleWorkers(y.pipe);
  }

  lemma IdleWorkers(s: P.State)
    requires P.Owned(s) && s.owner == map[]
    ensures forall w :: w in s.workers ==> !P.Working(s.workers[w])
  {
    forall w | w in s.workers ensures !P.Working(s.workers[w]) {
      assert P.Serves(s, w);
    }
  }

  lemma DrainedOwnsNothing(y: D.System)
    requires D.DrainInv(y) && y.drain.Drained?
    ensures y.pipe.owner == map[]
  {
    forall k ensures k !in y.pipe.owner {
      assert k in y.pipe.owner ==> D.Behind(y, k);
    }
    D.NoKeys(y.pipe.owner);
  }

  lemma StepEpoch(w: W.World, exact: bool, s: W.Step)
    requires EpochOk(w, exact) && W.Can(w, s)
    ensures EpochOk(W.Next(w, s), ExactAfter(w, exact, s))
  {
    StepBase(w, s);
    if s.ResetOnAssign? {
      if Settled(w) {
        AssignExact(w, s.baseline);
      }
    } else if exact && WithinEpoch(s) {
      var c: nat, m: nat :| Exact(w, c, m);
      var c', m' := StepExact(w, s, c, m);
    }
  }

  // ---- ids ----

  lemma FinishedWasDispatched(s: P.State, m: P.Msg)
    requires P.Inv(s) && !s.tripped && m in s.finished
    ensures m in s.dispatched
  {
    assert P.InOrder(s, m.key);
    P.OfKeyMembers(s.finished, m);
    P.OfKeyMembers(s.dispatched, m);
  }

  lemma DispatchedWasFinished(s: P.State, m: P.Msg)
    requires P.Inv(s) && !s.tripped && s.owner == map[] && m in s.dispatched
    ensures m in s.finished
  {
    assert P.InOrder(s, m.key);
    P.OfKeyMembers(s.finished, m);
    P.OfKeyMembers(s.dispatched, m);
  }

  lemma IdOf(ms: seq<P.Msg>, x: nat) returns (m: P.Msg)
    requires x in Ids(ms)
    ensures m in ms && m.id == x
  {
    var i :| 0 <= i < |Ids(ms)| && Ids(ms)[i] == x;
    m := ms[i];
  }

  lemma HasId(ms: seq<P.Msg>, m: P.Msg)
    requires m in ms
    ensures m.id in Ids(ms)
  {
    var i :| 0 <= i < |ms| && ms[i] == m;
    assert Ids(ms)[i] == m.id;
  }

  /** A message just polled was never ingested. */
  lemma FreshId(j: Joint, x: nat)
    requires Ok(j) && !j.sys.pipe.tripped && x !in j.polled
    ensures x !in j.com.ingested
  {
    if x in j.com.ingested {
      assert x in j.com.handed;
      var m := IdOf(j.sys.pipe.finished, x);
      FinishedWasDispatched(j.sys.pipe, m);
      HasId(j.sys.pipe.dispatched, m);
    }
  }

  // ---- the steps: polling ----

  lemma PollPipe(sys: D.System, m: P.Msg)
    requires PipeOk(sys, true) && P.Can(sys.pipe, P.Poll(m))
    ensures PipeOk(sys.(pipe := P.Next(sys.pipe, P.Poll(m))), true)
  {
    P.StepInv(sys.pipe, P.Poll(m));
  }

  lemma PollDispatches(pipe: P.State, m: P.Msg, polled: seq<nat>)
    requires Dispatches(pipe, polled) && P.Can(pipe, P.Poll(m))
    ensures Dispatches(P.Next(pipe, P.Poll(m)), polled + [m.id])
  {
  }

  lemma FlightPolled(tag: map<nat, Item>, polled: seq<nat>, ingested: seq<nat>, flight: set<Item>, x: nat)
    requires FlightOk(tag, polled, ingested, flight)
    ensures FlightOk(tag, polled + [x], ingested, flight)
  {
  }

  lemma FlightGrows(tag: map<nat, Item>, polled: seq<nat>, ingested: seq<nat>, flight: set<Item>, x: nat, item: Item)
    requires FlightOk(tag, polled, ingested, flight) && x !in polled && x !in ingested
    ensures FlightOk(tag[x := item], polled + [x], ingested, flight + {item})
  {
    var tag' := tag[x := item];
    forall g | g in flight + {item} ensures Outstanding(tag', ingested, g) {
      if g in flight {
        var y :| y in tag && tag[y] == g && y !in ingested;
        assert y in tag' && tag'[y] == g;
      } else {
        assert x in tag' && tag'[x] == g;
      }
    }
  }

  lemma FlightFewer(tag: map<nat, Item>, polled: seq<nat>, ingested: seq<nat>, flight: set<Item>, flight': set<Item>)
    requires FlightOk(tag, polled, ingested, flight) && flight' <= flight
    ensures FlightOk(tag, polled, ingested, flight')
  {
  }

  lemma FetchOk(j: Joint, m: P.Msg, o: int, at: int)
    requires Ok(j) && Can(j, Fetch(m, o, at))
    ensures Ok(Next(j, Fetch(m, o, at)))
  {
    PollPipe(j.sys, m);
    PollDispatches(j.sys.pipe, m, j.polled);
    StepEpoch(j.world, j.exact, W.Deliver(o, at));
    if !j.sys.pipe.tripped {
      FreshId(j, m.id);
      FlightGrows(j.tag, j.polled, j.com.ingested, j.world.flight, m.id, W.StampItem(j.world, o, at));
    }
  }

  lemma FetchOtherOk(j: Joint, m: P.Msg)
    requires Ok(j) && Can(j, FetchOther(m))
    ensures Ok(Next(j, FetchOther(m)))
  {
    PollPipe(j.sys, m);
    PollDispatches(j.sys.pipe, m, j.polled);
    if !j.sys.pipe.tripped {
      FlightPolled(j.tag, j.polled, j.com.ingested, j.world.flight, m.id);
    }
  }

  lemma StopPipe(sys: D.System, polling: bool)
    requires PipeOk(sys, polling) && sys.pipe.dispatcher.Polling?
    ensures PipeOk(sys, false)
  {
  }

  lemma StopOk(j: Joint)
    requires Ok(j) && Can(j, StopPolling)
    ensures Ok(Next(j, StopPolling))
  {
    StopPipe(j.sys, j.polling);
    if j.polling {
      assert !j.sys.drain.Drained?;
    }
  }

  // ---- the steps: workers ----

  lemma WorkPipe(sys: D.System, polling: bool, step: P.Step)
    requires PipeOk(sys, polling) && P.Can(sys.pipe, step) && !step.Poll?
    ensures PipeOk(sys.(pipe := P.Next(sys.pipe, step)), polling)
  {
    P.StepInv(sys.pipe, step);
    if !polling {
      D.MoveInv(sys, D.Work(step));
    }
  }

  lemma WorkDispatches(pipe: P.State, step: P.Step, polled: seq<nat>)
    requires Dispatches(pipe, polled) && P.Can(pipe, step) && !step.Poll?
    ensures Dispatches(P.Next(pipe, step), polled)
  {
    if !P.Next(pipe, step).tripped {
      DispatchStep(pipe, step);
    }
  }

  function AfterSend(com: C.State, sent: seq<nat>): C.State {
    if sent == [] then com else C.Next(com, C.HandOff(sent[0]))
  }

  lemma WorkCom(com: C.State, sys: D.System, drained: bool, stale: bool, step: P.Step)
    requires ComOk(com, Ids(sys.pipe.finished), drained, stale) && P.Can(sys.pipe, step)
    requires drained ==> D.DrainInv(sys) && sys.drain.Drained?
    ensures ComOk(AfterSend(com, SentBy(sys.pipe, step)), Ids(P.Next(sys.pipe, step).finished), drained, stale)
  {
    SentStep(sys.pipe, step);
    if SentBy(sys.pipe, step) != [] {
      C.StepWhole(com, C.HandOff(SentBy(sys.pipe, step)[0]));
      if drained {
        DrainedSendsNothing(sys, step);
      }
    }
  }

  lemma SendFrame(com: C.State, sent: seq<nat>)
    ensures AfterSend(com, sent).ingested == com.ingested && AfterSend(com, sent).ingest == com.ingest
    ensures C.MutexFree(com) ==> C.MutexFree(AfterSend(com, sent))
  {
  }

  lemma TrippedStays(pipe: P.State, step: P.Step)
    requires P.Can(pipe, step)
    ensures pipe.tripped ==> P.Next(pipe, step).tripped
  {
  }

  /** A new pipeline state and a new committer state that fit keep the whole. */
  lemma WorkFits(j: Joint, pipe: P.State, com: C.State)
    requires Ok(j) && PipeOk(j.sys.(pipe := pipe), j.polling) && Dispatches(pipe, j.polled)
    requires ComOk(com, Ids(pipe.finished), Drained(j), j.stale)
    requires com.ingested == j.com.ingested && com.ingest == j.com.ingest
    requires j.sys.pipe.tripped ==> pipe.tripped
    ensures Ok(j.(sys := j.sys.(pipe := pipe), com := com))
  {
  }

  lemma WorkOk(j: Joint, step: P.Step)
    requires Ok(j) && Can(j, Work(step))
    ensures Ok(Next(j, Work(step)))
  {
    WorkPipe(j.sys, j.polling, step);
    WorkDispatches(j.sys.pipe, step, j.polled);
    DrainedInv(j);
    WorkCom(j.com, j.sys, Drained(j), j.stale, step);
    SendFrame(j.com, SentBy(j.sys.pipe, step));
    TrippedStays(j.sys.pipe, step);
    WorkFits(j, P.Next(j.sys.pipe, step), AfterSend(j.com, SentBy(j.sys.pipe, step)));
  }

  lemma DrainedInv(j: Joint)
    requires PipeOk(j.sys, j.polling)
    ensures Drained(j) ==> D.DrainInv(j.sys) && j.sys.drain.Drained?
  {
  }

  lemma MovePipe(sys: D.System, m: D.Move)
    requires PipeOk(sys, false) && !m.Work? && D.Able(sys, m)
    ensures PipeOk(D.Act(sys, m), false) && D.Act(sys, m).pipe == sys.pipe
    ensures sys.drain.Drained? ==> D.Act(sys, m).drain.Drained?
  {
    D.MoveInv(sys, m);
  }

  lemma DrainWorkersOk(j: Joint, m: D.Move)
    requires Ok(j) && Can(j, DrainWorkers(m))
    ensures Ok(Next(j, DrainWorkers(m)))
  {
    MovePipe(j.sys, m);
  }

  // ---- the steps: ingest and the committer's drain ----

  lemma IngestCom(com: C.State, finished: seq<nat>, drained: bool, stale: bool, step: C.Step)
    requires ComOk(com, finished, drained, stale) && C.Can(com, step) && !step.HandOff? && !step.Start?
    ensures ComOk(C.Next(com, step), finished, drained, stale)
  {
    C.StepWhole(com, step);
    if !com.drain.NotStarted? && !stale {
      C.StepToken(com, step);
    }
  }

  lemma IngestedStep(com: C.State, step: C.Step)
    requires C.Can(com, step)
    ensures C.Next(com, step).ingested ==
            com.ingested + if IngestedBy(com, step).Some? then [IngestedBy(com, step).value] else []
  {
  }

  lemma IngestWorld(j: Joint, step: C.Step, sorted: seq<Item>)
    requires EpochOk(j.world, j.exact) && Can(j, Ingest(step, sorted))
    ensures EpochOk(WorldAfter(j.world, IngestMove(j, step, sorted)), j.exact)
  {
    var m := IngestMove(j, step, sorted);
    if m.Some? {
      StepEpoch(j.world, j.exact, m.value);
    }
  }

  lemma IngestFrame(j: Joint, step: C.Step, sorted: seq<Item>)
    requires Joined(j) && Mutex(j.world.sending, j.com) && Can(j, Ingest(step, sorted))
    ensures var x := IngestedBy(j.com, step);
      var v := WorldAfter(j.world, IngestMove(j, step, sorted));
      && v.flight <= j.world.flight && (x.Some? && x.value in j.tag ==> j.tag[x.value] !in v.flight)
      && Mutex(v.sending, C.Next(j.com, step))
  {
  }

  lemma FlightIngests(tag: map<nat, Item>, polled: seq<nat>, ingested: seq<nat>,
                      flight: set<Item>, flight': set<Item>, x: nat)
    requires FlightOk(tag, polled, ingested, flight) && flight' <= flight && (x in tag ==> tag[x] !in flight')
    ensures FlightOk(tag, polled, ingested + [x], flight')
  {
    forall g | g in flight' ensures Outstanding(tag, ingested + [x], g) {
      var y :| y in tag && tag[y] == g && y !in ingested;
    }
  }

  lemma IngestFlight(j: Joint, step: C.Step, sorted: seq<Item>)
    requires Joined(j) && Mutex(j.world.sending, j.com) && Can(j, Ingest(step, sorted))
    requires FlightOk(j.tag, j.polled, j.com.ingested, j.world.flight)
    ensures var v := WorldAfter(j.world, IngestMove(j, step, sorted));
      FlightOk(j.tag, j.polled, C.Next(j.com, step).ingested, v.flight)
  {
    var v := WorldAfter(j.world, IngestMove(j, step, sorted));
    IngestFrame(j, step, sorted);
    IngestedStep(j.com, step);
    if IngestedBy(j.com, step).Some? {
      FlightIngests(j.tag, j.polled, j.com.ingested, j.world.flight, v.flight, IngestedBy(j.com, step).value);
    } else {
      FlightFewer(j.tag, j.polled, j.com.ingested, j.world.flight, v.flight);
      assert j.com.ingested + [] == j.com.ingested;
    }
  }

  /** A batch ends with the flush of the tracker, whatever was ingested in it. */
  lemma IngestFlushes(j: Joint, step: C.Step, sorted: seq<Item>)
    requires Joined(j) && Mutex(j.world.sending, j.com) && Can(j, Ingest(step, sorted))
    requires Flushed(j.world.tracker, j.com.ingest, j.raised)
    ensures Flushed(WorldAfter(j.world, IngestMove(j, step, sorted)).tracker, C.Next(j.com, step).ingest,
                    j.raised && !step.FlushAndTest?)
  {
    if step.FlushAndTest? && j.world.tracker.Some? {
      FlushFrame(j.world.tracker.value, sorted);
    }
  }

  /** A new committer state and a new world that fit keep the whole. */
  lemma IngestFits(j: Joint, com: C.State, w: W.World, raised: bool)
    requires Ok(j) && ComOk(com, Ids(j.sys.pipe.finished), Drained(j), j.stale) && EpochOk(w, j.exact)
    requires Mutex(w.sending, com) && Flushed(w.tracker, com.ingest, raised)
    requires !j.sys.pipe.tripped ==> FlightOk(j.tag, j.polled, com.ingested, w.flight)
    ensures Ok(j.(com := com, world := w, raised := raised))
  {
  }

  lemma IngestKeepsFlight(j: Joint, step: C.Step, sorted: seq<Item>)
    requires Ok(j) && Joined(j) && Can(j, Ingest(step, sorted)) && !j.sys.pipe.tripped
    ensures var v := WorldAfter(j.world, IngestMove(j, step, sorted));
      FlightOk(j.tag, j.polled, C.Next(j.com, step).ingested, v.flight)
  {
    IngestFlight(j, step, sorted);
  }

  lemma IngestParts(j: Joint, step: C.Step, sorted: seq<Item>)
    requires Ok(j) && Joined(j) && Can(j, Ingest(step, sorted))
    ensures var com, v := C.Next(j.com, step), WorldAfter(j.world, IngestMove(j, step, sorted));
      && ComOk(com, Ids(j.sys.pipe.finished), Drained(j), j.stale) && EpochOk(v, j.exact)
      && Mutex(v.sending, com) && Flushed(v.tracker, com.ingest, j.raised && !step.FlushAndTest?)
  {
    IngestCom(j.com, Ids(j.sys.pipe.finished), Drained(j), j.stale, step);
    IngestWorld(j, step, sorted);
    IngestFrame(j, step, sorted);
    IngestFlushes(j, step, sorted);
  }

  lemma IngestOk(j: Joint, step: C.Step, sorted: seq<Item>)
    requires Ok(j) && Can(j, Ingest(step, sorted))
    ensures Ok(Next(j, Ingest(step, sorted)))
  {
    OkJoined(j);
    IngestParts(j, step, sorted);
    if !j.sys.pipe.tripped {
      IngestKeepsFlight(j, step, sorted);
    }
    IngestFits(j, C.Next(j.com, step), WorldAfter(j.world, IngestMove(j, step, sorted)),
               j.raised && !step.FlushAndTest?);
  }

  lemma StartCom(com: C.State, finished: seq<nat>)
    requires ComOk(com, finished, true, false) && C.Can(com, C.Start)
    ensures ComOk(C.Next(com, C.Start), finished, true, C.StaleVerdict(com))
  {
    C.StepWhole(com, C.Start);
  }

  lemma StartCommitterOk(j: Joint)
    requires Ok(j) && Can(j, StartCommitterDrain)
    ensures Ok(Next(j, StartCommitterDrain))
  {
    assert !j.polling;
    StartCom(j.com, Ids(j.sys.pipe.finished));
  }

  lemma CommitterOk(j: Joint, step: C.Step)
    requires Ok(j) && Can(j, DrainCommitter(step))
    ensures Ok(Next(j, DrainCommitter(step)))
  {
    IngestCom(j.com, Ids(j.sys.pipe.finished), Drained(j), j.stale, step);
  }

  // ---- the steps: ticks and the log ----

  lemma WorldStepOk(j: Joint, step: W.Step)
    requires Ok(j) && W.Can(j.world, step) && !step.Deliver? && !step.Complete? && !step.BatchEnd?
    requires step.TickBegin? ==> C.MutexFree(j.com)
    ensures var raised := j.raised || step.TickBegin? || step.TickEnd? || step.ResetOnAssign?;
      Ok(j.(world := W.Next(j.world, step), exact := ExactAfter(j.world, j.exact, step), raised := raised))
  {
    StepEpoch(j.world, j.exact, step);
  }

  lemma PartitionOk(j: Joint, s: Step)
    requires Ok(j) && Can(j, s) && (s.TickBegin? || s.TickEnd? || s.Partition?)
    ensures Ok(Next(j, s))
  {
    if s.TickBegin? {
      WorldStepOk(j, W.TickBegin(s.sorted));
    } else if s.TickEnd? {
      WorldStepOk(j, W.TickEnd(s.outcome));
    } else {
      WorldStepOk(j, s.change);
    }
  }

  lemma ResumePipe(sys: D.System)
    requires PipeOk(sys, false)
    ensures PipeOk(sys.(drain := D.Scanning(0)), true)
  {
  }

  lemma ResumeOk(j: Joint)
    requires Ok(j) && Can(j, Resume)
    ensures Ok(Next(j, Resume))
  {
    ResumePipe(j.sys);
  }

  lemma StepOk(j: Joint, s: Step)
    requires Ok(j) && Can(j, s)
    ensures Ok(Next(j, s))
  {
    match s
    case Fetch(m, o, at) => FetchOk(j, m, o, at);
    case FetchOther(m) => FetchOtherOk(j, m);
    case StopPolling => StopOk(j);
    case Work(step) => WorkOk(j, step);
    case DrainWorkers(m) => DrainWorkersOk(j, m);
    case Ingest(step, sorted) => IngestOk(j, step, sorted);
    case StartCommitterDrain => StartCommitterOk(j);
    case DrainCommitter(step) => CommitterOk(j, step);
    case TickBegin(sorted) => PartitionOk(j, s);
    case TickEnd(outcome) => PartitionOk(j, s);
    case Partition(change) => PartitionOk(j, s);
    case Resume => ResumeOk(j);
  }

  ghost predicate Runs(j: Joint, steps: seq<Step>, j': Joint)
    requires Ok(j)
    decreases |steps|
  {
    if steps == [] then j' == j
    else Can(j, steps[0]) && (StepOk(j, steps[0]); Runs(Next(j, steps[0]), steps[1..], j'))
  }

  lemma {:induction false} RunOk(j: Joint, steps: seq<Step>, j': Joint)
    requires Ok(j) && Runs(j, steps, j')
    ensures Ok(j')
    decreases |steps|
  {
    if steps != [] {
      StepOk(j, steps[0]);
      RunOk(Next(j, steps[0]), steps[1..], j');
    }
  }

  // ---- the partition's run within the joint run ----

  ghost function WorldSteps(j: Joint, steps: seq<Step>): seq<W.Step>
    requires Ok(j)
    decreases |steps|
  {
    if steps == [] || !Can(j, steps[0]) then []
    else
      StepOk(j, steps[0]);
      var rest := WorldSteps(Next(j, steps[0]), steps[1..]);
      var m := Moves(j, steps[0]);
      if m.Some? then [m.value] + rest else rest
  }

  lemma MovesWorld(j: Joint, s: Step)
    requires Joined(j) && Can(j, s)
    ensures Next(j, s).world == WorldAfter(j.world, Moves(j, s))
  {
  }

  /** What the joint machine does to the partition is a run of the partition's own machine. */
  lemma {:induction false} Projects(j: Joint, steps: seq<Step>, j': Joint)
    requires Ok(j) && Runs(j, steps, j')
    ensures W.Locked(j.world) && W.Runs(j.world, WorldSteps(j, steps), j'.world)
    decreases |steps|
  {
    if steps != [] {
      var v, rest := Next(j, steps[0]), steps[1..];
      StepOk(j, steps[0]);
      MovesWorld(j, steps[0]);
      Projects(v, rest, j');
      if Moves(j, steps[0]).Some? {
        assert ([Moves(j, steps[0]).value] + WorldSteps(v, rest))[1..] == WorldSteps(v, rest);
      }
    }
  }

  // ---- what is completed was handled ----

  /** Every completion handed to the committer is of a message whose handler ran, tripped or not. */
  lemma HandedWasHandled(j: Joint, x: nat)
    requires Ok(j) && x in j.com.handed
    ensures exists m :: m in j.sys.pipe.started && m.id == x
  {
    var m := IdOf(j.sys.pipe.finished, x);
    P.FinishedWasStarted(j.sys.pipe, m);
  }

  /** So a record is completed in its tracker only if its handler ran. */
  lemma CompletedWasHandled(j: Joint, steps: seq<Step>, j': Joint, s: Step, item: Item) returns (m: P.Msg)
    requires Start(j) && Ok(j) && Runs(j, steps, j') && Can(j', s) && Moves(j', s) == Some(W.Complete(item))
    ensures m in j'.sys.pipe.started && m.id in j'.tag && j'.tag[m.id] == item
  {
    RunOk(j, steps, j');
    var x := IngestedBy(j'.com, s.ingest).value;
    assert x in j'.com.ingested + C.InHandOf(j'.com) + j'.com.chan;
    HandedWasHandled(j', x);
    m :| m in j'.sys.pipe.started && m.id == x;
  }

  // ---- the drain ----

  /** The process starts: an idle pipeline and committer, and a partition of which nothing is consumed. */
  ghost predicate Start(j: Joint) {
    && P.Init(j.sys.pipe) && j.sys.drain == D.Scanning(0)
    && (forall k :: k in j.sys.shards) && (forall k :: k in j.sys.shards ==> j.sys.shards[k] < j.sys.count)
    && j.com == C.Start0() && j.polling && j.polled == [] && j.tag == map[]
    && W.Init(j.world) && !j.exact && !j.raised
  }

  lemma StartOk(j: Joint)
    requires Start(j)
    ensures Ok(j)
  {
    P.InitInv(j.sys.pipe);
    InitLive(j.world);
  }

  /** A drain is over: left by the token, on no stale verdict, and nothing tripped. */
  predicate TokenExit(j: Joint) {
    j.com.drain == C.Exited(true) && !j.stale && !j.sys.pipe.tripped
  }

  /** Then everything polled was finished. */
  lemma PolledWasFinished(sys: D.System, polled: seq<nat>, x: nat)
    requires PipeOk(sys, false) && sys.drain.Drained? && !sys.pipe.tripped
    requires Dispatches(sys.pipe, polled) && x in polled
    ensures x in Ids(sys.pipe.finished)
  {
    DrainedOwnsNothing(sys);
    var m := IdOf(sys.pipe.dispatched, x);
    DispatchedWasFinished(sys.pipe, m);
    HasId(sys.pipe.finished, m);
  }

  /** So nothing of this partition is in flight. */
  lemma TokenEmptiesFlight(j: Joint)
    requires Ok(j) && TokenExit(j)
    ensures j.world.flight == {} && C.Complete(j.com)
  {
    forall g | g in j.world.flight ensures false {
      var x :| x in j.tag && j.tag[x] == g && x !in j.com.ingested;
      PolledWasFinished(j.sys, j.polled, x);
    }
  }

  /** With nothing in flight the completed prefix is everything delivered. */
  lemma AllPrefix(w: W.World, p: nat)
    requires CompletedPrefix(w, p) && w.flight == {}
    ensures p == |w.delivered|
  {
  }

  lemma ExactCommitted(w: W.World, c: nat, m: nat)
    requires Exact(w, c, m) && w.phase.Owned? && c == |w.delivered|
    ensures Covers(w, w.delivered)
  {
  }

  /** Every record of `d` is at or below the last commit, which is the last of them, and the position is past it. */
  predicate Covers(w: W.World, d: seq<Item>) {
    d != [] ==> w.tracker.Some? && w.tracker.value.last == d[|d| - 1].offset < w.pos
  }

  lemma FinalCommitCovers(w: W.World, sorted: seq<Item>)
    requires EpochOk(w, true) && w.phase.Owned? && w.flight == {} && W.Can(w, W.TickBegin(sorted))
    ensures Covers(W.Tick(w, sorted), w.delivered)
  {
    var c: nat, m: nat :| Exact(w, c, m);
    var p := TickBeginExact(w, sorted, c, m);
    AllPrefix(w, p);
    TickEndCovers(W.Next(w, W.TickBegin(sorted)), c, p);
  }

  lemma TickEndCovers(v: W.World, c: nat, p: nat)
    requires W.Locked(v) && Exact(v, c, p) && v.phase.Owned? && p == |v.delivered| && (v.sending <==> p > c)
    ensures v.sending ==> Covers(W.Next(v, W.TickEnd(W.Accepted)), v.delivered)
    ensures !v.sending ==> Covers(v, v.delivered)
  {
    if v.sending {
      var c' := TickEndExact(v, W.Accepted, c, p);
      ExactCommitted(W.Next(v, W.TickEnd(W.Accepted)), c', p);
    } else {
      ExactCommitted(v, c, p);
    }
  }

  /**
    Drain completeness, end to end, for every drain of every run: polling stopped, the workers drained, the
    committer's drain started on no stale verdict and left by the token, and no trip. Then everything handed
    over is ingested and nothing of the partition is in flight; its tracker is flushed, unless a tick or a
    reset has asked for another flush since. In an epoch that began settled the final commit, once accepted,
    covers every record the epoch delivered.
   */
  lemma DrainEndToEnd(j: Joint, steps: seq<Step>, j': Joint, sorted: seq<Item>)
    requires Start(j) && Ok(j) && Runs(j, steps, j') && TokenExit(j')
    ensures C.Complete(j'.com) && j'.com.handed == Ids(j'.sys.pipe.finished) && j'.world.flight == {}
    ensures !j'.com.token && (!j'.raised && j'.world.tracker.Some? ==> !j'.world.tracker.value.flag)
    ensures j'.exact && j'.world.phase.Owned? && W.Can(j'.world, W.TickBegin(sorted)) ==>
              Covers(W.Tick(j'.world, sorted), j'.world.delivered)
  {
    RunOk(j, steps, j');
    TokenEmptiesFlight(j');
    if j'.exact && j'.world.phase.Owned? && W.Can(j'.world, W.TickBegin(sorted)) {
      FinalCommitCovers(j'.world, sorted);
    }
  }

  /** Flushed means walked: then no flush, with the flag raised or not, would move the commit candidate. */
  lemma DrainLeavesNothingToWalk(j: Joint, steps: seq<Step>, j': Joint, sorted: seq<Item>)
    requires Start(j) && Ok(j) && Runs(j, steps, j') && TokenExit(j') && !j'.raised
    requires j'.world.tracker.Some? && Arranged(j'.world.tracker.value.gap, sorted)
    ensures Flush(j'.world.tracker.value.(flag := true), sorted).ready == j'.world.tracker.value.ready
  {
    DrainEndToEnd(j, steps, j', sorted);
    Projects(j, steps, j');
    F.FlagHidesNothingOverRuns(j.world, WorldSteps(j, steps), j'.world, sorted);
  }

  /**
    In any epoch, whatever orphans earlier drains that failed left in it: after such a drain of a regular run
    as many accepted ticks as the tracker holds items leave the position past every record delivered.
   */
  lemma DrainThenTicks(j: Joint, steps: seq<Step>, j': Joint)
    requires Start(j) && Ok(j) && Runs(j, steps, j') && TokenExit(j')
    requires W.Locked(j.world) && Regular(j.world, WorldSteps(j, steps))
    requires Idle(j'.world) && j'.world.delivered != []
    ensures forall sorts, u :: Ticks(j'.world, sorts, u) && |sorts| >= Held(W.TrackerOf(j'.world)) ==>
                                 u.pos > LastDelivered(j'.world)
  {
    RunOk(j, steps, j');
    TokenEmptiesFlight(j');
    Projects(j, steps, j');
    assert AllArrived(j'.world);
    EventuallyCommitted(j.world, WorldSteps(j, steps), j'.world);
  }

  // ---- the next epoch ----

  /** Nothing in flight, and the revoke has marked the tracker. */
  predicate HandedOver(w: W.World) {
    w.flight == {} && W.TrackerOf(w).assignment.Revoked?
  }

  lemma MoveHandedOver(w: W.World, s: W.Step)
    requires Base(w) && HandedOver(w) && W.Can(w, s) && !s.Deliver? && !s.ResetOnAssign?
    ensures HandedOver(W.Next(w, s))
  {
    if s.BatchEnd? || s.TickBegin? {
      M.FlushFloor(w.log, w.tracker.value, s.sorted);
      M.CollectFloor(Flush(w.tracker.value, s.sorted));
    }
  }

  lemma StaysHandedOver(j: Joint, s: Step)
    requires Ok(j) && HandedOver(j.world) && Can(j, s) && !s.Fetch? && (s.Partition? ==> !s.change.ResetOnAssign?)
    ensures HandedOver(Next(j, s).world)
  {
    MovesWorld(j, s);
    if Moves(j, s).Some? {
      MoveHandedOver(j.world, Moves(j, s).value);
    }
  }

  lemma {:induction false} RunHandedOver(j: Joint, steps: seq<Step>, j': Joint)
    requires Ok(j) && HandedOver(j.world) && Runs(j, steps, j')
    requires forall s :: s in steps ==> !s.Fetch? && (s.Partition? ==> !s.change.ResetOnAssign?)
    ensures HandedOver(j'.world)
    decreases |steps|
  {
    if steps != [] {
      assert steps[0] in steps;
      StaysHandedOver(j, steps[0]);
      StepOk(j, steps[0]);
      RunHandedOver(Next(j, steps[0]), steps[1..], j');
    }
  }

  lemma HandoverExact(j: Joint, steps: seq<Step>, j': Joint, b: int)
    requires Ok(j) && HandedOver(j.world) && Runs(j, steps, j')
    requires forall s :: s in steps ==> !s.Fetch? && (s.Partition? ==> !s.change.ResetOnAssign?)
    requires Can(j', Partition(W.ResetOnAssign(b)))
    ensures Joined(j') && Next(j', Partition(W.ResetOnAssign(b))).exact
  {
    RunOk(j, steps, j');
    RunHandedOver(j, steps, j');
  }

  lemma LossHandsOver(w: W.World)
    requires Base(w) && w.flight == {} && W.Can(w, W.MarkLost)
    ensures HandedOver(W.Next(w, W.MarkLost))
  {
  }

  /**
    A drain that ends by the token hands a clean partition on: after the revoke's mark, whatever other owners,
    the log and other partitions do, the next assign of it starts an exact epoch.
   */
  lemma NextEpochExact(j: Joint, steps: seq<Step>, j': Joint, b: int)
    requires Ok(j) && TokenExit(j) && Can(j, Partition(W.MarkLost))
    requires Ok(Next(j, Partition(W.MarkLost))) && Runs(Next(j, Partition(W.MarkLost)), steps, j')
    requires forall s :: s in steps ==> !s.Fetch? && (s.Partition? ==> !s.change.ResetOnAssign?)
    requires Can(j', Partition(W.ResetOnAssign(b)))
    ensures Joined(j') && Next(j', Partition(W.ResetOnAssign(b))).exact
  {
    TokenEmptiesFlight(j);
    LossHandsOver(j.world);
    HandoverExact(Next(j, Partition(W.MarkLost)), steps, j', b);
  }
}
