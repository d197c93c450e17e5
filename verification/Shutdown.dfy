/**
  Who tells the host that the consumer has ended. Any number of concurrent or re-entrant trips, any
  number of Shutdown calls and the emergency observer race; a step is one channel or atomic operation.
 */
module Shutdown {
  import opened WorkItems

  datatype Reason = Unspecified | Given(id: nat)

  /** How far the winning trip has come. */
  datatype Winner = NoWinner | Elected | ReasonSet | Cancelled | LatchClosed | PayloadSent | Finished

  datatype Observer =
    | Parked
    | Received(reason: Reason)
    | Recorded(reason: Reason)
    | Claiming(reason: Reason)
    | Delivering(reason: Reason)
    | Over

  datatype Graceful =
    | Called                          // about to load the callback
    | Unsubscribing                   // a callback was loaded
    | Claims                          // unsubscribed cleanly
    | Claimed                         // owns the notification
    | Delivers(reason: Option<Reason>)
    | Signals
    | Returned

  datatype Holder = ByObserver | ByShutdown(i: nat)

  datatype State = State(
    trip: Option<Reason>,             // the one-slot election channel
    winner: Winner,
    reason: Option<Reason>,           // the field behind Reason()
    processing: bool,                 // main context not cancelled
    latchCloses: nat,                 // how often `tripped` was closed
    payload: Option<Reason>,          // the buffered message of `emergencyShutdown`
    payloadCloses: nat,
    callback: bool,                   // a callback is registered
    notify: Option<Holder>,           // the one-slot notification claim, with its owner
    graceful: bool,                   // the one-slot graceful token
    recorded: Option<Reason>,         // emergencyReason
    observer: Observer,
    shutdowns: map<nat, Graceful>,
    fired: seq<Option<Reason>>)       // callback invocations

  datatype Step =
    | Trigger(cause: Option<Reason>)
    | SetReason | Cancel | CloseLatch | SendPayload | ClosePayload
    | Register
    | TakePayload | TakeGraceful | RecordReason | LoadCallback | ObserverClaims | ObserverDelivers
    | Call(i: nat) | Load(i: nat) | Unsubscribed(i: nat) | DrainTimesOut(i: nat, timeout: Reason)
    | Claim(i: nat) | LoadReason(i: nat) | Deliver(i: nat) | SignalDone(i: nat)

  predicate At(s: State, i: nat, pc: Graceful) {
    i in s.shutdowns && s.shutdowns[i] == pc
  }

  predicate Can(s: State, step: Step) {
    match step
    case Trigger(r) => true
    case SetReason => s.winner.Elected?
    case Cancel => s.winner.ReasonSet?
    case CloseLatch => s.winner.Cancelled?
    case SendPayload => s.winner.LatchClosed? && s.payload.None?
    case ClosePayload => s.winner.PayloadSent?
    case Register => true
    case TakePayload => s.observer.Parked? && s.payload.Some?
    case TakeGraceful => s.observer.Parked? && s.graceful
    case RecordReason => s.observer.Received?
    case LoadCallback => s.observer.Recorded?
    case ObserverClaims => s.observer.Claiming?
    case ObserverDelivers => s.observer.Delivering?
    case Call(i) => i !in s.shutdowns
    case Load(i) => At(s, i, Called)
    case Unsubscribed(i) => At(s, i, Unsubscribing)
    case DrainTimesOut(i, r) => At(s, i, Unsubscribing)
    case Claim(i) => At(s, i, Claims)
    case LoadReason(i) => At(s, i, Claimed)
    case Deliver(i) => i in s.shutdowns && s.shutdowns[i].Delivers?
    case SignalDone(i) => At(s, i, Signals)
  }

  /** Only the first trip has effect; a nil reason is replaced. */
  function Tripped(s: State, r: Option<Reason>): State {
    if s.trip.Some? then s
    else s.(trip := Some(if r.Some? then r.value else Unspecified), winner := Elected)
  }

  function Move(s: State, i: nat, pc: Graceful): State {
    s.(shutdowns := s.shutdowns[i := pc])
  }

  function Next(s: State, step: Step): State
    requires Can(s, step)
  {
    match step
    case Trigger(r) => Tripped(s, r)
    case SetReason => s.(reason := s.trip, winner := ReasonSet)
    case Cancel => s.(processing := false, winner := Cancelled)
    case CloseLatch => s.(latchCloses := s.latchCloses + 1, winner := LatchClosed)
    case SendPayload => s.(payload := s.reason, winner := PayloadSent)
    case ClosePayload => s.(payloadCloses := s.payloadCloses + 1, winner := Finished)
    case Register => s.(callback := true)
    case TakePayload => s.(observer := Received(s.payload.value), payload := None)
    case TakeGraceful => s.(observer := Over, graceful := false)
    case RecordReason => s.(recorded := Some(s.observer.reason), observer := Recorded(s.observer.reason))
    case LoadCallback => s.(observer := if s.callback then Claiming(s.observer.reason) else Over)
    case ObserverClaims =>
      if s.notify.None? then s.(notify := Some(ByObserver), observer := Delivering(s.observer.reason))
      else s.(observer := Over)
    case ObserverDelivers => s.(fired := s.fired + [Some(s.observer.reason)], observer := Over)
    case Call(i) => Move(s, i, Called)
    case Load(i) => Move(s, i, if s.callback then Unsubscribing else Signals)
    case Unsubscribed(i) => Move(s, i, Claims)
    case DrainTimesOut(i, r) => Move(Tripped(s, Some(r)), i, Returned)
    case Claim(i) =>
      if s.notify.None? then Move(s.(notify := Some(ByShutdown(i))), i, Claimed) else Move(s, i, Signals)
    case LoadReason(i) => Move(s, i, Delivers(s.recorded))
    case Deliver(i) => Move(s.(fired := s.fired + [s.shutdowns[i].reason]), i, Signals)
    case SignalDone(i) => Move(s.(graceful := true), i, Returned)
  }

  predicate Init(s: State) {
    && s.trip.None? && s.winner.NoWinner? && s.reason.None? && s.processing
    && s.latchCloses == s.payloadCloses == 0 && s.payload.None? && s.notify.None? && !s.graceful
    && s.recorded.None? && s.observer.Parked? && s.shutdowns == map[] && s.fired == []
  }

  /** Stages of the winner in order. */
  function Stage(w: Winner): nat {
    match w
    case NoWinner => 0
    case Elected => 1
    case ReasonSet => 2
    case Cancelled => 3
    case LatchClosed => 4
    case PayloadSent => 5
    case Finished => 6
  }

  /** The observer's reason, once it has one. */
  function Carried(o: Observer): Option<Reason> {
    match o
    case Parked => None
    case Over => None
    case Received(r) => Some(r)
    case Recorded(r) => Some(r)
    case Claiming(r) => Some(r)
    case Delivering(r) => Some(r)
  }

  /** One winner, its reason fixed before processing stops and before the latch shows. */
  predicate Latched(s: State) {
    && (s.trip.None? <==> s.winner.NoWinner?)
    && (s.reason == if Stage(s.winner) >= 2 then s.trip else None)
    && (s.processing <==> Stage(s.winner) < 3)
    && s.latchCloses == (if Stage(s.winner) >= 4 then 1 else 0)
    && s.payloadCloses == (if Stage(s.winner) >= 6 then 1 else 0)
  }

  /** The payload, what the observer carries and what it recorded are the winner's reason. */
  predicate Relayed(s: State) {
    && (s.payload.Some? ==> Stage(s.winner) >= 5 && s.payload == s.trip && Carried(s.observer).None?)
    && (Carried(s.observer).Some? ==> Stage(s.winner) >= 5 && Carried(s.observer) == s.trip)
    && (s.recorded.Some? ==> Stage(s.winner) >= 5 && s.recorded == s.trip)
  }

  predicate OneWinner(s: State) {
    Latched(s) && Relayed(s)
  }

  /** Between claiming the notification and delivering it. */
  predicate Busy(s: State, h: Holder) {
    match h
    case ByObserver => s.observer.Delivering?
    case ByShutdown(i) => i in s.shutdowns && (s.shutdowns[i].Claimed? || s.shutdowns[i].Delivers?)
  }

  /** Any reason a Shutdown is about to tell is the winning trip's. */
  ghost predicate TellsTrip(s: State) {
    forall i :: i in s.shutdowns && s.shutdowns[i].Delivers? && s.shutdowns[i].reason.Some? ==>
      s.shutdowns[i].reason == s.trip
  }

  /** So is any reason told, and only a Shutdown tells nil. */
  ghost predicate Told(s: State) {
    forall k :: 0 <= k < |s.fired| ==>
      if s.fired[k].Some? then s.fired[k] == s.trip else s.notify.Some? && s.notify.value.ByShutdown?
  }

  ghost predicate Truthful(s: State) {
    TellsTrip(s) && Told(s)
  }

  /** The claim has one owner; the callback has fired exactly when its owner has delivered. */
  ghost predicate OneNotice(s: State) {
    && (forall h :: Busy(s, h) ==> s.notify == Some(h))
    && |s.fired| == (if s.notify.None? || Busy(s, s.notify.value) then 0 else 1)
  }

  /** Steps of the breaker itself. */
  predicate OfBreaker(step: Step) {
    || step.Trigger? || step.SetReason? || step.Cancel? || step.CloseLatch?
    || step.SendPayload? || step.ClosePayload? || step.DrainTimesOut?
  }

  predicate SameBreaker(s: State, t: State) {
    && t.trip == s.trip && t.winner == s.winner && t.reason == s.reason && t.processing == s.processing
    && t.latchCloses == s.latchCloses && t.payloadCloses == s.payloadCloses
  }

  lemma OthersKeepBreaker(s: State, step: Step)
    requires Can(s, step) && !OfBreaker(step)
    ensures SameBreaker(s, Next(s, step))
  {
  }

  lemma BreakerKeepsOthers(s: State, step: Step)
    requires Can(s, step) && OfBreaker(step)
    ensures Next(s, step).observer == s.observer && Next(s, step).recorded == s.recorded
    ensures Next(s, step).fired == s.fired && Next(s, step).notify == s.notify
  {
  }

  lemma StepLatched(s: State, step: Step)
    requires Latched(s) && Can(s, step)
    ensures Latched(Next(s, step))
  {
    if !OfBreaker(step) {
      OthersKeepBreaker(s, step);
    }
  }

  lemma StepRelayed(s: State, step: Step)
    requires Latched(s) && Relayed(s) && Can(s, step)
    ensures Relayed(Next(s, step))
  {
    if OfBreaker(step) {
      BreakerKeepsOthers(s, step);
    } else {
      OthersKeepBreaker(s, step);
    }
  }

  lemma StepOneWinner(s: State, step: Step)
    requires OneWinner(s) && Can(s, step)
    ensures OneWinner(Next(s, step))
  {
    StepLatched(s, step);
    StepRelayed(s, step);
  }

  /** The election and the latch are never undone. */
  predicate Outlives(s: State, t: State) {
    (s.trip.Some? ==> t.trip == s.trip) && s.latchCloses <= t.latchCloses
  }

  lemma StepOutlives(s: State, step: Step)
    requires Can(s, step)
    ensures Outlives(s, Next(s, step))
  {
    if !OfBreaker(step) {
      OthersKeepBreaker(s, step);
    }
  }

  lemma StepTellsTrip(s: State, step: Step)
    requires OneWinner(s) && TellsTrip(s) && Can(s, step)
    ensures TellsTrip(Next(s, step))
  {
    StepOutlives(s, step);
    var t := Next(s, step);
    forall i | i in t.shutdowns && t.shutdowns[i].Delivers? && t.shutdowns[i].reason.Some?
      ensures t.shutdowns[i].reason == t.trip
    {
      DeliversFrom(s, step, i);
    }
  }

  /** Steps of some Shutdown call, and where they leave it. */
  predicate OfShutdown(step: Step) {
    || step.Call? || step.Load? || step.Unsubscribed? || step.DrainTimesOut?
    || step.Claim? || step.LoadReason? || step.Deliver? || step.SignalDone?
  }

  function MovesTo(s: State, step: Step): Graceful
    requires OfShutdown(step)
  {
    match step
    case Call(_) => Called
    case Load(_) => if s.callback then Unsubscribing else Signals
    case Unsubscribed(_) => Claims
    case DrainTimesOut(_, _) => Returned
    case Claim(_) => if s.notify.None? then Claimed else Signals
    case LoadReason(_) => Delivers(s.recorded)
    case Deliver(_) => Signals
    case SignalDone(_) => Returned
  }

  lemma ShutdownMoves(s: State, step: Step)
    requires Can(s, step)
    ensures Next(s, step).shutdowns == if OfShutdown(step) then s.shutdowns[step.i := MovesTo(s, step)] else s.shutdowns
  {
  }

  /** A Shutdown about to tell something already was, or has just read what is recorded. */
  lemma DeliversFrom(s: State, step: Step, i: nat)
    requires Can(s, step) && i in Next(s, step).shutdowns && Next(s, step).shutdowns[i].Delivers?
    ensures (i in s.shutdowns && Next(s, step).shutdowns[i] == s.shutdowns[i])
         || (step == LoadReason(i) && Next(s, step).shutdowns[i].reason == s.recorded)
  {
    ShutdownMoves(s, step);
  }

  lemma StepTold(s: State, step: Step)
    requires OneWinner(s) && OneNotice(s) && Truthful(s) && Can(s, step)
    ensures Told(Next(s, step))
  {
    StepOutlives(s, step);
    if step.Deliver? {
      assert Busy(s, ByShutdown(step.i));
    } else if OfBreaker(step) {
      BreakerKeepsOthers(s, step);
    }
  }

  lemma StepTruthful(s: State, step: Step)
    requires OneWinner(s) && OneNotice(s) && Truthful(s) && Can(s, step)
    ensures Truthful(Next(s, step))
  {
    StepTellsTrip(s, step);
    StepTold(s, step);
  }

  lemma StepOneNotice(s: State, step: Step)
    requires OneNotice(s) && Can(s, step)
    ensures OneNotice(Next(s, step))
  {
    var t := Next(s, step);
    forall h | Busy(t, h)
      ensures t.notify == Some(h)
    {
      BusyFrom(s, step, h);
    }
    if s.notify.Some? && Busy(s, s.notify.value) {
      BusyTo(s, step, s.notify.value);
    }
    if step.Deliver? {
      assert Busy(s, ByShutdown(step.i));
    } else if step.ObserverDelivers? {
      assert Busy(s, ByObserver);
    }
  }

  /** Whoever is mid-delivery already was, or has just claimed. */
  lemma BusyFrom(s: State, step: Step, h: Holder)
    requires Can(s, step) && Busy(Next(s, step), h)
    ensures Busy(s, h) || (s.notify.None? && Next(s, step).notify == Some(h))
  {
  }

  /** Only delivering ends a delivery. */
  lemma BusyTo(s: State, step: Step, h: Holder)
    requires Can(s, step) && Busy(s, h)
    ensures Busy(Next(s, step), h) || step == (if h.ByObserver? then ObserverDelivers else Deliver(h.i))
  {
    ShutdownMoves(s, step);
  }

  /** Nobody is on the way to telling, or has told, without a callback. */
  ghost predicate Registered(s: State) {
    && (s.notify.Some? || s.fired != [] || s.observer.Claiming? || s.observer.Delivering? ==> s.callback)
    && (forall i :: i in s.shutdowns && HasCallback(s.shutdowns[i]) ==> s.callback)
  }

  predicate HasCallback(g: Graceful) {
    g.Unsubscribing? || g.Claims? || g.Claimed? || g.Delivers?
  }

  lemma StepRegistered(s: State, step: Step)
    requires Registered(s) && Can(s, step)
    ensures Registered(Next(s, step))
  {
    ShutdownMoves(s, step);
    var t := Next(s, step);
    forall i | i in t.shutdowns && HasCallback(t.shutdowns[i]) ensures t.callback {
      assert (i in s.shutdowns && t.shutdowns[i] == s.shutdowns[i]) || (OfShutdown(step) && step.i == i);
    }
  }

  /** The invariant, in one piece for the run. */
  ghost predicate Inv(s: State) {
    OneWinner(s) && OneNotice(s) && Truthful(s) && Registered(s)
  }

  lemma StepInv(s: State, step: Step)
    requires Inv(s) && Can(s, step)
    ensures Inv(Next(s, step))
  {
    StepOneWinner(s, step);
    StepOneNotice(s, step);
    StepTruthful(s, step);
    StepRegistered(s, step);
  }

  ghost predicate Runs(s: State, steps: seq<Step>, s': State)
    decreases |steps|
  {
    if steps == [] then s' == s
    else Can(s, steps[0]) && Runs(Next(s, steps[0]), steps[1..], s')
  }

  lemma {:induction false} RunKeeps(s: State, steps: seq<Step>, s': State)
    requires Inv(s) && Runs(s, steps, s')
    ensures Inv(s') && Outlives(s, s')
    decreases |steps|
  {
    if steps != [] {
      var t := Next(s, steps[0]);
      StepInv(s, steps[0]);
      StepOutlives(s, steps[0]);
      RunKeeps(t, steps[1..], s');
    }
  }

  /** The cause of the first trip, by a Trigger or a drain that timed out; a missing one is unspecified. */
  function FirstCause(steps: seq<Step>): Option<Reason> {
    if steps == [] then None
    else
      match steps[0]
      case Trigger(Some(r)) => Some(r)
      case Trigger(None) => Some(Unspecified)
      case DrainTimesOut(_, r) => Some(r)
      case _ => FirstCause(steps[1..])
  }

  /** The election keeps the reason of whoever tripped first, and no other. */
  lemma {:induction false} TripIsFirstCause(s: State, steps: seq<Step>, s': State)
    requires Runs(s, steps, s')
    ensures s'.trip == if s.trip.Some? then s.trip else FirstCause(steps)
    decreases |steps|
  {
    if steps != [] {
      if !OfBreaker(steps[0]) {
        OthersKeepBreaker(s, steps[0]);
      }
      TripIsFirstCause(Next(s, steps[0]), steps[1..], s');
    }
  }

  /** Reason(): the recorded error once the latch is closed, nil before. */
  function ReasonOf(s: State): Option<Reason> {
    if s.latchCloses > 0 then s.reason else None
  }

  /** Nobody is between claiming the notification and delivering it. */
  ghost predicate Quiet(s: State) {
    forall h :: !Busy(s, h)
  }

  /**
    Over every interleaving: the callback fires at most once, and exactly once when the notification
    was claimed and nobody is mid-delivery. A reason it carries is that of the first trip; a nil comes only
    from a Shutdown. No channel is closed twice, the winner's send never blocks; whoever sees the latch sees
    processing stopped and the final reason.
   */
  lemma NotifiedOnce(s: State, steps: seq<Step>, s': State)
    requires Init(s) && Runs(s, steps, s')
    ensures s'.fired != [] ==> s'.callback
    ensures |s'.fired| <= 1 && (Quiet(s') ==> (|s'.fired| == 1 <==> s'.notify.Some?))
    ensures |s'.fired| == 1 && s'.fired[0].Some? ==> s'.fired[0] == FirstCause(steps)
    ensures |s'.fired| == 1 && s'.fired[0].None? ==> s'.notify.Some? && s'.notify.value.ByShutdown?
    ensures s'.latchCloses <= 1 && s'.payloadCloses <= 1
    ensures s'.latchCloses == 1 ==> !s'.processing && FirstCause(steps).Some? && ReasonOf(s') == FirstCause(steps)
    ensures s'.winner.LatchClosed? ==> Can(s', SendPayload) && s'.payloadCloses == 0
  {
    RunKeeps(s, steps, s');
    TripIsFirstCause(s, steps, s');
  }

  /** Once the latch is seen, Reason() never changes. */
  lemma ReasonIsStable(s: State, before: seq<Step>, u: State, after: seq<Step>, v: State)
    requires Init(s) && Runs(s, before, u) && u.latchCloses == 1 && Runs(u, after, v)
    ensures ReasonOf(v) == ReasonOf(u) && ReasonOf(u).Some?
  {
    RunKeeps(s, before, u);
    RunKeeps(u, after, v);
  }

  // ---- a Shutdown that returns lets the observer go ----

  predicate TimesOut(steps: seq<Step>, i: nat) {
    exists k :: 0 <= k < |steps| && steps[k].DrainTimesOut? && steps[k].i == i
  }

  predicate Released(s: State) {
    s.graceful || s.observer.Over?
  }

  lemma ReturnStep(s: State, step: Step, i: nat)
    requires Can(s, step) && (At(s, i, Returned) ==> Released(s)) && !(step.DrainTimesOut? && step.i == i)
    ensures At(Next(s, step), i, Returned) ==> Released(Next(s, step))
  {
    ShutdownMoves(s, step);
  }

  /** Unless its drain timed out, a Shutdown that has returned left the token the observer ends on. */
  lemma {:induction false} ReturnReleasesObserver(s: State, steps: seq<Step>, s': State, i: nat)
    requires Runs(s, steps, s') && (At(s, i, Returned) ==> Released(s)) && !TimesOut(steps, i)
    ensures At(s', i, Returned) ==> Released(s')
    decreases |steps|
  {
    if steps != [] {
      ReturnStep(s, steps[0], i);
      assert forall k :: 0 <= k < |steps| - 1 ==> steps[1..][k] == steps[k + 1];
      ReturnReleasesObserver(Next(s, steps[0]), steps[1..], s', i);
    }
  }

  // ---- what the host is told, from the order of steps alone ----

  /** Who claims the notification first. */
  function FirstClaim(steps: seq<Step>): Option<Holder> {
    if steps == [] then None
    else
      match steps[0]
      case ObserverClaims => Some(ByObserver)
      case Claim(i) => Some(ByShutdown(i))
      case _ => FirstClaim(steps[1..])
  }

  /** Shutdown `i` reads the recorded reason after it was recorded; `recorded` says it was before `steps`. */
  predicate ReadsRecorded(steps: seq<Step>, i: nat, recorded: bool) {
    steps != [] &&
    if steps[0] == LoadReason(i) then recorded
    else ReadsRecorded(steps[1..], i, recorded || steps[0].RecordReason?)
  }

  /** The observer claims first, or the Shutdown that claims first reads after the observer has recorded. */
  predicate TellsTheTrip(steps: seq<Step>) {
    match FirstClaim(steps)
    case Some(ByObserver) => true
    case Some(ByShutdown(i)) => ReadsRecorded(steps, i, false)
    case None => false
  }

  lemma {:induction false} ClaimDecides(s: State, steps: seq<Step>, s': State)
    requires Runs(s, steps, s')
    ensures s'.notify == if s.notify.Some? then s.notify else FirstClaim(steps)
    decreases |steps|
  {
    if steps != [] {
      ClaimStep(s, steps[0]);
      ClaimDecides(Next(s, steps[0]), steps[1..], s');
    }
  }

  lemma ClaimStep(s: State, step: Step)
    requires Can(s, step)
    ensures Next(s, step).notify ==
            if s.notify.Some? then s.notify
            else if step.ObserverClaims? then Some(ByObserver)
            else if step.Claim? then Some(ByShutdown(step.i))
            else None
  {
  }

  /** How far the notice of Shutdown `i` has come, once the claim is its own. */
  datatype Notice = Unread | Read(reason: Option<Reason>) | ToldAs(reason: Option<Reason>)

  ghost function NoticeOf(s: State, i: nat): Notice {
    if i in s.shutdowns && s.shutdowns[i].Delivers? then Read(s.shutdowns[i].reason)
    else if s.notify == Some(ByShutdown(i)) && s.fired != [] then ToldAs(s.fired[0])
    else Unread
  }

  /** What is told is told by a Deliver or the observer, and appended. */
  lemma FiredStep(s: State, step: Step)
    requires Inv(s) && Can(s, step)
    ensures Next(s, step).fired ==
            if step.Deliver? then [s.shutdowns[step.i].reason]
            else if step.ObserverDelivers? then [Some(s.observer.reason)]
            else s.fired
    ensures step.Deliver? ==> s.notify == Some(ByShutdown(step.i))
    ensures step.ObserverDelivers? ==> s.notify == Some(ByObserver)
  {
    if step.Deliver? {
      assert Busy(s, ByShutdown(step.i));
    } else if step.ObserverDelivers? {
      assert Busy(s, ByObserver);
    }
  }

  /** Only LoadReason(i) reads, only Deliver(i) tells, and it tells what was read. */
  lemma NoticeStep(s: State, step: Step, i: nat)
    requires Inv(s) && Can(s, step)
    ensures var n, n' := NoticeOf(s, i), NoticeOf(Next(s, step), i);
      && (n.Unread? ==> n' == if step == LoadReason(i) then Read(s.recorded) else Unread)
      && (n.Read? ==> n' == n || n' == ToldAs(n.reason))
      && (n.ToldAs? ==> n' == n)
  {
    BusyHolder(s, i);
    ShutdownMoves(s, step);
    FiredStep(s, step);
    ClaimStep(s, step);
  }

  /** Whoever is mid-delivery owns the claim, and nothing was told yet. */
  lemma BusyHolder(s: State, i: nat)
    requires OneNotice(s)
    ensures Busy(s, ByShutdown(i)) ==> s.notify == Some(ByShutdown(i)) && s.fired == []
  {
  }

  lemma RecordStep(s: State, step: Step)
    requires Can(s, step)
    ensures Next(s, step).recorded.Some? <==> s.recorded.Some? || step.RecordReason?
  {
  }

  /** The notice of `i` at the end is what was recorded when it read. */
  lemma {:induction false} NoticeRun(s: State, steps: seq<Step>, s': State, i: nat)
    requires Inv(s) && Runs(s, steps, s')
    ensures var n, n' := NoticeOf(s, i), NoticeOf(s', i);
      && (n.Read? ==> n' == n || n' == ToldAs(n.reason)) && (n.ToldAs? ==> n' == n)
      && (n.Unread? && n'.ToldAs? ==> (n'.reason.Some? <==> ReadsRecorded(steps, i, s.recorded.Some?)))
    decreases |steps|
  {
    if steps != [] {
      var t := Next(s, steps[0]);
      StepInv(s, steps[0]);
      NoticeStep(s, steps[0], i);
      RecordStep(s, steps[0]);
      NoticeRun(t, steps[1..], s', i);
    }
  }

  lemma Prepend(s: State, step: Step, rest: seq<Step>, s': State)
    requires Can(s, step) && Runs(Next(s, step), rest, s')
    ensures Runs(s, [step] + rest, s')
  {
    assert ([step] + rest)[1..] == rest;
  }

  /** Nobody leaves the scene, and no graceful token is left, before the notification is claimed. */
  ghost predicate Attended(s: State) {
    && s.callback
    && (s.graceful || s.observer.Over? ==> s.notify.Some?)
    && (forall i :: At(s, i, Signals) ==> s.notify.Some?)
  }

  lemma StepAttended(s: State, step: Step)
    requires Attended(s) && OneNotice(s) && Can(s, step)
    ensures Attended(Next(s, step))
  {
    if step.Deliver? {
      assert Busy(s, ByShutdown(step.i));
    } else if step.ObserverDelivers? {
      assert Busy(s, ByObserver);
    } else if step.SignalDone? {
      assert At(s, step.i, Signals);
    }
    var t := Next(s, step);
    forall i | At(t, i, Signals)
      ensures t.notify.Some?
    {
      assert At(s, i, Signals) || step == Load(i) || step == Claim(i) || step == Deliver(i);
    }
  }

  lemma {:induction false} RunAttended(s: State, steps: seq<Step>, s': State)
    requires Attended(s) && OneNotice(s) && Runs(s, steps, s')
    ensures Attended(s')
    decreases |steps|
  {
    if steps != [] {
      StepAttended(s, steps[0]);
      StepOneNotice(s, steps[0]);
      RunAttended(Next(s, steps[0]), steps[1..], s');
    }
  }

  /** A trip ran to its end, a callback is registered, the observer is gone and nobody is mid-delivery. */
  ghost predicate Settled(s: State) {
    s.winner.Finished? && s.callback && s.observer.Over? && Quiet(s)
  }

  /**
    Over every interleaving that settles after a trip, the host is told of the trip, once, if and only if
    the observer claims the notification first, or the Shutdown that does reads the reason after the
    observer has recorded it. Otherwise it hears a clean end, or nothing.
   */
  lemma TripToldExactly(s: State, steps: seq<Step>, s': State)
    requires Init(s) && Runs(s, steps, s') && Settled(s')
    ensures FirstCause(steps).Some?
    ensures s'.fired == [FirstCause(steps)] <==> TellsTheTrip(steps)
    ensures s'.fired != [FirstCause(steps)] ==> s'.fired == if FirstClaim(steps).None? then [] else [None]
  {
    RunKeeps(s, steps, s');
    ClaimDecides(s, steps, s');
    TripIsFirstCause(s, steps, s');
    assert s'.trip.Some?;
    if s'.notify.Some? {
      assert |s'.fired| == 1 && s'.fired == [s'.fired[0]];
      if s'.notify.value.ByShutdown? {
        NoticeRun(s, steps, s', s'.notify.value.i);
        assert !Busy(s', s'.notify.value);
      }
    }
  }

  /** Some notice, of the trip or of a clean end, reaches the host in every run that settles. */
  ghost predicate AlwaysNotified(s: State) {
    forall steps, s' :: Runs(s, steps, s') && Settled(s') ==> |s'.fired| == 1
  }

  /** The trip itself does. */
  ghost predicate AlwaysTold(s: State) {
    forall steps, s' :: Runs(s, steps, s') && Settled(s') ==> s'.fired == [s'.trip]
  }

  /** The state when an undisturbed first trip has run to its end. */
  function AfterTrip(s: State): State {
    s.(trip := Some(Unspecified), winner := Finished, reason := Some(Unspecified), processing := false,
       latchCloses := s.latchCloses + 1, payload := Some(Unspecified), payloadCloses := s.payloadCloses + 1)
  }

  lemma PrependTwo(s: State, first: Step, second: Step, rest: seq<Step>, s': State)
    requires Can(s, first) && Can(Next(s, first), second)
    requires Runs(Next(Next(s, first), second), rest, s')
    ensures Runs(s, [first] + ([second] + rest), s')
  {
    Prepend(Next(s, first), second, rest, s');
    Prepend(s, first, [second] + rest, s');
  }

  lemma TripThen(s: State, rest: seq<Step>, s': State) returns (steps: seq<Step>)
    requires s.trip.None? && s.payload.None? && Runs(AfterTrip(s), rest, s')
    ensures Runs(s, steps, s')
  {
    var b := Next(Next(s, Trigger(None)), SetReason);
    var d := Next(Next(b, Cancel), CloseLatch);
    PrependTwo(d, SendPayload, ClosePayload, rest, s');
    steps := [SendPayload] + ([ClosePayload] + rest);
    PrependTwo(b, Cancel, CloseLatch, steps, s');
    steps := [Cancel] + ([CloseLatch] + steps);
    PrependTwo(s, Trigger(None), SetReason, steps, s');
    steps := [Trigger(None)] + ([SetReason] + steps);
  }

  lemma CalledWithout(s: State, rest: seq<Step>, s': State) returns (steps: seq<Step>)
    requires 0 !in s.shutdowns && !s.callback && Runs(Move(s, 0, Signals), rest, s')
    ensures Runs(s, steps, s')
  {
    assert s.shutdowns[0 := Called][0 := Signals] == s.shutdowns[0 := Signals];
    PrependTwo(s, Call(0), Load(0), rest, s');
    steps := [Call(0)] + ([Load(0)] + rest);
  }

  /** A Shutdown with no callback registered lets the observer go. */
  lemma RetireThen(s: State, rest: seq<Step>, s': State) returns (steps: seq<Step>)
    requires 0 !in s.shutdowns && !s.callback && s.observer.Parked? && !s.graceful
    requires Runs(Move(s, 0, Returned).(observer := Over), rest, s')
    ensures Runs(s, steps, s')
  {
    var b := Move(s, 0, Signals);
    assert b.shutdowns[0 := Returned] == s.shutdowns[0 := Returned];
    PrependTwo(b, SignalDone(0), TakeGraceful, rest, s');
    steps := CalledWithout(s, [SignalDone(0)] + ([TakeGraceful] + rest), s');
  }

  /** What trips after such a Shutdown is never delivered, though a callback is registered by then. */
  lemma EarlyShutdownSilences(s: State) returns (steps: seq<Step>, s': State)
    requires Init(s) && !s.callback
    ensures Runs(s, steps, s') && Settled(s') && s'.fired == []
  {
    var t := Move(s, 0, Returned).(observer := Over);
    var u := Next(t, Register);
    s' := AfterTrip(u);
    steps := TripThen(u, [], s');
    Prepend(t, Register, steps, s');
    steps := RetireThen(s, [Register] + steps, s');
  }

  /** The observer, late: it takes the payload and records it, and finds the notification claimed. */
  lemma ObserverLate(s: State) returns (steps: seq<Step>, s': State)
    requires s.observer.Parked? && s.payload.Some? && s.callback && s.notify.Some?
    ensures Runs(s, steps, s') && s'.observer.Over?
    ensures s'.winner == s.winner && s'.callback && s'.shutdowns == s.shutdowns && s'.fired == s.fired
  {
    var b := Next(Next(s, TakePayload), RecordReason);
    s' := Next(Next(b, LoadCallback), ObserverClaims);
    PrependTwo(b, LoadCallback, ObserverClaims, [], s');
    steps := [LoadCallback] + ([ObserverClaims] + []);
    PrependTwo(s, TakePayload, RecordReason, steps, s');
    steps := [TakePayload] + ([RecordReason] + steps);
  }

  /** The owner of the notification reads and tells; what follows, follows. */
  lemma OwnerThen(d: State, rest: seq<Step>, s': State) returns (steps: seq<Step>)
    requires At(d, 0, Claimed)
    requires Runs(Move(d, 0, Signals).(fired := d.fired + [d.recorded]), rest, s')
    ensures Runs(d, steps, s')
  {
    assert d.shutdowns[0 := Delivers(d.recorded)][0 := Signals] == d.shutdowns[0 := Signals];
    PrependTwo(d, LoadReason(0), Deliver(0), rest, s');
    steps := [LoadReason(0)] + ([Deliver(0)] + rest);
  }

  /** A Shutdown that unsubscribed cleanly claims first. */
  lemma ClaimThen(s: State, b: State, rest: seq<Step>, s': State) returns (steps: seq<Step>)
    requires b == Move(s, 0, Unsubscribing) && s.notify.None?
    requires Runs(Move(s, 0, Claimed).(notify := Some(ByShutdown(0))), rest, s')
    ensures Runs(b, steps, s')
  {
    assert b.shutdowns[0 := Claims][0 := Claimed] == s.shutdowns[0 := Claimed];
    PrependTwo(b, Unsubscribed(0), Claim(0), rest, s');
    steps := [Unsubscribed(0)] + ([Claim(0)] + rest);
  }

  lemma CallThen(s: State, rest: seq<Step>, s': State) returns (steps: seq<Step>)
    requires 0 !in s.shutdowns && s.callback && Runs(Move(s, 0, Unsubscribing), rest, s')
    ensures Runs(s, steps, s')
  {
    assert s.shutdowns[0 := Called][0 := Unsubscribing] == s.shutdowns[0 := Unsubscribing];
    PrependTwo(s, Call(0), Load(0), rest, s');
    steps := [Call(0)] + ([Load(0)] + rest);
  }

  /** Such a Shutdown tells what is recorded at that moment. */
  lemma ShutdownThen(s: State, rest: seq<Step>, s': State) returns (steps: seq<Step>)
    requires 0 !in s.shutdowns && s.callback && s.notify.None?
    requires Runs(Move(s, 0, Signals).(notify := Some(ByShutdown(0)), fired := s.fired + [s.recorded]), rest, s')
    ensures Runs(s, steps, s')
  {
    var d := Move(s, 0, Claimed).(notify := Some(ByShutdown(0)));
    assert d.shutdowns[0 := Signals] == s.shutdowns[0 := Signals];
    steps := OwnerThen(d, rest, s');
    steps := ClaimThen(s, Move(s, 0, Unsubscribing), steps, s');
    steps := CallThen(s, steps, s');
  }

  /** A trip finished before Shutdown is called is told as a clean end, for good: the observer had not recorded it. */
  lemma TripToldAsClean(s: State) returns (steps: seq<Step>, s': State)
    requires Init(s) && s.callback
    ensures Runs(s, steps, s') && Settled(s') && s'.fired == [None]
  {
    var z := AfterTrip(s);
    var d := Move(z, 0, Signals).(notify := Some(ByShutdown(0)), fired := z.fired + [z.recorded]);
    steps, s' := ObserverLate(d);
    steps := ShutdownThen(z, steps, s');
    steps := TripThen(s, steps, s');
  }

  /**
    "A trip in any window reaches the host": some notice always does exactly when the callback is
    registered before anything races; the trip itself is never guaranteed to.
   */
  lemma NoticeGuaranteedExactly(s: State)
    requires Init(s)
    ensures AlwaysNotified(s) <==> s.callback
    ensures !AlwaysTold(s)
  {
    if s.callback {
      forall steps, s' | Runs(s, steps, s') && Settled(s')
        ensures |s'.fired| == 1
      {
        RunAttended(s, steps, s');
        NotifiedOnce(s, steps, s');
      }
      var steps, s' := TripToldAsClean(s);
      RunKeeps(s, steps, s');
      assert s'.fired != [s'.trip];
    } else {
      var steps, s' := EarlyShutdownSilences(s);
    }
  }
}
