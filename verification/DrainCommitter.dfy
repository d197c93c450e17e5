/**
  The handshake between the ingest goroutine and DrainCommitter over the one-slot `drained` channel,
  step by step: receiving a completion, taking the mutex, batching, flushing, testing the channel for
  emptiness and signalling are separate steps, because the workers' sends need no mutex.
 */
module DrainCommitter {
  /** Waiting, or holding a received completion, or in a batch, or having tested the channel. */
  datatype Ingest = Waiting | InHand(item: nat) | Batching | Tested(empty: bool)

  datatype Drain =
    | NotStarted
    | Cleared                    // stale token removed
    | GracePeriod                // saw an empty channel
    | AwaitingToken              // saw a non-empty channel
    | Exited(byToken: bool)      // about to run the final commit
    | TimedOut

  datatype State = State(
    handed: seq<nat>,            // everything the workers ever sent
    chan: seq<nat>,              // commitsIn
    ingest: Ingest,
    token: bool,
    ingested: seq<nat>,          // gone through processCommit
    flushed: nat,                // how many of them a batch-end flush has covered
    drain: Drain)

  datatype Step =
    | HandOff(item: nat)         // a worker's send
    | Take | Lock | More | FlushAndTest | Signal
    | Start | Look | UseToken | GraceEnds | TimerFires

  predicate MutexFree(s: State) {
    s.ingest.Waiting? || s.ingest.InHand?
  }

  predicate Can(s: State, step: Step) {
    match step
    case HandOff(x) => true
    case Take => s.ingest.Waiting? && s.chan != []
    case Lock => s.ingest.InHand?
    case More => s.ingest.Batching? && s.chan != []
    case FlushAndTest => s.ingest.Batching?
    case Signal => s.ingest.Tested?
    case Start => s.drain.NotStarted?
    case Look => s.drain.Cleared?
    case UseToken => s.token && (s.drain.GracePeriod? || s.drain.AwaitingToken?)
    case GraceEnds => s.drain.GracePeriod? && MutexFree(s)
    case TimerFires => s.drain.AwaitingToken?
  }

  function Next(s: State, step: Step): State
    requires Can(s, step)
  {
    match step
    case HandOff(x) => s.(handed := s.handed + [x], chan := s.chan + [x])
    case Take => s.(ingest := InHand(s.chan[0]), chan := s.chan[1..])
    case Lock => s.(ingest := Batching, ingested := s.ingested + [s.ingest.item])
    case More => s.(ingested := s.ingested + [s.chan[0]], chan := s.chan[1..])
    case FlushAndTest => s.(ingest := Tested(s.chan == []), flushed := |s.ingested|)
    case Signal => s.(ingest := Waiting, token := s.token || s.ingest.empty)
    case Start => s.(token := false, drain := Cleared)
    case Look => s.(drain := if s.chan == [] then GracePeriod else AwaitingToken)
    case UseToken => s.(token := false, drain := Exited(true))
    case GraceEnds => s.(drain := Exited(false))
    case TimerFires => s.(drain := TimedOut)
  }

  ghost predicate Runs(s: State, steps: seq<Step>, s': State)
    decreases |steps|
  {
    if steps == [] then s' == s
    else Can(s, steps[0]) && Runs(Next(s, steps[0]), steps[1..], s')
  }

  function Start0(): State {
    State([], [], Waiting, false, [], 0, NotStarted)
  }

  /** Received and not yet gone through processCommit. */
  function InHandOf(s: State): seq<nat> {
    if s.ingest.InHand? then [s.ingest.item] else []
  }

  /** Nothing handed over is lost, repeated or reordered; between batches all that is ingested is flushed. */
  predicate Whole(s: State) {
    && s.handed == s.ingested + InHandOf(s) + s.chan
    && s.flushed <= |s.ingested| && (!s.ingest.Batching? ==> s.flushed == |s.ingested|)
  }

  lemma StepWhole(s: State, step: Step)
    requires Whole(s) && Can(s, step)
    ensures Whole(Next(s, step))
  {
    if step.Take? || step.More? {
      assert s.chan == [s.chan[0]] + s.chan[1..];
    }
  }

  lemma {:induction false} RunWhole(s: State, steps: seq<Step>, s': State)
    requires Whole(s) && Runs(s, steps, s')
    ensures Whole(s')
    decreases |steps|
  {
    if steps != [] {
      StepWhole(s, steps[0]);
      RunWhole(Next(s, steps[0]), steps[1..], s');
    }
  }

  /** Every completion handed over is ingested, in order, and flushed. */
  predicate Complete(s: State) {
    s.ingested == s.handed && s.flushed == |s.handed|
  }

  /** No worker sends any more. */
  predicate WorkersDone(steps: seq<Step>) {
    forall step :: step in steps ==> !step.HandOff?
  }

  /** Once the drain has started, a token (present, used, or about to be sent) means completeness. */
  predicate TokenMeansComplete(s: State) {
    && !s.drain.NotStarted? && Whole(s)
    && (s.token || s.drain == Exited(true) ==> s.chan == [] && s.ingest.Waiting?)
    && (s.drain == Exited(true) ==> !s.token)
    && (s.ingest == Tested(true) ==> s.chan == [])
  }

  lemma StepToken(s: State, step: Step)
    requires TokenMeansComplete(s) && Can(s, step) && !step.HandOff?
    ensures TokenMeansComplete(Next(s, step))
  {
    StepWhole(s, step);
  }

  lemma {:induction false} TokenStaysComplete(s: State, steps: seq<Step>, s': State)
    requires TokenMeansComplete(s) && Runs(s, steps, s') && WorkersDone(steps)
    ensures TokenMeansComplete(s')
    decreases |steps|
  {
    if steps != [] {
      assert steps[0] in steps;
      StepToken(s, steps[0]);
      TokenStaysComplete(Next(s, steps[0]), steps[1..], s');
    }
  }

  /** The ingest loop has found the channel empty but not yet said so, and the channel is no longer empty. */
  predicate StaleVerdict(s: State) {
    s.ingest == Tested(true) && s.chan != []
  }

  /** Every drain started in `s` with the workers done that exits by the token does so with all ingested and flushed. */
  ghost predicate TokenExitsComplete(s: State) {
    forall steps, s' ::
      Can(s, Start) && Runs(Next(s, Start), steps, s') && WorkersDone(steps) && s'.drain == Exited(true) ==>
        Complete(s')
  }

  lemma StaleExit(s: State) returns (steps: seq<Step>, s': State)
    requires Whole(s) && s.drain.NotStarted? && StaleVerdict(s)
    ensures Runs(Next(s, Start), steps, s') && WorkersDone(steps) && s'.drain == Exited(true) && !Complete(s')
  {
    var s1 := Next(s, Start);
    var s2 := Next(s1, Signal);
    var s3 := Next(s2, Look);
    s' := Next(s3, UseToken);
    assert [UseToken][1..] == [] && Runs(s3, [UseToken], s');
    assert [Look, UseToken][1..] == [UseToken] && Runs(s2, [Look, UseToken], s');
    steps := [Signal, Look, UseToken];
    assert steps[1..] == [Look, UseToken] && Runs(s1, steps, s');
    assert |s'.handed| > |s'.ingested|;
  }

  /**
    The promise of the token, exactly: a drain started with the workers done exits by the token only
    after everything handed over is ingested and flushed, if and only if it does not start on top of a
    stale verdict, that is, with a completion handed over between the emptiness test and the send.
   */
  lemma TokenExitExactly(s: State)
    requires Whole(s) && s.drain.NotStarted?
    ensures TokenExitsComplete(s) <==> !StaleVerdict(s)
  {
    if StaleVerdict(s) {
      var steps, s' := StaleExit(s);
    } else {
      StepWhole(s, Start);
      forall steps, s' | Runs(Next(s, Start), steps, s') && WorkersDone(steps) && s'.drain == Exited(true)
        ensures Complete(s')
      {
        TokenStaysComplete(Next(s, Start), steps, s');
      }
    }
  }

  /** The stale verdict happens: one completion ingested, another handed over before the signal. */
  lemma StaleVerdictReachable(a: nat, b: nat) returns (steps: seq<Step>, s: State)
    ensures Runs(Start0(), steps, s) && s.drain.NotStarted? && StaleVerdict(s)
  {
    var s1 := Next(Start0(), HandOff(a));
    var s2 := Next(s1, Take);
    var s3 := Next(s2, Lock);
    var s4 := Next(s3, FlushAndTest);
    s := Next(s4, HandOff(b));
    steps := [HandOff(a), Take, Lock, FlushAndTest, HandOff(b)];
    assert Runs(s, steps[5..], s);
    assert steps[4..][1..] == steps[5..] && Runs(s4, steps[4..], s);
    assert steps[3..][1..] == steps[4..] && Runs(s3, steps[3..], s);
    assert steps[2..][1..] == steps[3..] && Runs(s2, steps[2..], s);
    assert steps[1..][1..] == steps[2..] && Runs(s1, steps[1..], s);
    assert steps[0..] == steps;
  }

  /** An empty channel stays empty once the drain has started and the workers are done. */
  predicate GraceInv(s: State) {
    && !s.drain.NotStarted? && Whole(s)
    && (s.drain.GracePeriod? || s.drain == Exited(false) ==> s.chan == [])
  }

  lemma {:induction false} GraceRun(s: State, steps: seq<Step>, s': State)
    requires GraceInv(s) && Runs(s, steps, s') && WorkersDone(steps)
    ensures GraceInv(s')
    decreases |steps|
  {
    if steps != [] {
      assert steps[0] in steps;
      StepWhole(s, steps[0]);
      GraceRun(Next(s, steps[0]), steps[1..], s');
    }
  }

  /**
    The grace exit, exactly: when the grace period ends and the mutex barrier is passed, everything handed
    over is ingested and flushed if and only if the ingest loop does not still hold a received completion.
   */
  lemma GraceExitExactly(s: State, steps: seq<Step>, s': State)
    requires Whole(s) && s.drain.NotStarted? && Runs(Next(s, Start), steps, s') && WorkersDone(steps)
    requires Can(s', GraceEnds)
    ensures Complete(Next(s', GraceEnds)) <==> !s'.ingest.InHand?
  {
    StepWhole(s, Start);
    GraceRun(Next(s, Start), steps, s');
    if s'.ingest.InHand? {
      assert |s'.handed| > |s'.ingested|;
    }
  }

  /** That happens too: a completion taken from the channel before the drain looks, the mutex not yet taken. */
  lemma HeldAtGraceEnds(a: nat) returns (s: State, steps: seq<Step>, s': State)
    ensures Runs(Start0(), [HandOff(a), Take], s) && s.drain.NotStarted?
    ensures Runs(Next(s, Start), steps, s') && WorkersDone(steps) && Can(s', GraceEnds)
    ensures !Complete(Next(s', GraceEnds))
  {
    var s1 := Next(Start0(), HandOff(a));
    s := Next(s1, Take);
    assert [Take][1..] == [] && Runs(s1, [Take], s);
    assert [HandOff(a), Take][1..] == [Take];
    s' := Next(Next(s, Start), Look);
    steps := [Look];
    assert steps[1..] == [];
  }

  // ---- the drain needs no timeout ----

  /** Something is still to come that ends with the channel found empty, or the token is there already. */
  predicate WillSignal(s: State) {
    s.token || s.chan != [] || s.ingest.InHand? || s.ingest.Batching? || s.ingest == Tested(true)
  }

  /** While the drain waits for the token one is on its way. */
  predicate Expecting(s: State) {
    s.drain.AwaitingToken? ==> WillSignal(s)
  }

  lemma StepExpecting(s: State, step: Step)
    requires Expecting(s) && Can(s, step)
    ensures Expecting(Next(s, step))
  {
  }

  lemma {:induction false} RunExpecting(s: State, steps: seq<Step>, s': State)
    requires Expecting(s) && Runs(s, steps, s')
    ensures Expecting(s')
    decreases |steps|
  {
    if steps != [] {
      StepExpecting(s, steps[0]);
      RunExpecting(Next(s, steps[0]), steps[1..], s');
    }
  }

  /** The ingest loop's next step, then the drain's own. */
  function Onward(s: State): Step {
    if s.drain.Cleared? then Look
    else if s.token then UseToken
    else
      match s.ingest
      case Waiting => if s.chan != [] then Take else GraceEnds
      case InHand(_) => Lock
      case Batching => if s.chan != [] then More else FlushAndTest
      case Tested(_) => Signal
  }

  /** How much of that is left. */
  function Ahead(s: State): nat {
    4 * |s.chan| + (if s.drain.Cleared? then 1 else 0) + (if s.token then 0 else 1) +
    match s.ingest
    case Waiting => 0
    case InHand(_) => 3
    case Batching => 2
    case Tested(_) => 1
  }

  predicate Started(d: Drain) {
    d.Cleared? || d.GracePeriod? || d.AwaitingToken?
  }

  lemma OnwardAdvances(s: State)
    requires Expecting(s) && Started(s.drain)
    ensures Can(s, Onward(s)) && Expecting(Next(s, Onward(s)))
    ensures var s' := Next(s, Onward(s)); s'.drain.Exited? || (Started(s'.drain) && Ahead(s') < Ahead(s))
  {
  }

  /** From every state of a running drain the ingest loop's steps and its own lead to an exit before the timer. */
  lemma {:induction false} CommitterDrainEnds(s: State) returns (steps: seq<Step>, s': State)
    requires Expecting(s) && Started(s.drain)
    ensures Runs(s, steps, s') && s'.drain.Exited?
    ensures forall step :: step in steps ==> !step.HandOff? && !step.TimerFires?
    decreases Ahead(s)
  {
    OnwardAdvances(s);
    var t := Next(s, Onward(s));
    if t.drain.Exited? {
      steps, s' := [], t;
    } else {
      steps, s' := CommitterDrainEnds(t);
    }
    assert ([Onward(s)] + steps)[1..] == steps;
    steps := [Onward(s)] + steps;
  }

  /** So, from the start of the process, no drain of the committer ever depends on its timeout. */
  lemma CommitterDrainEndsOverRuns(before: seq<Step>, s: State) returns (steps: seq<Step>, s': State)
    requires Runs(Start0(), before, s) && Started(s.drain)
    ensures Runs(s, steps, s') && s'.drain.Exited?
    ensures forall step :: step in steps ==> !step.HandOff? && !step.TimerFires?
  {
    RunExpecting(Start0(), before, s);
    steps, s' := CommitterDrainEnds(s);
  }
}
