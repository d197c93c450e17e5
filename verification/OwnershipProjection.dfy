/**
  What one partition sees of the rebalance protocol: every run of handler, ticker and ingest projects to a
  run of the ownership steps that the partition's world is built from, under the same guards.
 */
module OwnershipProjection {
  import opened GapOrder
  import W = PartitionWorld
  import R = RebalanceProtocol

  /** Ownership of one partition, and whether a commit of it is at the broker. */
  datatype Skeleton = Skeleton(phase: W.Phase, sending: bool)

  datatype Move = Resets | Marks | Loses | Acks | Ticks(sends: bool) | Answers | Touches | Rests

  predicate Allowed(k: Skeleton, m: Move) {
    match m
    case Resets => !k.sending && (k.phase.Away? || k.phase.Owned?)
    case Marks => !k.sending && k.phase.Granted?
    case Loses => !k.sending && k.phase.Owned?
    case Acks => k.phase.Leaving?
    case Ticks(sends) => !k.sending && (sends ==> k.phase.Owned?)
    case Answers => k.sending
    case Touches => !k.sending
    case Rests => true
  }

  function After(k: Skeleton, m: Move): Skeleton {
    match m
    case Resets => k.(phase := if k.phase.Owned? then W.Owned else W.Granted)
    case Marks => k.(phase := W.Owned)
    case Loses => k.(phase := W.Leaving)
    case Acks => k.(phase := W.Away)
    case Ticks(sends) => k.(sending := sends)
    case Answers => k.(sending := false)
    case _ => k
  }

  ghost predicate Runs(k: Skeleton, moves: seq<Move>, k': Skeleton)
    decreases |moves|
  {
    if moves == [] then k' == k
    else Allowed(k, moves[0]) && Runs(After(k, moves[0]), moves[1..], k')
  }

  // ---- the protocol's side ----

  /** Marked; unmarked but not acknowledged; reset but not marked; or away. */
  function PhaseOf(s: R.State, p: int): W.Phase {
    if p in s.owned then W.Owned
    else if p in s.leaving then W.Leaving
    else if p in R.ResetBy(s.handler) then W.Granted
    else W.Away
  }

  function Seen(s: R.State, p: int): Skeleton {
    Skeleton(PhaseOf(s, p), R.Sending(s, p))
  }

  /** What a step of the protocol is to partition `p`. */
  function MoveOf(s: R.State, step: R.Step, p: int): Move
    requires R.Can(s, step)
  {
    match step
    case Send(t, parts) => Ticks(p in parts)
    case Answer(t) => if p in R.CommitOf(s, t).parts then Answers else Rests
    case Unmark => if p == s.handler.p && p in s.owned then Loses else Rests
    case AckRevoke => if p in s.leaving then Acks else Rests
    case Reset => if p in s.handler.parts then Resets else Rests
    case Mark => if p == s.handler.p && p !in s.owned then Marks else Rests
    case Complete(q) => if q == p then Touches else Rests
    case _ => Rests
  }

  function MovesOf(s: R.State, steps: seq<R.Step>, p: int): seq<Move>
    decreases |steps|
  {
    if steps == [] || !R.Can(s, steps[0]) then []
    else [MoveOf(s, steps[0], p)] + MovesOf(R.Next(s, steps[0]), steps[1..], p)
  }

  lemma StepSending(s: R.State, step: R.Step, p: int)
    requires R.Ok(s) && R.Can(s, step)
    ensures R.Sending(R.Next(s, step), p) == After(Seen(s, p), MoveOf(s, step, p)).sending
    ensures MoveOf(s, step, p).Answers? ==> R.Sending(s, p)
    ensures !MoveOf(s, step, p).Rests? && !MoveOf(s, step, p).Answers? && !MoveOf(s, step, p).Acks? ==> !R.Sending(s, p)
  {
  }

  lemma StepPhase(s: R.State, step: R.Step, p: int)
    requires R.Ok(s) && R.Can(s, step)
    ensures PhaseOf(R.Next(s, step), p) == After(Seen(s, p), MoveOf(s, step, p)).phase
  {
  }

  lemma StepProjects(s: R.State, step: R.Step, p: int)
    requires R.Ok(s) && R.Can(s, step)
    ensures Allowed(Seen(s, p), MoveOf(s, step, p))
    ensures Seen(R.Next(s, step), p) == After(Seen(s, p), MoveOf(s, step, p))
  {
    StepSending(s, step, p);
    StepPhase(s, step, p);
  }

  /** Every run of the protocol, as each partition sees it, is a run of its ownership skeleton. */
  lemma {:induction false} ProtocolProjects(s: R.State, steps: seq<R.Step>, s': R.State, p: int)
    requires R.Ok(s) && R.Runs(s, steps, s')
    ensures Runs(Seen(s, p), MovesOf(s, steps, p), Seen(s', p))
    decreases |steps|
  {
    if steps != [] {
      var v, rest := R.Next(s, steps[0]), steps[1..];
      StepProjects(s, steps[0], p);
      R.StepOk(s, steps[0]);
      ProtocolProjects(v, rest, s', p);
      assert ([MoveOf(s, steps[0], p)] + MovesOf(v, rest, p))[1..] == MovesOf(v, rest, p);
    }
  }

  // ---- the world's side ----

  /** Fencing is the broker's knowledge, not the consumer's. */
  function SkeletonOf(w: W.World): Skeleton {
    Skeleton(if w.phase.Fenced? then W.Owned else w.phase, w.sending)
  }

  function MoveIn(w: W.World, s: W.Step): Move {
    match s
    case ResetOnAssign(b) => Resets
    case MarkAssigned => Marks
    case MarkLost => Loses
    case AckRevoke => Acks
    case TickBegin(sorted) => Ticks(W.Marked(w.phase) && W.Prepared(w, sorted).ready.Some?)
    case TickEnd(outcome) => Answers
    case Complete(item) => Touches
    case BatchEnd(sorted) => Touches
    case _ => Rests
  }

  /** What a step asks of the log, the tracker and the broker, ownership and the mutex aside. */
  ghost predicate DataAllows(w: W.World, s: W.Step) {
    match s
    case ResetOnAssign(b) => b == w.pos || b < 0
    case TickBegin(sorted) => w.tracker.Some? && Arranged(w.tracker.value.gap, sorted)
    case BatchEnd(sorted) => w.tracker.Some? && Arranged(w.tracker.value.gap, sorted)
    case TickEnd(outcome) => w.phase.Fenced? ==> outcome.Refused?
    case Complete(item) => item in w.flight
    case MarkAssigned => true
    case MarkLost => true
    case AckRevoke => true
    case _ => W.Can(w, s)
  }

  /** The world's guards on ownership and the mutex are exactly the skeleton's, and so are its changes. */
  lemma WorldIsSkeleton(w: W.World, s: W.Step)
    requires W.Locked(w)
    ensures W.Can(w, s) <==> Allowed(SkeletonOf(w), MoveIn(w, s)) && DataAllows(w, s)
    ensures W.Can(w, s) ==> SkeletonOf(W.Next(w, s)) == After(SkeletonOf(w), MoveIn(w, s))
  {
  }

  /**
    So the world assumes nothing of ownership that the protocol does not give: after any run of the protocol,
    a world in the same position can take every step that matches the protocol's next one, and follows it.
   */
  lemma ProtocolDrives(s: R.State, steps: seq<R.Step>, s': R.State, step: R.Step, p: int, w: W.World, move: W.Step)
    requires R.Init(s) && R.Runs(s, steps, s') && R.Can(s', step)
    requires W.Locked(w) && SkeletonOf(w) == Seen(s', p)
    requires MoveIn(w, move) == MoveOf(s', step, p) && DataAllows(w, move)
    ensures W.Can(w, move) && SkeletonOf(W.Next(w, move)) == Seen(R.Next(s', step), p)
  {
    R.RunOk(s, steps, s');
    StepProjects(s', step, p);
    WorldIsSkeleton(w, move);
  }
}
