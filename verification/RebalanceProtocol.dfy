/**
  Ownership as a protocol between threads: the rebalance handler, the commit ticker and the ingest loop,
  with the committer mutex, the one-slot commit guard and the assigned set between them. A step is one
  lock, one unlock or one critical section; the broker call of a commit is a separate state. That no commit
  is in flight when a revoke is acknowledged is derived here, not assumed.
 */
module RebalanceProtocol {
  import opened WorkItems

  datatype Thread = Handler | Ticker | Ingest

  /** A call of CommitOffsets. */
  datatype Commit =
    | Out                          // not in the call
    | Guarded                      // holds the commit guard
    | Locked                       // holds the mutex too
    | InFlight(parts: set<int>)    // the broker call, mutex held
    | Answered                     // back from it, mutex still held
    | Unlocked                     // mutex released, guard not yet

  /** Where the handler of a rebalance event is. `parts` are the event's partitions, `todo` those still to mark. */
  datatype Rebalance =
    | Idle
    | Draining(parts: set<int>)
    | Unmarking(parts: set<int>, todo: set<int>)
    | UnmarkLocked(parts: set<int>, todo: set<int>, p: int)
    | Resetting(parts: set<int>)
    | ResetLocked(parts: set<int>)
    | Marking(parts: set<int>, todo: set<int>)
    | MarkLocked(parts: set<int>, todo: set<int>, p: int)

  datatype State = State(
    mutex: Option<Thread>,
    guard: Option<Thread>,
    tick: Commit,                  // the commit of the ticker or any other caller: the guard admits one
    final: Commit,                 // the drain's commit, made by the handler
    handler: Rebalance,
    ingesting: bool,
    owned: set<int>,               // the committer's assigned set
    marked: set<int>,              // partitions whose tracker carries the revoke mark
    released: set<int>,            // revokes acknowledged and not marked assigned since
    leaving: set<int>)             // owned partitions this revoke has unmarked, until it is acknowledged

  datatype Step =
    | TakeGuard(t: Thread) | LockCommit(t: Thread) | Send(t: Thread, parts: set<int>)
    | Answer(t: Thread) | UnlockCommit(t: Thread) | DropGuard(t: Thread)
    | BeginRevoke(parts: set<int>) | DrainEnds | LockUnmark(p: int) | Unmark | AckRevoke
    | BeginAssign(parts: set<int>) | LockReset | Reset | LockMark(p: int) | Mark | AckAssign
    | LockIngest | Complete(p: int) | UnlockIngest

  function CommitOf(s: State, t: Thread): Commit {
    match t
    case Ticker => s.tick
    case Handler => s.final
    case Ingest => Out
  }

  function Put(s: State, t: Thread, c: Commit): State {
    match t
    case Ticker => s.(tick := c)
    case Handler => s.(final := c)
    case Ingest => s
  }

  predicate Can(s: State, step: Step) {
    match step
    case TakeGuard(t) =>
      s.guard.None? && !t.Ingest? && CommitOf(s, t).Out? && (t.Handler? ==> s.handler.Draining?)
    case LockCommit(t) => s.mutex.None? && CommitOf(s, t).Guarded?
    case Send(t, parts) => CommitOf(s, t).Locked? && parts <= s.owned
    case Answer(t) => CommitOf(s, t).InFlight?
    case UnlockCommit(t) => CommitOf(s, t).Answered?
    case DropGuard(t) => CommitOf(s, t).Unlocked?
    case BeginRevoke(parts) => s.handler.Idle?
    case DrainEnds => s.handler.Draining? && s.final.Out?
    case LockUnmark(p) => s.handler.Unmarking? && p in s.handler.todo && s.mutex.None?
    case Unmark => s.handler.UnmarkLocked?
    case AckRevoke => s.handler.Unmarking? && s.handler.todo == {}
    case BeginAssign(parts) => s.handler.Idle?
    case LockReset => s.handler.Resetting? && s.mutex.None?
    case Reset => s.handler.ResetLocked?
    case LockMark(p) => s.handler.Marking? && p in s.handler.todo && s.mutex.None?
    case Mark => s.handler.MarkLocked?
    case AckAssign => s.handler.Marking? && s.handler.todo == {}
    case LockIngest => s.mutex.None? && !s.ingesting
    case Complete(p) => s.ingesting
    case UnlockIngest => s.ingesting
  }

  function Next(s: State, step: Step): State
    requires Can(s, step)
  {
    match step
    case TakeGuard(t) => Put(s.(guard := Some(t)), t, Guarded)
    case LockCommit(t) => Put(s.(mutex := Some(t)), t, Locked)
    case Send(t, parts) => Put(s, t, if parts == {} then Answered else InFlight(parts))
    case Answer(t) => Put(s, t, Answered)
    case UnlockCommit(t) => Put(s.(mutex := None), t, Unlocked)
    case DropGuard(t) => Put(s.(guard := None), t, Out)
    case BeginRevoke(parts) => s.(handler := Draining(parts))
    case DrainEnds => s.(handler := Unmarking(s.handler.parts, s.handler.parts))
    case LockUnmark(p) => s.(mutex := Some(Handler), handler := UnmarkLocked(s.handler.parts, s.handler.todo, p))
    case Unmark =>
      var h := s.handler;
      s.(mutex := None, owned := s.owned - {h.p}, marked := s.marked + {h.p},
         leaving := if h.p in s.owned then s.leaving + {h.p} else s.leaving,
         handler := Unmarking(h.parts, h.todo - {h.p}))
    case AckRevoke => s.(released := s.released + s.handler.parts, leaving := {}, handler := Idle)
    case BeginAssign(parts) => s.(handler := Resetting(parts))
    case LockReset => s.(mutex := Some(Handler), handler := ResetLocked(s.handler.parts))
    case Reset =>
      var h := s.handler;
      s.(mutex := None, marked := s.marked - h.parts, handler := Marking(h.parts, h.parts))
    case LockMark(p) => s.(mutex := Some(Handler), handler := MarkLocked(s.handler.parts, s.handler.todo, p))
    case Mark =>
      var h := s.handler;
      s.(mutex := None, owned := s.owned + {h.p}, released := s.released - {h.p},
         handler := Marking(h.parts, h.todo - {h.p}))
    case AckAssign => s.(handler := Idle)
    case LockIngest => s.(mutex := Some(Ingest), ingesting := true)
    case Complete(p) => s
    case UnlockIngest => s.(mutex := None, ingesting := false)
  }

  predicate Init(s: State) {
    s == State(None, None, Out, Out, Idle, false, {}, {}, {}, {})
  }

  // ---- what every step keeps ----

  predicate HoldsByCommit(c: Commit) {
    c.Locked? || c.InFlight? || c.Answered?
  }

  predicate HandlerLocked(h: Rebalance) {
    h.UnmarkLocked? || h.ResetLocked? || h.MarkLocked?
  }

  /** The mutex has the one holder its threads' positions say it has. */
  predicate Exclusive(s: State) {
    && (s.mutex == Some(Ticker) <==> HoldsByCommit(s.tick))
    && (s.mutex == Some(Handler) <==> HoldsByCommit(s.final) || HandlerLocked(s.handler))
    && (s.mutex == Some(Ingest) <==> s.ingesting)
    && (!s.final.Out? ==> s.handler.Draining?)
  }

  /** The commit guard has the one holder that is in CommitOffsets. */
  predicate OneCommitter(s: State) {
    && (s.guard == Some(Ticker) <==> !s.tick.Out?)
    && (s.guard == Some(Handler) <==> !s.final.Out?)
    && s.guard != Some(Ingest)
  }

  predicate SendsOwned(s: State) {
    && (s.tick.InFlight? ==> s.tick.parts <= s.owned)
    && (s.final.InFlight? ==> s.final.parts <= s.owned)
  }

  /** Partitions the handler has finished unmarking, or not begun to mark. */
  function Unmarked(h: Rebalance): set<int> {
    match h
    case Unmarking(parts, todo) => parts - todo
    case UnmarkLocked(parts, todo, p) => parts - todo
    case _ => {}
  }

  /** Partitions the handler has reset and is marking. */
  function ResetBy(h: Rebalance): set<int> {
    match h
    case Marking(parts, todo) => parts
    case MarkLocked(parts, todo, p) => parts
    case _ => {}
  }

  /** Released partitions are not owned, nor are those unmarked so far; owned ones were reset since their revoke. */
  predicate Tidy(s: State) {
    && s.released * s.owned == {} && Unmarked(s.handler) * s.owned == {}
    && s.marked * s.owned == {} && ResetBy(s.handler) * s.marked == {}
    && (s.handler.MarkLocked? ==> s.handler.p in s.handler.parts)
    && (s.handler.Marking? || s.handler.MarkLocked? ==>
          s.handler.todo <= s.handler.parts && s.handler.parts - s.handler.todo <= s.owned)
    && (s.handler.Unmarking? || s.handler.UnmarkLocked? ==> s.handler.todo <= s.handler.parts)
    && (s.handler.UnmarkLocked? ==> s.handler.p in s.handler.todo)
    && s.leaving <= Unmarked(s.handler)
  }

  /** Partitions the handler has marked as assigned in this event. */
  function MarkedBy(h: Rebalance): set<int> {
    match h
    case Marking(parts, todo) => parts - todo
    case MarkLocked(parts, todo, p) => parts - todo
    case _ => {}
  }

  /** A revoke leaves its mark on the tracker, and only an assign's reset takes it off. */
  predicate Stained(s: State) {
    && Unmarked(s.handler) <= s.marked && s.released <= s.marked + ResetBy(s.handler)
    && MarkedBy(s.handler) * s.released == {}
  }

  predicate Ok(s: State) {
    Exclusive(s) && OneCommitter(s) && SendsOwned(s) && Tidy(s) && Stained(s)
  }

  lemma StepOneCommitter(s: State, step: Step)
    requires OneCommitter(s) && Can(s, step)
    ensures OneCommitter(Next(s, step))
  {
  }

  lemma StepStained(s: State, step: Step)
    requires Tidy(s) && Stained(s) && Can(s, step)
    ensures Stained(Next(s, step))
  {
    if step.AckAssign? {
      assert MarkedBy(s.handler) == s.handler.parts;
    } else if step.AckRevoke? {
      assert Unmarked(s.handler) == s.handler.parts;
    }
  }

  lemma StepExclusive(s: State, step: Step)
    requires Exclusive(s) && Can(s, step)
    ensures Exclusive(Next(s, step))
  {
  }

  lemma StepSends(s: State, step: Step)
    requires Exclusive(s) && SendsOwned(s) && Can(s, step)
    ensures SendsOwned(Next(s, step))
  {
  }

  lemma StepTidy(s: State, step: Step)
    requires Exclusive(s) && Tidy(s) && Can(s, step)
    ensures Tidy(Next(s, step))
  {
  }

  lemma StepOk(s: State, step: Step)
    requires Ok(s) && Can(s, step)
    ensures Ok(Next(s, step))
  {
    StepExclusive(s, step);
    StepOneCommitter(s, step);
    StepSends(s, step);
    StepTidy(s, step);
    StepStained(s, step);
  }

  ghost predicate Runs(s: State, steps: seq<Step>, s': State)
    decreases |steps|
  {
    if steps == [] then s' == s
    else Can(s, steps[0]) && Runs(Next(s, steps[0]), steps[1..], s')
  }

  lemma {:induction false} RunOk(s: State, steps: seq<Step>, s': State)
    requires Ok(s) && Runs(s, steps, s')
    ensures Ok(s')
    decreases |steps|
  {
    if steps != [] {
      StepOk(s, steps[0]);
      RunOk(Next(s, steps[0]), steps[1..], s');
    }
  }

  /** A commit naming partition `p` is at the broker. */
  predicate Sending(s: State, p: int) {
    (s.tick.InFlight? && p in s.tick.parts) || (s.final.InFlight? && p in s.final.parts)
  }

  /**
    Ownership over every interleaving of handler, ticker and ingest: at most one caller is in CommitOffsets, a
    commit at the broker names only owned partitions, each of them reset since its last revoke; and no
    partition whose revoke is being acknowledged, or was acknowledged and not marked since, is owned or at the
    broker, and its tracker carries the revoke's mark until an assign resets it.
   */
  lemma NoCommitAfterRevoke(s: State, steps: seq<Step>, s': State, p: int)
    requires Init(s) && Runs(s, steps, s')
    ensures s'.tick.Out? || s'.final.Out?
    ensures Sending(s', p) ==> p in s'.owned && p !in s'.marked
    ensures Can(s', AckRevoke) && p in s'.handler.parts ==> p !in s'.owned && !Sending(s', p)
    ensures p in s'.released ==> p !in s'.owned && !Sending(s', p)
    ensures p in s'.released ==> p in s'.marked || p in ResetBy(s'.handler)
    ensures Can(s', AckRevoke) && p in s'.handler.parts ==> p in s'.marked
  {
    RunOk(s, steps, s');
    assert p in s'.released ==> p !in s'.released * s'.owned;
    assert p in s'.owned ==> p !in s'.marked * s'.owned;
    if Can(s', AckRevoke) {
      assert p in s'.handler.parts ==> p in Unmarked(s'.handler);
    }
  }

  /** No step of the run marks `p` as assigned. */
  ghost predicate NeverMarks(s: State, steps: seq<Step>, p: int)
    decreases |steps|
  {
    steps != [] && Can(s, steps[0]) ==>
      !(steps[0].Mark? && s.handler.p == p) && NeverMarks(Next(s, steps[0]), steps[1..], p)
  }

  /** From the acknowledgement of a revoke until the partition is marked again, no commit names it. */
  lemma {:induction false} SilentUntilMarked(s: State, steps: seq<Step>, s': State, p: int)
    requires Ok(s) && p in s.released && Runs(s, steps, s') && NeverMarks(s, steps, p)
    ensures p in s'.released && p !in s'.owned && !Sending(s', p)
    decreases |steps|
  {
    if steps == [] {
      assert p !in s.released * s.owned;
    } else {
      StepOk(s, steps[0]);
      SilentUntilMarked(Next(s, steps[0]), steps[1..], s', p);
    }
  }

  /** The same told from the steps: after the acknowledgement of a revoke that named it, until the next mark of it. */
  lemma AcknowledgedIsSilent(s: State, before: seq<Step>, u: State, after: seq<Step>, v: State, p: int)
    requires Init(s) && Runs(s, before, u) && Can(u, AckRevoke) && p in u.handler.parts
    requires Runs(Next(u, AckRevoke), after, v) && NeverMarks(Next(u, AckRevoke), after, p)
    ensures p !in v.owned && !Sending(v, p) && (p in v.marked || p in ResetBy(v.handler))
  {
    RunOk(s, before, u);
    StepOk(u, AckRevoke);
    SilentUntilMarked(Next(u, AckRevoke), after, v, p);
    RunOk(Next(u, AckRevoke), after, v);
  }
}
