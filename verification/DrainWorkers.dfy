/**
  Draining the workers with polling stopped: shard by shard, a snapshot of the shard's workers, then a
  wait for each of them to retire.
 */
module DrainWorkers {
  import opened Pipeline

  datatype Drain = Scanning(shard: nat) | Awaiting(shard: nat, workers: set<nat>) | Drained

  /** `shards[k]` is the shard of key `k`, `count` the number of shards. */
  datatype System = System(pipe: State, drain: Drain, shards: imap<int, nat>, count: nat)

  datatype Move =
    | Work(step: Step)
    | Snapshot
    | Observe(w: nat)
    | NextShard

  ghost predicate Able(y: System, m: Move) {
    match m
    case Work(step) => !step.Poll? && Can(y.pipe, step)
    case Snapshot => y.drain.Scanning? && y.drain.shard < y.count
    case Observe(w) =>
      && y.drain.Awaiting? && w in y.drain.workers
      && w in y.pipe.workers && !y.pipe.workers[w].active
    case NextShard =>
      || (y.drain.Awaiting? && y.drain.workers == {})
      || (y.drain.Scanning? && y.drain.shard >= y.count)
  }

  ghost function Act(y: System, m: Move): System
    requires Able(y, m) && forall k :: k in y.shards
  {
    match m
    case Work(step) => y.(pipe := Next(y.pipe, step))
    case Snapshot =>
      var i := y.drain.shard;
      y.(drain := Awaiting(i, set k | k in y.pipe.owner && y.shards[k] == i :: y.pipe.owner[k]))
    case Observe(w) => y.(drain := Awaiting(y.drain.shard, y.drain.workers - {w}))
    case NextShard =>
      if y.drain.Awaiting? then y.(drain := Scanning(y.drain.shard + 1)) else y.(drain := Drained)
  }

  /** A live key is in a shard still to be scanned, or its worker is being waited for. */
  ghost predicate Behind(y: System, k: int)
    requires k in y.shards && k in y.pipe.owner
  {
    match y.drain
    case Scanning(i) => y.shards[k] >= i
    case Awaiting(i, ws) => y.shards[k] > i || (y.shards[k] == i && y.pipe.owner[k] in ws)
    case Drained => false
  }

  ghost predicate DrainInv(y: System) {
    && Inv(y.pipe) && y.pipe.dispatcher.Polling?
    && (forall k :: k in y.shards) && (forall k :: k in y.shards ==> y.shards[k] < y.count)
    && (forall k :: k in y.pipe.owner ==> Behind(y, k))
    && (y.drain.Awaiting? ==> forall w :: w in y.drain.workers ==> w in y.pipe.workers)
  }

  lemma WorkInv(y: System, step: Step)
    requires DrainInv(y) && Able(y, Work(step))
    ensures DrainInv(Act(y, Work(step)))
  {
    var y' := Act(y, Work(step));
    StepInv(y.pipe, step);
    forall k | k in y'.pipe.owner ensures Behind(y', k) {
      OwnersRemain(y.pipe, step, k);
      assert Behind(y, k);
    }
  }

  /** Without polling no key gets a worker, and none changes its worker. */
  lemma OwnersRemain(s: State, step: Step, k: int)
    requires s.dispatcher.Polling? && Can(s, step) && !step.Poll? && k in Next(s, step).owner
    ensures k in s.owner && Next(s, step).owner[k] == s.owner[k] && Next(s, step).dispatcher.Polling?
  {
  }

  /** Every step of the workers and of the drain keeps each live key ahead of the scan, or awaited. */
  lemma MoveInv(y: System, m: Move)
    requires DrainInv(y) && Able(y, m)
    ensures DrainInv(Act(y, m))
  {
    var y' := Act(y, m);
    if m.Work? {
      WorkInv(y, m.step);
    } else {
      forall k | k in y.pipe.owner ensures Behind(y', k) {
        assert Behind(y, k) && Serves(y.pipe, y.pipe.owner[k]);
      }
    }
  }

  ghost predicate Drains(y: System, moves: seq<Move>, y': System)
    requires forall k :: k in y.shards
    decreases |moves|
  {
    if moves == [] then y' == y
    else Able(y, moves[0]) && Drains(Act(y, moves[0]), moves[1..], y')
  }

  lemma {:induction false} DrainsInv(y: System, moves: seq<Move>, y': System)
    requires DrainInv(y) && Drains(y, moves, y')
    ensures DrainInv(y')
    decreases |moves|
  {
    if moves != [] {
      MoveInv(y, moves[0]);
      DrainsInv(Act(y, moves[0]), moves[1..], y');
    }
  }

  lemma NoKeys(m: map<int, nat>)
    requires forall k :: k !in m
    ensures m == map[]
  {
    SomeKey(m);
  }

  /**
    Drain completeness: when the drain returns, no worker owns a key and, unless the breaker tripped,
    every message ever dispatched was handed to the committer, per key in dispatch order.
   */
  lemma DrainComplete(s: State, before: seq<Step>, y: System, moves: seq<Move>, y': System, k: int)
    requires Init(s) && Runs(s, before, y.pipe) && y.pipe.dispatcher.Polling?
    requires y.drain == Scanning(0)
    requires (forall j :: j in y.shards) && (forall j :: j in y.shards ==> y.shards[j] < y.count)
    requires Drains(y, moves, y') && y'.drain.Drained?
    ensures y'.pipe.owner == map[]
    ensures !y'.pipe.tripped ==> OfKey(y'.pipe.finished, k) == OfKey(y'.pipe.dispatched, k)
  {
    InitInv(s);
    RunInv(s, before, y.pipe);
    DrainsInv(y, moves, y');
    forall j ensures j !in y'.pipe.owner {
      assert j in y'.pipe.owner ==> Behind(y', j);
    }
    NoKeys(y'.pipe.owner);
    assert InOrder(y'.pipe, k);
  }

  // ---- the drain can always return ----

  lemma {:induction false} DrainsConcat(y: System, a: seq<Move>, z: System, b: seq<Move>, z': System)
    requires (forall k :: k in y.shards) && (forall k :: k in z.shards) && Drains(y, a, z) && Drains(z, b, z')
    ensures Drains(y, a + b, z')
    decreases |a|
  {
    if a == [] {
      assert a + b == b;
    } else {
      DrainsConcat(Act(y, a[0]), a[1..], z, b, z');
      assert (a + b)[1..] == a[1..] + b;
    }
  }

  lemma Prepend(y: System, m: Move, rest: seq<Move>, y': System)
    requires (forall k :: k in y.shards) && Able(y, m) && Drains(Act(y, m), rest, y')
    ensures Drains(y, [m] + rest, y')
  {
    assert ([m] + rest)[1..] == rest;
  }

  /** What the worker of a live key does next: finish, receive, or retire. */
  function NextOf(s: State, w: nat): Step
    requires w in s.workers
  {
    if s.workers[w].pc.Busy? then Finish(w, true)
    else if s.workers[w].chan != [] then Receive(w)
    else Retire(w)
  }

  function WorkLeft(k: Worker): nat {
    2 * |k.chan| + if k.pc.Busy? then 1 else 0
  }

  /** With polling stopped it is always able to, and only the last of these gives up the key. */
  lemma NextOfWorks(y: System, k: int)
    requires DrainInv(y) && k in y.pipe.owner
    ensures y.pipe.owner[k] in y.pipe.workers
    ensures var w := y.pipe.owner[k];
      var step := NextOf(y.pipe, w);
      && Able(y, Work(step)) && Next(y.pipe, step).tripped == y.pipe.tripped
      && if step.Retire? then Next(y.pipe, step).owner == y.pipe.owner - {k}
         else Next(y.pipe, step).owner == y.pipe.owner && w in Next(y.pipe, step).workers
              && WorkLeft(Next(y.pipe, step).workers[w]) < WorkLeft(y.pipe.workers[w])
  {
    assert Serves(y.pipe, y.pipe.owner[k]);
  }

  /** Left to itself, the worker of `k` empties its channel and retires. */
  lemma {:induction false} RetiresKey(y: System, k: int) returns (moves: seq<Move>, y': System)
    requires DrainInv(y) && k in y.pipe.owner && y.pipe.owner[k] in y.pipe.workers
    ensures Drains(y, moves, y') && DrainInv(y') && y'.pipe.owner == y.pipe.owner - {k}
    ensures y'.pipe.tripped == y.pipe.tripped
    decreases WorkLeft(y.pipe.workers[y.pipe.owner[k]])
  {
    NextOfWorks(y, k);
    var m := Work(NextOf(y.pipe, y.pipe.owner[k]));
    MoveInv(y, m);
    if m.step.Retire? {
      moves, y' := [], Act(y, m);
    } else {
      moves, y' := RetiresKey(Act(y, m), k);
    }
    Prepend(y, m, moves, y');
    moves := [m] + moves;
  }

  lemma {:induction false} RetiresAll(y: System) returns (moves: seq<Move>, y': System)
    requires DrainInv(y)
    ensures Drains(y, moves, y') && DrainInv(y') && y'.pipe.owner == map[]
    ensures y'.pipe.tripped == y.pipe.tripped
    decreases |y.pipe.owner|
  {
    SomeKey(y.pipe.owner);
    if |y.pipe.owner| == 0 {
      moves, y' := [], y;
    } else {
      var k :| k in y.pipe.owner;
      NextOfWorks(y, k);
      var first, z := RetiresKey(y, k);
      SmallerWithout(y.pipe.owner, k);
      var rest;
      rest, y' := RetiresAll(z);
      DrainsConcat(y, first, z, rest, y');
      moves := first + rest;
    }
  }

  lemma SmallerWithout(m: map<int, nat>, k: int)
    requires k in m
    ensures |m - {k}| < |m|
  {
    assert m.Keys == (m - {k}).Keys + {k};
    assert |m.Keys| == |m| && |(m - {k}).Keys| == |m - {k}|;
  }

  // ---- the tokens come back ----

  /** Retired, and not yet back in the pool. */
  ghost function OnTheWay(s: State): set<nat> {
    set w | w in s.workers && (s.workers[w].pc.Releasing? || s.workers[w].pc.Returning?)
  }

  lemma Inhabited(ws: set<nat>)
    ensures ws == {} || exists w :: w in ws
  {
  }

  lemma OneMove(y: System, m: Move)
    requires (forall k :: k in y.shards) && Able(y, m)
    ensures Drains(y, [m], Act(y, m))
  {
    assert [m][1..] == [];
  }

  lemma ReleaseMoves(s: State, w: nat)
    requires Ledger(s) && Is(s, w, Releasing)
    ensures Can(s, ReleaseWorker(w))
    ensures var s' := Next(s, ReleaseWorker(w));
      Is(s', w, Returning) && s'.owner == s.owner && s'.tripped == s.tripped && OnTheWay(s') == OnTheWay(s)
  {
    ReleasesNeverBlock(s);
  }

  lemma PoolMoves(s: State, w: nat)
    requires Is(s, w, Returning)
    ensures var s' := Next(s, ToPool(w));
      && Is(s', w, Pooled) && s'.owner == s.owner && s'.tripped == s.tripped
      && OnTheWay(s') == OnTheWay(s) - {w}
  {
  }

  /** A worker that owes its token gives it back. */
  lemma GivesBack(y: System, w: nat) returns (moves: seq<Move>, y': System)
    requires DrainInv(y) && w in OnTheWay(y.pipe)
    ensures Drains(y, moves, y') && DrainInv(y') && y'.pipe.owner == y.pipe.owner && y'.drain == y.drain
    ensures OnTheWay(y'.pipe) == OnTheWay(y.pipe) && Is(y'.pipe, w, Returning)
    ensures y'.pipe.tripped == y.pipe.tripped
  {
    moves, y' := [], y;
    if y.pipe.workers[w].pc.Releasing? {
      var m := Work(ReleaseWorker(w));
      ReleaseMoves(y.pipe, w);
      MoveInv(y, m);
      OneMove(y, m);
      moves, y' := [m], Act(y, m);
    }
  }

  /** A worker on its way reaches the pool, giving its token back if it still owes it. */
  lemma ReachesPool(y: System, w: nat) returns (moves: seq<Move>, y': System)
    requires DrainInv(y) && w in OnTheWay(y.pipe)
    ensures Drains(y, moves, y') && DrainInv(y') && y'.pipe.owner == y.pipe.owner && y'.drain == y.drain
    ensures OnTheWay(y'.pipe) == OnTheWay(y.pipe) - {w} && Is(y'.pipe, w, Pooled)
    ensures y'.pipe.tripped == y.pipe.tripped
  {
    var first, z := GivesBack(y, w);
    var m := Work(ToPool(w));
    PoolMoves(z.pipe, w);
    MoveInv(z, m);
    OneMove(z, m);
    y' := Act(z, m);
    DrainsConcat(y, first, z, [m], y');
    moves := first + [m];
  }

  lemma {:induction false} AllReachPool(y: System) returns (moves: seq<Move>, y': System)
    requires DrainInv(y) && y.pipe.owner == map[]
    ensures Drains(y, moves, y') && DrainInv(y') && y'.pipe.owner == map[] && y'.drain == y.drain
    ensures OnTheWay(y'.pipe) == {} && y'.pipe.tripped == y.pipe.tripped
    decreases |OnTheWay(y.pipe)|
  {
    Inhabited(OnTheWay(y.pipe));
    if OnTheWay(y.pipe) == {} {
      moves, y' := [], y;
    } else {
      var w :| w in OnTheWay(y.pipe);
      var first, z := ReachesPool(y, w);
      assert |OnTheWay(z.pipe)| < |OnTheWay(y.pipe)|;
      var rest;
      rest, y' := AllReachPool(z);
      DrainsConcat(y, first, z, rest, y');
      moves := first + rest;
    }
  }

  /** With no key live and nobody on the way, both channels are empty and every worker is pooled or shut down. */
  lemma NothingOwed(s: State)
    requires Inv(s) && s.dispatcher.Polling? && s.owner == map[] && OnTheWay(s) == {}
    ensures s.guard == s.overflow == 0
    ensures forall w :: w in s.workers ==> s.workers[w].pc.Pooled? || s.workers[w].pc.Gone?
  {
    forall w | w in s.workers ensures s.workers[w].pc.Pooled? || s.workers[w].pc.Gone? {
      assert Serves(s, w) && w !in OnTheWay(s);
    }
    assert Debtors(s.workers, false) == {} && Debtors(s.workers, true) == {};
  }

  /** Shards and awaited workers still ahead of the drain. */
  function ShardsLeft(y: System): nat {
    match y.drain
    case Scanning(i) => if i < y.count then 2 * (y.count - i) + 1 else 1
    case Awaiting(i, _) => if i < y.count then 2 * (y.count - i) else 2
    case Drained => 0
  }

  function AwaitedLeft(y: System): nat {
    if y.drain.Awaiting? then |y.drain.workers| else 0
  }

  /** With no key live every awaited worker has retired, so the drain's next step is enabled. */
  lemma ScanStep(y: System) returns (m: Move)
    requires DrainInv(y) && y.pipe.owner == map[] && !y.drain.Drained?
    ensures !m.Work? && Able(y, m) && Act(y, m).pipe == y.pipe
    ensures ShardsLeft(Act(y, m)) < ShardsLeft(y) ||
            (ShardsLeft(Act(y, m)) == ShardsLeft(y) && AwaitedLeft(Act(y, m)) < AwaitedLeft(y))
  {
    if y.drain.Scanning? {
      m := if y.drain.shard < y.count then Snapshot else NextShard;
    } else {
      Inhabited(y.drain.workers);
      if y.drain.workers == {} {
        m := NextShard;
      } else {
        var w :| w in y.drain.workers;
        assert Serves(y.pipe, w);
        m := Observe(w);
      }
    }
  }

  lemma {:induction false} ScansToTheEnd(y: System) returns (moves: seq<Move>, y': System)
    requires DrainInv(y) && y.pipe.owner == map[]
    ensures Drains(y, moves, y') && y'.drain.Drained? && y'.pipe == y.pipe
    ensures forall m :: m in moves ==> !m.Work?
    decreases ShardsLeft(y), AwaitedLeft(y)
  {
    if y.drain.Drained? {
      moves, y' := [], y;
    } else {
      var m := ScanStep(y);
      MoveInv(y, m);
      moves, y' := ScansToTheEnd(Act(y, m));
      Prepend(y, m, moves, y');
      moves := [m] + moves;
    }
  }

  /**
    A drain never hangs: from every state it can be in, tripped or not, the workers' own steps and its own
    lead to its end, with no key left, every token back and every worker back in the pool or shut down, and
    without a trip of their making.
   */
  lemma DrainReturns(y: System) returns (moves: seq<Move>, y': System)
    requires DrainInv(y)
    ensures Drains(y, moves, y') && y'.drain.Drained? && y'.pipe.owner == map[]
    ensures y'.pipe.guard == y'.pipe.overflow == 0 && y'.pipe.tripped == y.pipe.tripped
    ensures forall w :: w in y'.pipe.workers ==> y'.pipe.workers[w].pc.Pooled? || y'.pipe.workers[w].pc.Gone?
  {
    var first, z := RetiresAll(y);
    var more, x := AllReachPool(z);
    DrainsConcat(y, first, z, more, x);
    NothingOwed(x.pipe);
    var rest;
    rest, y' := ScansToTheEnd(x);
    DrainsConcat(y, first + more, x, rest, y');
    moves := first + more + rest;
  }

  /** The same from the start of the process: after any run with the dispatcher idle, a drain can return. */
  lemma DrainReturnsOverRuns(s: State, before: seq<Step>, y: System, moves: seq<Move>, z: System)
      returns (rest: seq<Move>, y': System)
    requires Init(s) && Runs(s, before, y.pipe) && y.pipe.dispatcher.Polling? && y.drain == Scanning(0)
    requires (forall k :: k in y.shards) && (forall k :: k in y.shards ==> y.shards[k] < y.count)
    requires Drains(y, moves, z)
    ensures (forall k :: k in z.shards) && Drains(z, rest, y') && y'.drain.Drained?
  {
    InitInv(s);
    RunInv(s, before, y.pipe);
    DrainsInv(y, moves, z);
    rest, y' := DrainReturns(z);
  }
}
