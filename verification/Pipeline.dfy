/**
  The fan-out stage: one dispatcher, any number of workers, one worker per live key. A step is one
  critical section or one channel operation of the Go code; a run interleaves them arbitrarily. The
  shard maps are one map here, since a key always hashes to the same shard and its lock.
 */
module Pipeline {
  import opened WorkItems

  datatype Msg = Msg(id: nat, key: int, overflow: bool)

  /**
    Cold: waiting for a first message. Busy: a message received, its handler running (or skipped once
    tripped). Hot: between messages. Releasing: retired, still owing its token. Returning: on its way
    to the pool. Pooled, Gone: idle or shut down.
   */
  datatype Pc = Cold | Busy(msg: Msg, handled: bool) | Hot | Releasing | Returning | Pooled | Gone

  /**
    `key` and `overflow` are the worker's own cached variables, set by its first message. `home` is
    history: the key it was borrowed for.
   */
  datatype Worker = Worker(pc: Pc, chan: seq<Msg>, key: int, overflow: bool, active: bool, home: int)

  datatype Dispatcher =
    | Polling
    | Acquiring(msg: Msg)                // no token yet
    | Sending(msg: Msg)                  // token held, looking for the worker
    | Inserted(msg: Msg, worker: nat)    // new worker in the map, message not yet sent
    | GivingBack(overflow: bool)         // message sent (or abandoned), token to be released

  datatype State = State(
    guardCap: nat, overflowCap: nat, bufferLen: nat,
    guard: nat,                          // tokens in the guard channel
    overflow: nat,                       // this consumer's tokens in the shared overflow channel
    others: nat,                         // other consumers' tokens there
    dispatcher: Dispatcher,
    owner: map<int, nat>,                // the shard maps: key to worker
    workers: map<nat, Worker>,
    tripped: bool,
    dispatched: seq<Msg>,                // sent into some worker's channel
    taken: seq<Msg>,                     // received by a worker
    started: seq<Msg>,                   // handler calls
    finished: seq<Msg>)                  // handed to the committer

  datatype Step =
    | Poll(msg: Msg)
    | TakeGuard | TakeOverflow | GiveUp
    | SendExisting | AbandonFull | Borrow(w: nat) | SendNew | ReleaseToken
    | Receive(w: nat) | Finish(w: nat, ok: bool) | Retire(w: nat)
    | ReleaseWorker(w: nat) | ToPool(w: nat) | ShutDown(w: nat)
    | Trip | OthersMove(n: nat)

  predicate Is(s: State, w: nat, pc: Pc) {
    w in s.workers && s.workers[w].pc == pc
  }

  predicate Can(s: State, step: Step) {
    match step
    case Poll(m) => s.dispatcher.Polling?
    case TakeGuard => s.dispatcher.Acquiring? && s.guard < s.guardCap
    case TakeOverflow => s.dispatcher.Acquiring? && s.overflow + s.others < s.overflowCap
    case GiveUp => s.dispatcher.Acquiring?
    case SendExisting =>
      && s.dispatcher.Sending? && s.dispatcher.msg.key in s.owner
      && s.owner[s.dispatcher.msg.key] in s.workers
      && |s.workers[s.owner[s.dispatcher.msg.key]].chan| < s.bufferLen
    case AbandonFull =>   // a send found the channel full; since the unlock the worker may have retired
      s.dispatcher.Sending? && s.tripped
    case Borrow(w) =>
      && s.dispatcher.Sending? && s.dispatcher.msg.key !in s.owner
      && (w !in s.workers || s.workers[w].pc.Pooled?)
    case SendNew => s.dispatcher.Inserted? && s.dispatcher.worker in s.workers
    case ReleaseToken => s.dispatcher.GivingBack? && Occupied(s, s.dispatcher.overflow)
    case Receive(w) =>
      && w in s.workers && s.workers[w].chan != []
      && (s.workers[w].pc.Cold? || s.workers[w].pc.Hot?)
    case Finish(w, ok) => w in s.workers && s.workers[w].pc.Busy?
    case Retire(w) => Is(s, w, Hot) && s.workers[w].chan == []
    case ReleaseWorker(w) => Is(s, w, Releasing) && Occupied(s, s.workers[w].overflow)
    case ToPool(w) => Is(s, w, Returning)
    case ShutDown(w) => Is(s, w, Returning) || Is(s, w, Pooled)
    case Trip => true
    case OthersMove(n) => s.overflow + n <= s.overflowCap
  }

  predicate Occupied(s: State, overflow: bool) {
    if overflow then s.overflow > 0 else s.guard > 0
  }

  function Release(s: State, overflow: bool): State
    requires Occupied(s, overflow)
  {
    if overflow then s.(overflow := s.overflow - 1) else s.(guard := s.guard - 1)
  }

  function Update(s: State, w: nat, worker: Worker): State {
    s.(workers := s.workers[w := worker])
  }

  function Next(s: State, step: Step): State
    requires Can(s, step)
  {
    match step
    case Poll(m) => s.(dispatcher := Acquiring(m))
    case TakeGuard => s.(guard := s.guard + 1, dispatcher := Sending(s.dispatcher.msg.(overflow := false)))
    case TakeOverflow => s.(overflow := s.overflow + 1, dispatcher := Sending(s.dispatcher.msg.(overflow := true)))
    case GiveUp => s.(dispatcher := Polling, tripped := true)
    case SendExisting =>
      var m := s.dispatcher.msg;
      var w := s.owner[m.key];
      Update(s, w, s.workers[w].(chan := s.workers[w].chan + [m]))
      .(dispatcher := GivingBack(m.overflow), dispatched := s.dispatched + [m])
    case AbandonFull => s.(dispatcher := GivingBack(s.dispatcher.msg.overflow))
    case Borrow(w) =>
      var m := s.dispatcher.msg;
      Update(s, w, Worker(Cold, [], 0, false, true, m.key))
      .(owner := s.owner[m.key := w], dispatcher := Inserted(m, w))
    case SendNew =>
      var m, w := s.dispatcher.msg, s.dispatcher.worker;
      Update(s, w, s.workers[w].(chan := s.workers[w].chan + [m]))
      .(dispatcher := Polling, dispatched := s.dispatched + [m])
    case ReleaseToken => Release(s, s.dispatcher.overflow).(dispatcher := Polling)
    case Receive(w) =>
      var k := s.workers[w];
      var m := k.chan[0];
      var k' := if k.pc.Cold? then k.(key := m.key, overflow := m.overflow) else k;
      Update(s, w, k'.(pc := Busy(m, !s.tripped), chan := k.chan[1..]))
      .(taken := s.taken + [m], started := if s.tripped then s.started else s.started + [m])
    case Finish(w, ok) =>
      var k := s.workers[w];
      var s' := Update(s, w, k.(pc := Hot));
      if !k.pc.handled then s'
      else if ok then s'.(finished := s.finished + [k.pc.msg])
      else s'.(tripped := true)
    case Retire(w) =>
      var k := s.workers[w];
      Update(s, w, k.(pc := Releasing, active := false)).(owner := s.owner - {k.key})
    case ReleaseWorker(w) =>
      var k := s.workers[w];
      Update(Release(s, k.overflow), w, k.(pc := Returning))
    case ToPool(w) => Update(s, w, s.workers[w].(pc := Pooled))
    case ShutDown(w) => Update(s, w, s.workers[w].(pc := Gone))
    case Trip => s.(tripped := true)
    case OthersMove(n) => s.(others := n)
  }

  predicate Init(s: State) {
    && s.guard == s.overflow == 0 && s.others <= s.overflowCap && s.bufferLen >= 1
    && s.dispatcher.Polling? && s.owner == map[] && s.workers == map[]
    && s.dispatched == s.taken == s.started == s.finished == []
  }

  // ---- ownership ----

  predicate AwaitsFirst(s: State, w: nat) {
    s.dispatcher.Inserted? && s.dispatcher.worker == w
  }

  predicate Working(k: Worker) {
    k.pc.Cold? || k.pc.Busy? || k.pc.Hot?
  }

  /** A working worker serves its home key and nothing else; the others have nothing to do. */
  predicate Serves(s: State, w: nat)
    requires w in s.workers
  {
    var k := s.workers[w];
    if !Working(k) then k.chan == [] && !k.active
    else
      && k.home in s.owner && s.owner[k.home] == w && k.active
      && (forall i :: 0 <= i < |k.chan| ==> k.chan[i].key == k.home)
      && (k.pc.Cold? ==> (k.chan == [] <==> AwaitsFirst(s, w)))
      && (!k.pc.Cold? ==> k.key == k.home && !AwaitsFirst(s, w))
      && (k.pc.Busy? ==> k.pc.msg.key == k.home)
  }

  predicate Owned(s: State) {
    && (forall k :: k in s.owner ==>
          s.owner[k] in s.workers && Working(s.workers[s.owner[k]]) && s.workers[s.owner[k]].home == k)
    && (forall w :: w in s.workers ==> Serves(s, w))
    && (s.dispatcher.Inserted? ==>
          s.dispatcher.msg.key in s.owner && s.owner[s.dispatcher.msg.key] == s.dispatcher.worker)
  }

  lemma DispatchOwned(s: State, step: Step)
    requires Owned(s) && Can(s, step)
    requires step.SendExisting? || step.Borrow? || step.SendNew?
    ensures Owned(Next(s, step))
  {
    var s' := Next(s, step);
    forall w | w in s'.workers ensures Serves(s', w) {
      if w in s.workers {
        assert Serves(s, w);
      }
    }
  }

  lemma ReceiveOwned(s: State, w: nat)
    requires Owned(s) && Can(s, Receive(w))
    ensures Owned(Next(s, Receive(w)))
  {
    var s' := Next(s, Receive(w));
    assert Serves(s, w);
    assert s.workers[w].chan[0].key == s.workers[w].home;
    forall v | v in s'.workers ensures Serves(s', v) {
      assert Serves(s, v);
    }
  }

  lemma RetireOwned(s: State, w: nat)
    requires Owned(s) && Can(s, Retire(w))
    ensures Owned(Next(s, Retire(w)))
  {
    var s' := Next(s, Retire(w));
    assert Serves(s, w);
    forall v | v in s'.workers ensures Serves(s', v) {
      assert Serves(s, v);
    }
  }

  /** Only worker `w` changed, and it works where it worked before. */
  lemma LocalOwned(s: State, s': State, w: nat)
    requires Owned(s) && w in s.workers && w in s'.workers && s'.workers == s.workers[w := s'.workers[w]]
    requires s'.owner == s.owner && s'.dispatcher == s.dispatcher
    requires Working(s.workers[w]) == Working(s'.workers[w]) && s.workers[w].home == s'.workers[w].home
    requires Serves(s', w)
    ensures Owned(s')
  {
    forall v | v in s'.workers ensures Serves(s', v) {
      assert Serves(s, v);
    }
  }

  lemma OtherOwned(s: State, step: Step)
    requires Owned(s) && Can(s, step)
    requires step.Finish? || step.ReleaseWorker? || step.ToPool? || step.ShutDown?
    ensures Owned(Next(s, step))
  {
    assert Serves(s, step.w);
    LocalOwned(s, Next(s, step), step.w);
  }

  lemma StepOwned(s: State, step: Step)
    requires Owned(s) && Can(s, step)
    ensures Owned(Next(s, step))
  {
    if step.SendExisting? || step.Borrow? || step.SendNew? {
      DispatchOwned(s, step);
    } else if step.Receive? {
      ReceiveOwned(s, step.w);
    } else if step.Retire? {
      RetireOwned(s, step.w);
    } else if step.Finish? || step.ReleaseWorker? || step.ToPool? || step.ShutDown? {
      OtherOwned(s, step);
    } else {
      var s' := Next(s, step);
      forall w | w in s'.workers ensures Serves(s', w) {
        assert Serves(s, w);
      }
    }
  }

  /** A handler call for key `k` is running on worker `w`. */
  predicate Handling(s: State, w: nat, k: int) {
    w in s.workers && s.workers[w].pc.Busy? && s.workers[w].pc.msg.key == k
  }

  // ---- tokens ----

  /** The token a worker will give back when it retires. */
  function Owes(k: Worker): Option<bool> {
    match k.pc
    case Cold => if k.chan == [] then None else Some(k.chan[0].overflow)
    case Busy(_, _) => Some(k.overflow)
    case Hot => Some(k.overflow)
    case Releasing => Some(k.overflow)
    case _ => None
  }

  /** The token the dispatcher holds. */
  function Holds(d: Dispatcher): Option<bool> {
    match d
    case Sending(m) => Some(m.overflow)
    case Inserted(m, _) => Some(m.overflow)
    case GivingBack(o) => Some(o)
    case _ => None
  }

  ghost function Debtors(workers: map<nat, Worker>, overflow: bool): set<nat> {
    set w | w in workers && Owes(workers[w]) == Some(overflow)
  }

  function Held(d: Dispatcher, overflow: bool): nat {
    if Holds(d) == Some(overflow) then 1 else 0
  }

  /** Every token in a channel is the dispatcher's or owed by exactly one worker. */
  ghost predicate Ledger(s: State) {
    && s.guard == |Debtors(s.workers, false)| + Held(s.dispatcher, false) <= s.guardCap
    && s.overflow == |Debtors(s.workers, true)| + Held(s.dispatcher, true)
    && s.overflow + s.others <= s.overflowCap
  }

  function Owing(k: Worker, overflow: bool): nat {
    if Owes(k) == Some(overflow) then 1 else 0
  }

  lemma DebtorsChange(workers: map<nat, Worker>, w: nat, k: Worker, overflow: bool)
    ensures |Debtors(workers[w := k], overflow)| ==
            |Debtors(workers, overflow)| - (if w in workers then Owing(workers[w], overflow) else 0)
            + Owing(k, overflow)
  {
    DebtorsElsewhere(workers, w, k, overflow);
    SizeWithout(Debtors(workers, overflow), w);
    SizeWithout(Debtors(workers[w := k], overflow), w);
  }

  lemma DebtorsElsewhere(workers: map<nat, Worker>, w: nat, k: Worker, overflow: bool)
    ensures Debtors(workers, overflow) - {w} == Debtors(workers[w := k], overflow) - {w}
    ensures w in Debtors(workers, overflow) <==> w in workers && Owes(workers[w]) == Some(overflow)
    ensures w in Debtors(workers[w := k], overflow) <==> Owes(k) == Some(overflow)
  {
  }

  lemma SizeWithout(ws: set<nat>, w: nat)
    ensures |ws - {w}| == |ws| - if w in ws then 1 else 0
  {
  }

  function OwingBefore(s: State, w: nat, overflow: bool): nat {
    if w in s.workers then Owing(s.workers[w], overflow) else 0
  }

  /** One worker and the dispatcher changed, and the channels changed by what their debts changed. */
  lemma TokensMove(s: State, s': State, w: nat)
    requires Ledger(s) && w in s'.workers && s'.workers == s.workers[w := s'.workers[w]]
    requires s'.guard - s.guard ==
             Owing(s'.workers[w], false) - OwingBefore(s, w, false)
             + Held(s'.dispatcher, false) - Held(s.dispatcher, false)
    requires s'.overflow - s.overflow ==
             Owing(s'.workers[w], true) - OwingBefore(s, w, true) + Held(s'.dispatcher, true) - Held(s.dispatcher, true)
    requires s'.guard <= s.guard && s'.overflow <= s.overflow && s'.others == s.others
    requires s'.guardCap == s.guardCap && s'.overflowCap == s.overflowCap
    ensures Ledger(s')
  {
    DebtorsChange(s.workers, w, s'.workers[w], false);
    DebtorsChange(s.workers, w, s'.workers[w], true);
  }

  lemma DispatchLedger(s: State, step: Step)
    requires Owned(s) && Ledger(s) && Can(s, step)
    requires step.SendExisting? || step.Borrow? || step.SendNew?
    ensures Ledger(Next(s, step))
  {
    var s' := Next(s, step);
    var w := if step.Borrow? then step.w else s.owner[s.dispatcher.msg.key];
    if w in s.workers {
      assert Serves(s, w);
    }
    TokensMove(s, s', w);
  }

  lemma ReceiveLedger(s: State, w: nat)
    requires Owned(s) && Ledger(s) && Can(s, Receive(w))
    ensures Ledger(Next(s, Receive(w)))
  {
    assert Serves(s, w);
    TokensMove(s, Next(s, Receive(w)), w);
  }

  lemma ReleaseLedger(s: State, w: nat)
    requires Ledger(s) && Can(s, ReleaseWorker(w))
    ensures Ledger(Next(s, ReleaseWorker(w)))
  {
    TokensMove(s, Next(s, ReleaseWorker(w)), w);
  }

  lemma WorkerLedger(s: State, step: Step)
    requires Ledger(s) && Can(s, step)
    requires step.Finish? || step.Retire? || step.ToPool? || step.ShutDown?
    ensures Ledger(Next(s, step))
  {
    TokensMove(s, Next(s, step), step.w);
  }

  lemma StepLedger(s: State, step: Step)
    requires Owned(s) && Ledger(s) && Can(s, step)
    ensures Ledger(Next(s, step))
  {
    if step.SendExisting? || step.Borrow? || step.SendNew? {
      DispatchLedger(s, step);
    } else if step.Receive? {
      ReceiveLedger(s, step.w);
    } else if step.ReleaseWorker? {
      ReleaseLedger(s, step.w);
    } else if step.Finish? || step.Retire? || step.ToPool? || step.ShutDown? {
      WorkerLedger(s, step);
    }
  }

  /** No release ever blocks: whoever is about to give a token back finds one in its channel. */
  lemma ReleasesNeverBlock(s: State)
    requires Ledger(s)
    ensures s.dispatcher.GivingBack? ==> Can(s, ReleaseToken)
    ensures forall w :: Is(s, w, Releasing) ==> Can(s, ReleaseWorker(w))
  {
    forall w | Is(s, w, Releasing) ensures Can(s, ReleaseWorker(w)) {
      assert w in Debtors(s.workers, s.workers[w].overflow);
      assert Debtors(s.workers, s.workers[w].overflow) != {};
    }
  }

  // ---- per-key order ----

  function OfKey(ms: seq<Msg>, k: int): seq<Msg> {
    if ms == [] then []
    else
      var init := OfKey(ms[..|ms| - 1], k);
      if ms[|ms| - 1].key == k then init + [ms[|ms| - 1]] else init
  }

  lemma OfKeySnoc(ms: seq<Msg>, m: Msg, k: int)
    ensures OfKey(ms + [m], k) == if m.key == k then OfKey(ms, k) + [m] else OfKey(ms, k)
  {
    assert (ms + [m])[..|ms|] == ms;
  }

  /** Sent for `k` and not yet received. */
  function Pending(s: State, k: int): seq<Msg> {
    if k in s.owner && s.owner[k] in s.workers then s.workers[s.owner[k]].chan else []
  }

  /** The message for `k` whose handler is running. */
  function InHand(s: State, k: int): seq<Msg> {
    if k in s.owner && s.owner[k] in s.workers && s.workers[s.owner[k]].pc.Busy?
    then [s.workers[s.owner[k]].pc.msg] else []
  }

  /** Everything sent for `k` is received or pending, in order; until a trip it is also finished in order. */
  predicate InOrder(s: State, k: int) {
    && OfKey(s.dispatched, k) == OfKey(s.taken, k) + Pending(s, k)
    && (!s.tripped ==> OfKey(s.taken, k) == OfKey(s.finished, k) + InHand(s, k))
  }

  ghost predicate Ordered(s: State) {
    && (forall k :: InOrder(s, k))
    && s.started <= s.taken && (!s.tripped ==> s.started == s.taken)
    && (!s.tripped ==> forall w :: w in s.workers && s.workers[w].pc.Busy? ==> s.workers[w].pc.handled)
  }

  /** A send appends to the channel of its key's worker, and no handler starts or ends. */
  lemma SendMoves(s: State, step: Step, k: int)
    requires Owned(s) && Can(s, step) && (step.SendExisting? || step.SendNew?)
    ensures var s' := Next(s, step);
      && InHand(s', k) == InHand(s, k)
      && Pending(s', k) == if s.dispatcher.msg.key == k then Pending(s, k) + [s.dispatcher.msg] else Pending(s, k)
  {
    if k in s.owner {
      assert s.workers[s.owner[k]].home == k;
    }
  }

  /** Sending a message behind what is pending keeps the order. */
  lemma TailSent(s: State, t: State, m: Msg, k: int)
    requires InOrder(s, k) && t.taken == s.taken && t.finished == s.finished && t.tripped == s.tripped
    requires OfKey(t.dispatched, k) == if m.key == k then OfKey(s.dispatched, k) + [m] else OfKey(s.dispatched, k)
    requires InHand(t, k) == InHand(s, k)
    requires Pending(t, k) == if m.key == k then Pending(s, k) + [m] else Pending(s, k)
    ensures InOrder(t, k)
  {
    if m.key == k {
      assert OfKey(s.taken, k) + (Pending(s, k) + [m]) == (OfKey(s.taken, k) + Pending(s, k)) + [m];
    }
  }

  lemma SendOrder(s: State, step: Step, k: int)
    requires Owned(s) && InOrder(s, k) && Can(s, step) && (step.SendExisting? || step.SendNew?)
    ensures InOrder(Next(s, step), k)
  {
    SendMoves(s, step, k);
    OfKeySnoc(s.dispatched, s.dispatcher.msg, k);
    TailSent(s, Next(s, step), s.dispatcher.msg, k);
  }

  /** A worker borrowed for a key that had none brings nothing along. */
  lemma BorrowOrder(s: State, w: nat, k: int)
    requires Owned(s) && InOrder(s, k) && Can(s, Borrow(w))
    ensures InOrder(Next(s, Borrow(w)), k)
  {
    if w in s.workers {
      assert Serves(s, w);
    }
    if k in s.owner {
      assert Working(s.workers[s.owner[k]]);
    }
  }

  /** A receive moves the head of one channel into that worker's hand. */
  lemma ReceiveMoves(s: State, w: nat, k: int)
    requires Owned(s) && Can(s, Receive(w))
    ensures var s' := Next(s, Receive(w));
      var m := s.workers[w].chan[0];
      && m.key == s.workers[w].home
      && (m.key == k ==> InHand(s, k) == [] && InHand(s', k) == [m] && Pending(s, k) == [m] + Pending(s', k))
      && (m.key != k ==> InHand(s', k) == InHand(s, k) && Pending(s', k) == Pending(s, k))
  {
    assert Serves(s, w);
    assert s.workers[w].chan[0].key == s.workers[w].home;
    if k in s.owner {
      assert s.workers[s.owner[k]].home == k;
    }
  }

  /** Moving the head of what is pending into the hand keeps the order. */
  lemma HeadTaken(s: State, t: State, m: Msg, k: int)
    requires InOrder(s, k) && t.dispatched == s.dispatched && t.finished == s.finished && t.tripped == s.tripped
    requires OfKey(t.taken, k) == if m.key == k then OfKey(s.taken, k) + [m] else OfKey(s.taken, k)
    requires m.key == k ==> InHand(s, k) == [] && InHand(t, k) == [m] && Pending(s, k) == [m] + Pending(t, k)
    requires m.key != k ==> InHand(t, k) == InHand(s, k) && Pending(t, k) == Pending(s, k)
    ensures InOrder(t, k)
  {
    if m.key == k {
      assert OfKey(s.taken, k) + ([m] + Pending(t, k)) == (OfKey(s.taken, k) + [m]) + Pending(t, k);
    }
  }

  lemma ReceiveOrder(s: State, w: nat, k: int)
    requires Owned(s) && InOrder(s, k) && Can(s, Receive(w))
    ensures InOrder(Next(s, Receive(w)), k)
  {
    var m := s.workers[w].chan[0];
    ReceiveMoves(s, w, k);
    OfKeySnoc(s.taken, m, k);
    HeadTaken(s, Next(s, Receive(w)), m, k);
  }

  lemma FinishOrder(s: State, w: nat, ok: bool, k: int)
    requires Owned(s) && InOrder(s, k) && Can(s, Finish(w, ok))
    requires !s.tripped ==> s.workers[w].pc.handled
    ensures InOrder(Next(s, Finish(w, ok)), k)
  {
    var m := s.workers[w].pc.msg;
    var s' := Next(s, Finish(w, ok));
    assert Serves(s, w) && m.key == s.workers[w].home;
    assert Pending(s', k) == Pending(s, k);
    if k == m.key {
      assert s.owner[k] == w && InHand(s, k) == [m] && InHand(s', k) == [];
    } else if k in s.owner {
      assert s.workers[s.owner[k]].home == k;
      assert InHand(s', k) == InHand(s, k);
    }
    OfKeySnoc(s.finished, m, k);
  }

  /** Retiring and what follows it touch nothing pending and nothing in hand. */
  lemma OtherMoves(s: State, step: Step, k: int)
    requires Owned(s) && Can(s, step)
    requires step.Retire? || step.ReleaseWorker? || step.ToPool? || step.ShutDown?
    ensures Pending(Next(s, step), k) == Pending(s, k) && InHand(Next(s, step), k) == InHand(s, k)
  {
    assert Serves(s, step.w);
    if k in s.owner {
      assert s.workers[s.owner[k]].home == k && Serves(s, s.owner[k]);
    }
  }

  lemma SameOrder(s: State, t: State, k: int)
    requires InOrder(s, k) && t.dispatched == s.dispatched && t.taken == s.taken && t.finished == s.finished
    requires t.tripped == s.tripped && Pending(t, k) == Pending(s, k) && InHand(t, k) == InHand(s, k)
    ensures InOrder(t, k)
  {
  }

  lemma OtherOrder(s: State, step: Step, k: int)
    requires Owned(s) && InOrder(s, k) && Can(s, step)
    requires step.Retire? || step.ReleaseWorker? || step.ToPool? || step.ShutDown?
    ensures InOrder(Next(s, step), k)
  {
    OtherMoves(s, step, k);
    SameOrder(s, Next(s, step), k);
  }

  lemma StepOrder(s: State, step: Step, k: int)
    requires Owned(s) && Ordered(s) && Can(s, step)
    ensures InOrder(Next(s, step), k)
  {
    assert InOrder(s, k);
    match step
    case SendExisting => SendOrder(s, step, k);
    case Borrow(w) => BorrowOrder(s, w, k);
    case SendNew => SendOrder(s, step, k);
    case Receive(w) => ReceiveOrder(s, w, k);
    case Finish(w, ok) => FinishOrder(s, w, ok, k);
    case Retire(w) => OtherOrder(s, step, k);
    case ReleaseWorker(w) => OtherOrder(s, step, k);
    case ToPool(w) => OtherOrder(s, step, k);
    case ShutDown(w) => OtherOrder(s, step, k);
    case _ =>
  }

  lemma StepOrdered(s: State, step: Step)
    requires Owned(s) && Ordered(s) && Can(s, step)
    ensures Ordered(Next(s, step))
  {
    forall k ensures InOrder(Next(s, step), k) {
      StepOrder(s, step, k);
    }
  }

  // ---- channels ----

  /** No channel holds more than its buffer. */
  predicate Bounded(s: State) {
    s.bufferLen >= 1 && forall w :: w in s.workers ==> |s.workers[w].chan| <= s.bufferLen
  }

  lemma StepBounded(s: State, step: Step)
    requires Owned(s) && Bounded(s) && Can(s, step)
    ensures Bounded(Next(s, step))
  {
    if step.SendNew? {
      assert Serves(s, s.dispatcher.worker);
    }
  }

  // ---- only what was handled is handed over ----

  /** The worker of `k` runs a handler, and `m` is its message. */
  predicate Handles(s: State, k: int, m: Msg) {
    && k in s.owner && s.owner[k] in s.workers
    && s.workers[s.owner[k]].pc == Busy(m, true)
  }

  /** Tripped or not, what was handed over for `k` was handled, in that order; a running handler is the next. */
  ghost predicate Answers(s: State, k: int) {
    && OfKey(s.finished, k) <= OfKey(s.started, k)
    && (forall m :: Handles(s, k, m) ==> OfKey(s.started, k) == OfKey(s.finished, k) + [m])
  }

  ghost predicate Handled(s: State) {
    forall k :: Answers(s, k)
  }

  lemma ReceiveAnswers(s: State, w: nat, k: int)
    requires Owned(s) && Ordered(s) && Answers(s, k) && Can(s, Receive(w))
    ensures Answers(Next(s, Receive(w)), k)
  {
    var m := s.workers[w].chan[0];
    assert Serves(s, w) && InOrder(s, k);
    ReceiveMoves(s, w, k);
    OfKeySnoc(s.started, m, k);
    if k in s.owner {
      assert s.workers[s.owner[k]].home == k;
    }
  }

  lemma FinishAnswers(s: State, w: nat, ok: bool, k: int)
    requires Owned(s) && Answers(s, k) && Can(s, Finish(w, ok))
    ensures Answers(Next(s, Finish(w, ok)), k)
  {
    var m := s.workers[w].pc.msg;
    assert Serves(s, w);
    OfKeySnoc(s.finished, m, k);
    if s.workers[w].pc.handled {
      assert Handles(s, m.key, m);
    }
    if k in s.owner {
      assert s.workers[s.owner[k]].home == k;
    }
  }

  /** No handler starts or ends, so none runs that did not run before. */
  lemma OtherAnswers(s: State, step: Step, k: int)
    requires Owned(s) && Answers(s, k) && Can(s, step) && !step.Receive? && !step.Finish?
    ensures Answers(Next(s, step), k)
  {
    var s' := Next(s, step);
    forall m | Handles(s', k, m) ensures Handles(s, k, m) {
      if step.Borrow? && step.w in s.workers {
        assert Serves(s, step.w);
      }
    }
  }

  lemma StepHandled(s: State, step: Step)
    requires Owned(s) && Ordered(s) && Handled(s) && Can(s, step)
    ensures Handled(Next(s, step))
  {
    forall k ensures Answers(Next(s, step), k) {
      assert Answers(s, k);
      if step.Receive? {
        ReceiveAnswers(s, step.w, k);
      } else if step.Finish? {
        FinishAnswers(s, step.w, step.ok, k);
      } else {
        OtherAnswers(s, step, k);
      }
    }
  }

  ghost predicate Inv(s: State) {
    Owned(s) && Ledger(s) && Bounded(s) && Ordered(s) && Handled(s)
  }

  lemma StepInv(s: State, step: Step)
    requires Inv(s) && Can(s, step)
    ensures Inv(Next(s, step))
  {
    StepOwned(s, step);
    StepLedger(s, step);
    StepBounded(s, step);
    StepOrdered(s, step);
    StepHandled(s, step);
  }

  lemma InitInv(s: State)
    requires Init(s)
    ensures Inv(s)
  {
    assert Debtors(s.workers, false) == {} && Debtors(s.workers, true) == {};
  }

  ghost predicate Runs(s: State, steps: seq<Step>, s': State)
    decreases |steps|
  {
    if steps == [] then s' == s
    else Can(s, steps[0]) && Runs(Next(s, steps[0]), steps[1..], s')
  }

  lemma {:induction false} RunInv(s: State, steps: seq<Step>, s': State)
    requires Inv(s) && Runs(s, steps, s')
    ensures Inv(s')
    decreases |steps|
  {
    if steps != [] {
      StepInv(s, steps[0]);
      RunInv(Next(s, steps[0]), steps[1..], s');
    }
  }

  lemma {:induction false} OfKeyPrefix(a: seq<Msg>, b: seq<Msg>, k: int)
    requires a <= b
    ensures OfKey(a, k) <= OfKey(b, k)
  {
    if a != b {
      var init := b[..|b| - 1];
      assert a <= init;
      OfKeyPrefix(a, init, k);
    }
  }

  /**
    Per-key order and exclusion, over every interleaving: the handler calls for a key are a prefix of
    what was dispatched for it, and no two handlers of one key run at once.
   */
  lemma PerKeyOrder(s: State, steps: seq<Step>, s': State, k: int)
    requires Init(s) && Runs(s, steps, s')
    ensures OfKey(s'.started, k) <= OfKey(s'.dispatched, k)
    ensures forall v, w :: Handling(s', v, k) && Handling(s', w, k) ==> v == w
  {
    InitInv(s);
    RunInv(s, steps, s');
    OfKeyPrefix(s'.started, s'.taken, k);
    assert InOrder(s', k);
    forall v, w | Handling(s', v, k) && Handling(s', w, k) ensures v == w {
      assert Serves(s', v) && Serves(s', w);
    }
  }

  lemma {:induction false} OfKeyMembers(ms: seq<Msg>, m: Msg)
    ensures m in ms <==> m in OfKey(ms, m.key)
  {
    if ms != [] {
      OfKeyMembers(ms[..|ms| - 1], m);
      assert ms == ms[..|ms| - 1] + [ms[|ms| - 1]];
    }
  }

  /** A message handed over was handled, and so is, or is being, the message of a worker that runs its handler. */
  lemma FinishedWasStarted(s: State, m: Msg)
    requires Handled(s)
    ensures m in s.finished || Handles(s, m.key, m) ==> m in s.started
  {
    assert Answers(s, m.key);
    OfKeyMembers(s.finished, m);
    OfKeyMembers(s.started, m);
    if Handles(s, m.key, m) {
      assert m in OfKey(s.finished, m.key) + [m];
    }
  }

  /**
    Over every interleaving, trips included: nothing reaches the committer whose handler did not run, and
    per key what does is a prefix of the handler calls.
   */
  lemma OnlyHandledIsHandedOver(s: State, steps: seq<Step>, s': State, k: int)
    requires Init(s) && Runs(s, steps, s')
    ensures OfKey(s'.finished, k) <= OfKey(s'.started, k)
    ensures forall m :: m in s'.finished ==> m in s'.started
    ensures forall w :: w in s'.workers && s'.workers[w].pc.Busy? && s'.workers[w].pc.handled ==>
                          s'.workers[w].pc.msg in s'.started
  {
    InitInv(s);
    RunInv(s, steps, s');
    assert Answers(s', k);
    forall m | m in s'.finished ensures m in s'.started {
      FinishedWasStarted(s', m);
    }
    forall w | w in s'.workers && s'.workers[w].pc.Busy? && s'.workers[w].pc.handled
      ensures s'.workers[w].pc.msg in s'.started
    {
      assert Serves(s', w);
      FinishedWasStarted(s', s'.workers[w].pc.msg);
    }
  }

  lemma {:induction false} InjectiveSize(m: map<int, nat>, into: set<nat>)
    requires forall k :: k in m ==> m[k] in into
    requires forall j, k :: j in m && k in m && m[j] == m[k] ==> j == k
    ensures |m| <= |into|
    decreases |m|
  {
    if |m| > 0 {
      SomeKey(m);
      var k :| k in m;
      var rest := m - {k};
      assert m.Keys == rest.Keys + {k};
      assert |m.Keys| == |m| && |rest.Keys| == |rest|;
      InjectiveSize(rest, into - {m[k]});
    }
  }

  lemma SomeKey(m: map<int, nat>)
    ensures |m| == 0 || exists k :: k in m
  {
    if forall k :: k !in m {
      assert m == map[];
    }
  }

  /**
    The token ledger, over every interleaving: each channel holds exactly the dispatcher's token plus
    one per worker that has not released its own, so no release blocks, nothing leaks on the abandoned
    send, and live keys never exceed the combined capacity.
   */
  lemma TokenLedger(s: State, steps: seq<Step>, s': State)
    requires Init(s) && Runs(s, steps, s')
    ensures Ledger(s')
    ensures s'.dispatcher.GivingBack? ==> Can(s', ReleaseToken)
    ensures forall w :: Is(s', w, Releasing) ==> Can(s', ReleaseWorker(w))
    ensures |s'.owner| <= s'.guard + s'.overflow <= s'.guardCap + s'.overflowCap
  {
    InitInv(s);
    RunInv(s, steps, s');
    ReleasesNeverBlock(s');
    LiveKeysBounded(s');
  }

  /** A send never blocks: a worker's channel has room when it is sent to, and never holds more than its buffer. */
  lemma SendsNeverBlock(s: State, steps: seq<Step>, s': State, step: Step)
    requires Init(s) && Runs(s, steps, s') && Can(s', step) && (step.SendExisting? || step.SendNew?)
    ensures s'.dispatcher.msg.key in s'.owner && s'.owner[s'.dispatcher.msg.key] in s'.workers
    ensures |s'.workers[s'.owner[s'.dispatcher.msg.key]].chan| < s'.bufferLen
    ensures forall w :: w in s'.workers ==> |s'.workers[w].chan| <= s'.bufferLen
  {
    InitInv(s);
    RunInv(s, steps, s');
    if step.SendNew? {
      assert Serves(s', s'.dispatcher.worker);
    }
  }

  lemma LiveKeysBounded(s: State)
    requires Owned(s) && Ledger(s)
    ensures |s.owner| <= s.guard + s.overflow
  {
    var a, b := Debtors(s.workers, false), Debtors(s.workers, true);
    var c := if s.dispatcher.Inserted? then {s.dispatcher.worker} else {};
    forall k | k in s.owner ensures s.owner[k] in a + b + c {
      assert Serves(s, s.owner[k]);
    }
    InjectiveSize(s.owner, a + b + c);
    assert |a + b + c| <= |a| + |b| + |c|;
  }
}
