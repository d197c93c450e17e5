/**
  Work-item conservation over every run of a tracker: each arrival is returned once, still held, or
  dropped as a duplicate, and no more is dropped than arrived as a duplicate.
 */
module Conservation {
  import opened WorkItems
  import opened GapOrder
  import opened PartitionTracker

  datatype Op =
    | Arrival(item: Item)
    | Flushing(sorted: seq<Item>)
    | Collecting
    | Acknowledging
    | Discarding
    | Resetting(baseline: int)
    | Revoking

  predicate Enabled(t: Tracker, op: Op) {
    match op
    case Flushing(sorted) => Arranged(t.gap, sorted)
    case Acknowledging => t.ready.Some?
    case _ => true
  }

  function Apply(t: Tracker, op: Op): Tracker
    requires Enabled(t, op)
  {
    match op
    case Arrival(w) => Arrive(t, w)
    case Flushing(sorted) => Flush(t, sorted)
    case Collecting => Collect(t)
    case Acknowledging => Acknowledge(t)
    case Discarding => Discard(t)
    case Resetting(b) => Reset(t, b)
    case Revoking => MarkRevoked(t)
  }

  /** `ops` take `t` to `u`. */
  ghost predicate Replays(t: Tracker, ops: seq<Op>, u: Tracker)
    decreases |ops|
  {
    if ops == [] then u == t
    else Enabled(t, ops[0]) && Replays(Apply(t, ops[0]), ops[1..], u)
  }

  function Arrivals(ops: seq<Op>): seq<Item> {
    if ops == [] then []
    else (if ops[0].Arrival? then [ops[0].item] else []) + Arrivals(ops[1..])
  }

  /** The items with a regular fate: returned to the collector, or still held. */
  ghost function Survivors(t: Tracker): multiset<Item> {
    multiset(t.returned) + multiset(t.gap) + if t.ready.Some? then multiset{t.ready.value} else multiset{}
  }

  ghost function Account(t: Tracker): multiset<Item> {
    Survivors(t) + multiset(t.dropped)
  }

  /** Every dropped item has a surviving twin. */
  ghost predicate TwinsSurvive(t: Tracker) {
    forall g :: g in t.dropped ==> exists k :: k in Survivors(t) && k.offset == g.offset
  }

  ghost predicate Unique(m: multiset<Item>) {
    forall g :: g in m ==> m[g] == 1
  }

  lemma {:induction false} WalkSurvivors(t: Tracker, buffer: seq<Item>)
    ensures Survivors(Walk(t, buffer)) == Survivors(t.(gap := buffer))
    decreases |buffer|
  {
    if buffer != [] && Passes(t, buffer[0]) {
      var g := buffer[0];
      assert buffer == [g] + buffer[1..];
      WalkSurvivors(Take(t, g), buffer[1..]);
    }
  }

  lemma FlushAccount(t: Tracker, sorted: seq<Item>)
    requires Arranged(t.gap, sorted)
    ensures Account(Flush(t, sorted)) == Account(t)
  {
    if t.flag && t.gap != [] {
      var s := t.(flag := false, dropped := t.dropped + Dropped(sorted));
      WalkSurvivors(s, Compact(sorted));
      WalkKeeps(s, Compact(sorted));
      CompactSplits(sorted);
    }
  }

  lemma FlushTwins(t: Tracker, sorted: seq<Item>)
    requires Arranged(t.gap, sorted) && TwinsSurvive(t)
    ensures TwinsSurvive(Flush(t, sorted))
  {
    if t.flag && t.gap != [] {
      var s := t.(flag := false, dropped := t.dropped + Dropped(sorted));
      var u := Flush(t, sorted);
      WalkSurvivors(s, Compact(sorted));
      WalkKeeps(s, Compact(sorted));
      forall g | g in u.dropped ensures exists k :: k in Survivors(u) && k.offset == g.offset {
        if g in t.dropped {
          var k :| k in Survivors(t) && k.offset == g.offset;
          SurvivorRepresented(t, s, sorted, k);
        } else {
          DroppedWasSorted(sorted, g);
          SurvivorRepresented(t, s, sorted, g);
        }
      }
    }
  }

  lemma DroppedWasSorted(sorted: seq<Item>, g: Item)
    requires g in Dropped(sorted)
    ensures g in sorted
  {
    CompactSplits(sorted);
    assert g in multiset(Dropped(sorted));
    assert g in multiset(sorted);
  }

  /** Compaction replaces a buffered item by one of the same offset. */
  lemma SurvivorRepresented(t: Tracker, s: Tracker, sorted: seq<Item>, k: Item)
    requires Arranged(t.gap, sorted) && s.returned == t.returned && s.ready == t.ready
    requires k in Survivors(t) || k in sorted
    ensures exists h :: h in Survivors(s.(gap := Compact(sorted))) && h.offset == k.offset
  {
    var after := Survivors(s.(gap := Compact(sorted)));
    ArrangedMembers(t.gap, sorted);
    if k in sorted {
      var i :| 0 <= i < |sorted| && sorted[i] == k;
      CompactKeepsLatest(sorted, i);
      var h :| h in Compact(sorted) && h.offset == k.offset && h.readTime >= k.readTime;
      assert h in multiset(Compact(sorted));
      assert h in after;
    } else {
      assert k !in multiset(t.gap);
      assert k in after;
    }
  }

  lemma CountSnoc(s: seq<Item>, g: Item, x: Item)
    ensures multiset(s + [g])[x] == multiset(s)[x] + if g == x then 1 else 0
  {
  }

  lemma {:induction false} RepairSplits(gap: seq<Item>, s: Item, x: Item)
    ensures multiset(Below(gap, s.offset))[x] + multiset(Above(gap, s))[x] + (if x == s then multiset(gap)[s] else 0)
            == multiset(gap)[x]
  {
    if gap != [] {
      var init, g := gap[..|gap| - 1], gap[|gap| - 1];
      RepairSplits(init, s, x);
      assert multiset(gap)[x] == multiset(init)[x] + (if g == x then 1 else 0) by {
        assert gap == init + [g];
        CountSnoc(init, g, x);
      }
      if g.offset < s.offset {
        CountSnoc(Below(init, s.offset), g, x);
        assert Above(gap, s) == Above(init, s) + [];
      } else if g != s {
        CountSnoc(Above(init, s), g, x);
        assert Below(gap, s.offset) == Below(init, s.offset) + [];
      } else {
        assert Above(gap, s) == Above(init, s) + [] && Below(gap, s.offset) == Below(init, s.offset) + [];
      }
    }
  }

  lemma RepairRearranges(gap: seq<Item>, s: Item)
    requires multiset(gap)[s] == 1
    ensures multiset(Below(gap, s.offset)) + multiset(Above(gap, s)) + multiset{s} == multiset(gap)
  {
    var parts := multiset(Below(gap, s.offset)) + multiset(Above(gap, s)) + multiset{s};
    forall x ensures parts[x] == multiset(gap)[x] {
      RepairSplits(gap, s, x);
    }
  }

  lemma RepairSurvivors(t: Tracker)
    requires Unique(Account(t))
    ensures Survivors(Repair(t)) == Survivors(t) && Repair(t).dropped == t.dropped
  {
    SuccessorProvable(t.gap, t.cpo, t.last);
    var s := Successor(t.gap, t.cpo, t.last);
    if Stalled(t) && s.Some? {
      OnceInGap(t, s.value);
      RepairRearranges(t.gap, s.value);
    }
  }

  lemma OnceInGap(t: Tracker, s: Item)
    requires Unique(Account(t)) && s in t.gap
    ensures multiset(t.gap)[s] == 1
  {
    assert s in multiset(t.gap) && s in Account(t);
  }

  lemma ConsumeSurvivors(t: Tracker)
    requires t.ready.Some?
    ensures Survivors(Consume(t)) == Survivors(t) && Consume(t).dropped == t.dropped
  {
  }

  /** What the tick does with a stale Ready. */
  function WithoutStale(r: Tracker): Tracker {
    if r.ready.Some? && r.ready.value.offset < r.cpo then Consume(r) else r
  }

  lemma StaleSurvivors(r: Tracker)
    ensures Survivors(WithoutStale(r)) == Survivors(r) && WithoutStale(r).dropped == r.dropped
  {
    if r.ready.Some? {
      ConsumeSurvivors(r);
    }
  }

  lemma CollectSurvivors(t: Tracker)
    requires Unique(Account(t))
    ensures Survivors(Collect(t)) == Survivors(t) && Collect(t).dropped == t.dropped
  {
    if t.ready.None? {
      RepairSurvivors(t);
      StaleSurvivors(Repair(t));
      assert Collect(t) == WithoutStale(Repair(t));
    } else {
      StaleSurvivors(t);
      assert Collect(t) == WithoutStale(t);
    }
  }

  lemma ReturnSurvivors(t: Tracker, w: Item)
    ensures Survivors(Return(t, w)) == Survivors(t) + multiset{w}
  {
  }

  lemma BufferSurvivors(t: Tracker, w: Item, flag: bool)
    ensures Survivors(t.(gap := t.gap + [w], flag := flag)) == Survivors(t) + multiset{w}
  {
  }

  lemma PromoteSurvivors(t: Tracker, w: Item)
    ensures t.ready.None? ==> Survivors(Promote(t, w)) == Survivors(t) + multiset{w}
    ensures t.ready.Some? ==> Survivors(Promote(Return(t, t.ready.value), w)) == Survivors(t) + multiset{w}
  {
  }

  lemma AdvanceSurvivors(t: Tracker, w: Item)
    ensures Survivors(Advance(t, w)) == Survivors(t) + multiset{w} && Advance(t, w).dropped == t.dropped
  {
    var u := Advance(t, w);
    if u == Return(t, w) {
      ReturnSurvivors(t, w);
    } else if u.gap == t.gap {
      PromoteSurvivors(t, w);
    } else {
      assert u == t.(gap := t.gap + [w], flag := u.flag);
      BufferSurvivors(t, w, u.flag);
    }
  }

  lemma ArriveSurvivors(t: Tracker, w: Item)
    ensures Survivors(Arrive(t, w)) == Survivors(t) + multiset{w} && Arrive(t, w).dropped == t.dropped
  {
    AdvanceSurvivors(RaiseBaseline(t, w), w);
  }

  lemma DiscardSurvivors(t: Tracker)
    ensures Survivors(Discard(t)) == Survivors(t) && Discard(t).dropped == t.dropped
  {
  }

  lemma StaleReadySurvivors(t: Tracker, b: int)
    ensures Survivors(DropStaleReady(t, b)) == Survivors(t) && DropStaleReady(t, b).dropped == t.dropped
  {
  }

  lemma ClosedEpochSurvivors(t: Tracker)
    ensures Survivors(DropClosedEpoch(t)) == Survivors(t) && DropClosedEpoch(t).dropped == t.dropped
  {
  }

  lemma ResetSurvivors(t: Tracker, b: int)
    ensures Survivors(Reset(t, b)) == Survivors(t) && Reset(t, b).dropped == t.dropped
  {
    StaleReadySurvivors(t, b);
    ClosedEpochSurvivors(DropStaleReady(t, b));
  }

  /** Every operation except a flush leaves `dropped` alone and adds exactly its arrival. */
  lemma StepSurvivors(t: Tracker, op: Op)
    requires Enabled(t, op) && !op.Flushing? && Unique(Account(t))
    ensures Apply(t, op).dropped == t.dropped
    ensures Survivors(Apply(t, op)) == Survivors(t) + multiset(Arrivals([op]))
  {
    match op
    case Arrival(w) => ArriveSurvivors(t, w);
    case Collecting => CollectSurvivors(t);
    case Acknowledging => ConsumeSurvivors(t);
    case Discarding => DiscardSurvivors(t);
    case Resetting(b) => ResetSurvivors(t, b);
    case Revoking =>
  }

  lemma StepAccount(t: Tracker, op: Op)
    requires Enabled(t, op) && Unique(Account(t)) && TwinsSurvive(t)
    ensures Account(Apply(t, op)) == Account(t) + multiset(Arrivals([op]))
    ensures TwinsSurvive(Apply(t, op))
  {
    if op.Flushing? {
      FlushAccount(t, op.sorted);
      FlushTwins(t, op.sorted);
    } else {
      StepSurvivors(t, op);
      forall g | g in t.dropped ensures exists k :: k in Survivors(Apply(t, op)) && k.offset == g.offset {
        var k :| k in Survivors(t) && k.offset == g.offset;
        assert k in Survivors(Apply(t, op));
      }
    }
  }

  lemma {:induction false} RunAccount(t: Tracker, ops: seq<Op>, u: Tracker)
    requires Replays(t, ops, u) && Unique(Account(t) + multiset(Arrivals(ops))) && TwinsSurvive(t)
    ensures Account(u) == Account(t) + multiset(Arrivals(ops)) && TwinsSurvive(u)
    decreases |ops|
  {
    if ops != [] {
      var t' := Apply(t, ops[0]);
      var head, tail := multiset(Arrivals([ops[0]])), multiset(Arrivals(ops[1..]));
      ArrivalsSplit(ops);
      UniqueParts(Account(t), multiset(Arrivals(ops)));
      StepAccount(t, ops[0]);
      assert Account(t') + tail == Account(t) + (head + tail);
      RunAccount(t', ops[1..], u);
    }
  }

  lemma ArrivalsSplit(ops: seq<Op>)
    requires ops != []
    ensures multiset(Arrivals(ops)) == multiset(Arrivals([ops[0]])) + multiset(Arrivals(ops[1..]))
  {
    assert Arrivals([ops[0]]) == if ops[0].Arrival? then [ops[0].item] else [];
    assert Arrivals(ops) == Arrivals([ops[0]]) + Arrivals(ops[1..]);
  }

  lemma UniqueParts(a: multiset<Item>, b: multiset<Item>)
    requires Unique(a + b)
    ensures Unique(a)
  {
    forall g | g in a ensures a[g] == 1 {
      assert (a + b)[g] == a[g] + b[g];
    }
  }

  ghost function Offsets(m: multiset<Item>): set<int> {
    set g | g in m :: g.offset
  }

  /** Arrivals whose offset had arrived before. */
  function Duplicates(arrivals: seq<Item>): nat {
    if arrivals == [] then 0
    else
      var init, g := arrivals[..|arrivals| - 1], arrivals[|arrivals| - 1];
      Duplicates(init) + if exists i :: 0 <= i < |init| && init[i].offset == g.offset then 1 else 0
  }

  lemma {:induction false} DuplicatesCount(arrivals: seq<Item>)
    ensures Duplicates(arrivals) + |Offsets(multiset(arrivals))| == |arrivals|
  {
    if arrivals == [] {
      assert Offsets(multiset(arrivals)) == {};
    } else {
      var init, g := arrivals[..|arrivals| - 1], arrivals[|arrivals| - 1];
      DuplicatesCount(init);
      OffsetsOfSnoc(init, g);
      assert arrivals == init + [g];
      var before := Offsets(multiset(init));
      if g.offset in before {
        assert before + {g.offset} == before;
      }
    }
  }

  lemma OffsetsOfSnoc(init: seq<Item>, g: Item)
    ensures Offsets(multiset(init + [g])) == Offsets(multiset(init)) + {g.offset}
    ensures g.offset in Offsets(multiset(init)) <==> exists i :: 0 <= i < |init| && init[i].offset == g.offset
  {
    assert forall h :: h in multiset(init + [g]) <==> h in init || h == g;
    assert forall h :: h in multiset(init) <==> h in init;
    if g.offset in Offsets(multiset(init)) {
      var h :| h in multiset(init) && h.offset == g.offset;
      var i :| 0 <= i < |init| && init[i] == h;
    }
    if exists i :: 0 <= i < |init| && init[i].offset == g.offset {
      var i :| 0 <= i < |init| && init[i].offset == g.offset;
      assert init[i] in multiset(init);
    }
  }

  lemma {:induction false} OffsetsBound(m: multiset<Item>)
    ensures |Offsets(m)| <= |m|
    decreases |m|
  {
    if m == multiset{} {
      assert Offsets(m) == {};
    } else {
      var g :| g in m;
      var rest := m - multiset{g};
      OffsetsBound(rest);
      assert Offsets(m) <= Offsets(rest) + {g.offset};
      SubsetSize(Offsets(m), Offsets(rest) + {g.offset});
    }
  }

  lemma SubsetSize(a: set<int>, b: set<int>)
    requires a <= b
    ensures |a| <= |b|
  {
    assert b == a + (b - a);
  }

  /**
    Conservation: from a fresh tracker, whatever happens, each arrival is accounted for exactly once,
    and at most as many items are dropped as arrived with an offset that had arrived before.
   */
  lemma WorkItemsConserved(baseline: int, ops: seq<Op>, t: Tracker)
    requires Replays(Fresh(baseline), ops, t) && Unique(multiset(Arrivals(ops)))
    ensures multiset(Arrivals(ops)) == Account(t)
    ensures |Arrivals(ops)| == |t.returned| + |t.gap| + (if t.ready.Some? then 1 else 0) + |t.dropped|
    ensures |t.dropped| <= Duplicates(Arrivals(ops))
  {
    var a := multiset(Arrivals(ops));
    assert Account(Fresh(baseline)) == multiset{};
    assert multiset{} + a == a;
    RunAccount(Fresh(baseline), ops, t);
    assert Offsets(a) == Offsets(Survivors(t)) by {
      OffsetsSurvive(t);
    }
    OffsetsBound(Survivors(t));
    DuplicatesCount(Arrivals(ops));
    assert |a| == |Arrivals(ops)|;
    assert |a| == |Survivors(t)| + |t.dropped|;
  }

  lemma OffsetsSurvive(t: Tracker)
    requires TwinsSurvive(t)
    ensures Offsets(Account(t)) == Offsets(Survivors(t))
  {
    forall o | o in Offsets(Account(t)) ensures o in Offsets(Survivors(t)) {
      var g :| g in Account(t) && g.offset == o;
      if g !in Survivors(t) {
        assert g in t.dropped;
      }
    }
  }
}
