/**
  Whether a flush depends only on which items are buffered. The library sort is unstable, so one buffer
  has several sorted orders; the flush is canonical exactly when no offset has two latest-read items.
 */
module Canonical {
  import opened WorkItems
  import opened GapOrder
  import opened PartitionTracker
  import opened Conservation

  /** `g` is a latest-read item of its offset. */
  ghost predicate Latest(gap: seq<Item>, g: Item) {
    g in gap && forall c :: c in gap && c.offset == g.offset ==> c.readTime <= g.readTime
  }

  /** Two different items tie for the latest read of one offset. */
  ghost predicate TopTie(gap: seq<Item>, a: Item, b: Item) {
    Latest(gap, a) && Latest(gap, b) && a != b && a.offset == b.offset
  }

  ghost predicate NoTopTies(gap: seq<Item>) {
    forall a, b :: !TopTie(gap, a, b)
  }

  /** No two different items of one offset were read at the same time. */
  ghost predicate NoTies(gap: seq<Item>) {
    forall a, b :: a in gap && b in gap && a != b && a.offset == b.offset ==> a.readTime != b.readTime
  }

  lemma NoTiesOnTop(gap: seq<Item>)
    requires NoTies(gap)
    ensures NoTopTies(gap)
  {
  }

  lemma UniqueAt(s: seq<Item>, a: Item, b: Item)
    requires StrictlyIncreasing(s) && a in s && b in s && a.offset == b.offset
    ensures a == b
  {
    var i :| 0 <= i < |s| && s[i] == a;
    var j :| 0 <= j < |s| && s[j] == b;
  }

  /** A latest-read item of the buffer has a survivor of its offset, read at the same time. */
  lemma LatestHasSurvivor(gap: seq<Item>, s: seq<Item>, g: Item) returns (k: Item)
    requires Arranged(gap, s) && Latest(gap, g)
    ensures k in Compact(s) && Latest(gap, k) && k.offset == g.offset && k.readTime == g.readTime
  {
    ArrangedMembers(gap, s);
    CompactMembers(s);
    var i :| 0 <= i < |s| && s[i] == g;
    CompactKeepsLatest(s, i);
    k :| k in Compact(s) && k.offset == g.offset && k.readTime >= g.readTime;
  }

  lemma SurvivorIsLatest(gap: seq<Item>, s: seq<Item>, g: Item)
    requires Arranged(gap, s) && g in Compact(s)
    ensures Latest(gap, g)
  {
    ArrangedMembers(gap, s);
    CompactMembers(s);
    CompactStrict(s);
    forall c | c in gap && c.offset == g.offset ensures c.readTime <= g.readTime {
      var i :| 0 <= i < |s| && s[i] == c;
      CompactKeepsLatest(s, i);
      var k :| k in Compact(s) && k.offset == c.offset && k.readTime >= c.readTime;
      UniqueAt(Compact(s), k, g);
    }
  }

  lemma SurvivorsAgree(gap: seq<Item>, s: seq<Item>, s': seq<Item>, g: Item)
    requires Arranged(gap, s) && Arranged(gap, s') && NoTopTies(gap) && g in Compact(s)
    ensures g in Compact(s')
  {
    SurvivorIsLatest(gap, s, g);
    var k := LatestHasSurvivor(gap, s', g);
    assert !TopTie(gap, g, k);
  }

  lemma {:induction false} StrictDetermined(a: seq<Item>, b: seq<Item>)
    requires StrictlyIncreasing(a) && StrictlyIncreasing(b) && forall g :: g in a <==> g in b
    ensures a == b
  {
    if a == [] {
      HasMember(b);
    } else {
      var x := a[|a| - 1];
      assert x in b;
      var y := b[|b| - 1];
      assert y in a;
      UniqueAt(a, x, y);
      var a0, b0 := a[..|a| - 1], b[..|b| - 1];
      forall g ensures g in a0 <==> g in b0 {
        assert g in a0 <==> g in a && g != x;
        assert g in b0 <==> g in b && g != y;
      }
      StrictDetermined(a0, b0);
    }
  }

  lemma CompactionAgrees(gap: seq<Item>, s: seq<Item>, s': seq<Item>)
    requires Arranged(gap, s) && Arranged(gap, s') && NoTopTies(gap)
    ensures Compact(s) == Compact(s')
  {
    CompactStrict(s);
    CompactStrict(s');
    forall g ensures g in Compact(s) <==> g in Compact(s') {
      if g in Compact(s) {
        SurvivorsAgree(gap, s, s', g);
      }
      if g in Compact(s') {
        SurvivorsAgree(gap, s', s, g);
      }
    }
    StrictDetermined(Compact(s), Compact(s'));
  }

  // ---- a top tie can be decided either way ----

  predicate StartsRun(s: seq<Item>, i: nat) {
    i < |s| && (i == 0 || s[i - 1].offset != s[i].offset)
  }

  lemma {:induction false} RunStartKept(s: seq<Item>, i: nat)
    requires StartsRun(s, i)
    ensures s[i] in Compact(s)
  {
    var n := |s| - 1;
    if i < n {
      RunStartKept(s[..n], i);
    }
  }

  lemma {:induction false} KeptStartsRun(s: seq<Item>, g: Item) returns (i: nat)
    requires g in Compact(s)
    ensures StartsRun(s, i) && s[i] == g
  {
    var n := |s| - 1;
    if |s| <= 1 {
      i := 0;
    } else if g in Compact(s[..n]) {
      i := KeptStartsRun(s[..n], g);
    } else {
      i := n;
    }
  }

  lemma SwapArranged(gap: seq<Item>, s: seq<Item>, i: nat, j: nat)
    requires Arranged(gap, s) && i < |s| && j < |s|
    requires s[i].offset == s[j].offset && s[i].readTime == s[j].readTime
    ensures Arranged(gap, s[i := s[j]][j := s[i]])
  {
  }

  /** Any latest-read item survives in some sorted order of the buffer. */
  lemma CanSurvive(gap: seq<Item>, s: seq<Item>, x: Item) returns (s': seq<Item>)
    requires Arranged(gap, s) && Latest(gap, x)
    ensures Arranged(gap, s') && x in Compact(s')
  {
    var h := LatestHasSurvivor(gap, s, x);
    var i := KeptStartsRun(s, h);
    ArrangedMembers(gap, s);
    var j :| 0 <= j < |s| && s[j] == x;
    SwapArranged(gap, s, i, j);
    s' := s[i := s[j]][j := s[i]];
    assert StartsRun(s', i) && s'[i] == x;
    RunStartKept(s', i);
  }

  // ---- the flush ----

  /** Equal but for the order in which compaction logged what it dropped. */
  predicate Same(u: Tracker, v: Tracker) {
    u == v.(dropped := u.dropped)
  }

  ghost predicate FlushesOneWay(t: Tracker) {
    forall s, s' :: Arranged(t.gap, s) && Arranged(t.gap, s') ==> Same(Flush(t, s), Flush(t, s'))
  }

  lemma {:induction false} WalkIgnoresDropped(t: Tracker, d: seq<Item>, buffer: seq<Item>)
    ensures Walk(t.(dropped := d), buffer) == Walk(t, buffer).(dropped := d)
    decreases |buffer|
  {
    if buffer != [] && Passes(t, buffer[0]) {
      WalkIgnoresDropped(Take(t, buffer[0]), d, buffer[1..]);
    }
  }

  lemma FlushAgrees(t: Tracker, s: seq<Item>, s': seq<Item>)
    requires Arranged(t.gap, s) && Arranged(t.gap, s') && NoTopTies(t.gap)
    ensures Same(Flush(t, s), Flush(t, s'))
  {
    CompactionAgrees(t.gap, s, s');
    WalkIgnoresDropped(t.(flag := false), t.dropped + Dropped(s), Compact(s));
    WalkIgnoresDropped(t.(flag := false), t.dropped + Dropped(s'), Compact(s));
  }

  lemma FlushSurvivors(t: Tracker, s: seq<Item>)
    requires t.flag && t.gap != []
    ensures Survivors(Flush(t, s)) == Survivors(t.(gap := Compact(s)))
  {
    var u := t.(flag := false, dropped := t.dropped + Dropped(s));
    WalkSurvivors(u, Compact(s));
  }

  /** Two sorted orders with different survivors flush to different trackers. */
  lemma FlushDiffers(t: Tracker, s: seq<Item>, s': seq<Item>, x: Item)
    requires t.flag && t.gap != [] && x in Compact(s) && x !in Compact(s')
    ensures !Same(Flush(t, s), Flush(t, s'))
  {
    FlushSurvivors(t, s);
    FlushSurvivors(t, s');
    assert multiset(Compact(s))[x] > 0 && multiset(Compact(s'))[x] == 0;
    assert Survivors(Flush(t, s))[x] > Survivors(Flush(t, s'))[x];
  }

  /**
    A flush depends only on which items are buffered, not on the order they arrived in or on what the
    sort did with equals, if and only if no offset has two different latest-read items.
   */
  lemma FlushCanonicalExactly(t: Tracker)
    requires t.flag
    ensures FlushesOneWay(t) <==> NoTopTies(t.gap)
  {
    if NoTopTies(t.gap) {
      forall s, s' | Arranged(t.gap, s) && Arranged(t.gap, s') ensures Same(Flush(t, s), Flush(t, s')) {
        FlushAgrees(t, s, s');
      }
    } else {
      var a, b :| TopTie(t.gap, a, b);
      SomeArrangement(t.gap);
      var s :| Arranged(t.gap, s);
      CompactStrict(s);
      var x := if a in Compact(s) then b else a;
      if a in Compact(s) && b in Compact(s) {
        UniqueAt(Compact(s), a, b);
      }
      var s' := CanSurvive(t.gap, s, x);
      FlushDiffers(t, s', s, x);
    }
  }

  lemma StrictHasNoTies(s: seq<Item>)
    requires StrictlyIncreasing(s)
    ensures NoTopTies(s) && Arranged(s, s)
  {
    forall a, b ensures !TopTie(s, a, b) {
      if TopTie(s, a, b) {
        UniqueAt(s, a, b);
      }
    }
  }

  /** What stays buffered is strictly ascending, and sorts back to itself with nothing to drop. */
  lemma FlushedBuffer(t: Tracker, sorted: seq<Item>, again: seq<Item>)
    requires t.flag && Arranged(t.gap, sorted) && Arranged(Flush(t, sorted).gap, again)
    ensures StrictlyIncreasing(Flush(t, sorted).gap)
    ensures Compact(again) == Flush(t, sorted).gap && Dropped(again) == []
  {
    var gap := Flush(t, sorted).gap;
    if t.gap != [] {
      CompactStrict(sorted);
      WalkLeavesSuffix(t.(flag := false, dropped := t.dropped + Dropped(sorted)), Compact(sorted));
    }
    StrictHasNoTies(gap);
    CompactionAgrees(gap, gap, again);
    CompactOfStrict(gap);
    ArrangedMembers(gap, again);
    CompactSplits(again);
  }

  /** Flagging and flushing again changes nothing. */
  lemma FlushIsIdempotent(t: Tracker, sorted: seq<Item>, again: seq<Item>)
    requires t.flag && Arranged(t.gap, sorted) && Arranged(Flush(t, sorted).gap, again)
    ensures Flush(Flush(t, sorted).(flag := true), again) == Flush(t, sorted)
  {
    var u := Flush(t, sorted);
    FlushedBuffer(t, sorted, again);
    if t.gap != [] {
      var s := t.(flag := false, dropped := t.dropped + Dropped(sorted));
      WalkKeeps(s, Compact(sorted));
      WalkSettles(s, Compact(sorted));
      assert u.dropped + [] == u.dropped;
    }
  }
}
