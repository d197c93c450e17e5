/**
  The offset committer as the mutable object it is: trackers updated in place, loops over the
  partition map in any order, an in-place prune. Every method is tied to the step functions of
  PartitionTracker, so the run theorems speak about this code.
 */
module Committer {
  import opened WorkItems
  import opened GapOrder
  import opened PartitionTracker
  import Stamps

  class OffsetsTracker {
    var ready: Option<Item>
    var gap: seq<Item>
    var gapCap: nat               // capacity of the buffer's backing array
    var flag: bool
    var cpo: int
    var last: int
    var assignment: Assignment
    ghost var returned: seq<Item>
    ghost var dropped: seq<Item>

    constructor (baseline: int, capacity: nat)
      ensures View() == Fresh(baseline) && gapCap == capacity
    {
      ready, gap, gapCap, flag := None, [], capacity, false;
      cpo, last, assignment := baseline, -1, Assigned;
      returned, dropped := [], [];
    }

    ghost function View(): Tracker
      reads this
    {
      Tracker(ready, gap, flag, cpo, last, assignment, returned, dropped)
    }
  }

  /** The items of `log` that were handed over on behalf of partition `p`. */
  ghost function Sent(log: seq<(int, Item)>, p: int): seq<Item> {
    if log == [] then []
    else
      var init := Sent(log[..|log| - 1], p);
      if log[|log| - 1].0 == p then init + [log[|log| - 1].1] else init
  }

  lemma SentSnoc(log: seq<(int, Item)>, p: int, g: Item, q: int)
    ensures Sent(log + [(p, g)], q) == if p == q then Sent(log, q) + [g] else Sent(log, q)
  {
    assert (log + [(p, g)])[..|log|] == log;
  }

  lemma Inhabited(s: set<int>)
    ensures s == {} || exists p :: p in s
  {
    if forall p :: p !in s {
      assert s == {};
    }
  }

  ghost predicate FlushedTo(t: Tracker, u: Tracker) {
    exists sorted :: Arranged(t.gap, sorted) && u == Flush(t, sorted)
  }

  function OrFresh(m: map<int, Tracker>, p: int): Tracker {
    if p in m then m[p] else Fresh(-1)
  }

  /** A partition after an assign of the partitions in `baselines`. */
  function AfterAssign(m: map<int, Tracker>, baselines: map<int, int>, p: int): Tracker
    requires p in m || p in baselines
  {
    if p !in baselines then m[p]
    else if p in m then Reset(m[p], baselines[p])
    else Fresh(baselines[p])
  }

  /** One partition through a whole tick: what it becomes, and the offset sent to the broker. */
  function Ticked(f: Tracker, owned: bool, accepted: bool): Tracker {
    if !owned then Discard(f)
    else
      var c := Collect(f);
      if c.ready.Some? && accepted then Acknowledge(c) else c
  }

  function SentBy(f: Tracker, owned: bool): Option<int> {
    if owned && Collect(f).ready.Some? then Some(Collect(f).ready.value.offset) else None
  }

  datatype CommitError = GuardTimeout | BrokerCommitFailed

  /** Every partition through a tick: flushed, ticked with this answer, and sending exactly `commits`. */
  ghost predicate TickedTo(m: map<int, Tracker>, owned: set<int>, accepted: bool,
                           flushed: map<int, Tracker>, m': map<int, Tracker>, commits: map<int, int>)
  {
    && m.Keys == flushed.Keys == m'.Keys && commits.Keys <= m.Keys
    && (forall p :: p in m ==> FlushedTo(m[p], flushed[p]))
    && (forall p :: p in m ==> m'[p] == Ticked(flushed[p], p in owned, accepted))
    && (forall p :: p in m ==> Stamps.Lookup(commits, p) == SentBy(flushed[p], p in owned))
  }

  /** Each commit is its partition's Ready. */
  predicate AllReady(m: map<int, Tracker>, commits: map<int, int>) {
    forall p :: p in commits ==> p in m && m[p].ready.Some? && m[p].ready.value.offset == commits[p]
  }

  lemma CommitsAreReady(m: map<int, Tracker>, owned: set<int>, flushed: map<int, Tracker>,
                        collected: map<int, Tracker>, commits: map<int, int>)
    requires TickedTo(m, owned, false, flushed, collected, commits)
    ensures AllReady(collected, commits)
  {
    forall p | p in commits ensures p in m && Stamps.Lookup(commits, p).Some? {
    }
  }

  /** Acknowledging what was sent turns a refused tick into an accepted one. */
  lemma TickAccepted(m: map<int, Tracker>, owned: set<int>, flushed: map<int, Tracker>,
                     collected: map<int, Tracker>, m': map<int, Tracker>, commits: map<int, int>)
    requires TickedTo(m, owned, false, flushed, collected, commits) && m' == Acked(collected, commits.Keys)
    ensures TickedTo(m, owned, true, flushed, m', commits)
  {
    forall p | p in m ensures m'[p] == Ticked(flushed[p], p in owned, true) {
      assert Stamps.Lookup(commits, p) == SentBy(flushed[p], p in owned);
    }
  }

  /** With nothing to send the broker is not asked. */
  lemma TickSilent(m: map<int, Tracker>, owned: set<int>, flushed: map<int, Tracker>,
                   collected: map<int, Tracker>, commits: map<int, int>)
    requires TickedTo(m, owned, false, flushed, collected, commits) && commits == map[]
    ensures TickedTo(m, owned, true, flushed, collected, commits)
  {
    forall p | p in m ensures collected[p] == Ticked(flushed[p], p in owned, true) {
      assert Stamps.Lookup(commits, p) == SentBy(flushed[p], p in owned);
    }
  }

  // ---- maps part-way through a loop over partitions ----

  ghost function Scanned(m: map<int, Tracker>, done: set<int>, owned: set<int>): map<int, Tracker> {
    map p | p in m :: if p in done then Ticked(m[p], p in owned, false) else m[p]
  }

  ghost function Candidates(m: map<int, Tracker>, done: set<int>, owned: set<int>): map<int, int> {
    map p | p in m && p in done && SentBy(m[p], p in owned).Some? :: SentBy(m[p], p in owned).value
  }

  lemma ScannedStep(m: map<int, Tracker>, done: set<int>, owned: set<int>, p: int)
    requires p in m && p !in done
    ensures Scanned(m, done, owned)[p] == m[p]
    ensures Scanned(m, done + {p}, owned) == Scanned(m, done, owned)[p := Ticked(m[p], p in owned, false)]
    ensures Candidates(m, done + {p}, owned) ==
            if SentBy(m[p], p in owned).Some?
            then Candidates(m, done, owned)[p := SentBy(m[p], p in owned).value] else Candidates(m, done, owned)
  {
  }

  /** Every partition when those in `done` have been acknowledged. */
  ghost function Acked(m: map<int, Tracker>, done: set<int>): map<int, Tracker> {
    map p | p in m :: if p in done && m[p].ready.Some? then Acknowledge(m[p]) else m[p]
  }

  lemma AckedStep(m: map<int, Tracker>, done: set<int>, p: int)
    requires p in m && p !in done && m[p].ready.Some?
    ensures Acked(m, done)[p] == m[p]
    ensures Acked(m, done + {p}) == Acked(m, done)[p := Acknowledge(m[p])]
  {
  }

  /** Every partition when those in `done` have been restarted. */
  ghost function Restarted(m: map<int, Tracker>, baselines: map<int, int>, done: set<int>): map<int, Tracker>
    requires done <= baselines.Keys
  {
    map p | p in m.Keys + done :: if p in done then AfterAssign(m, baselines, p) else m[p]
  }

  lemma RestartedStep(m: map<int, Tracker>, baselines: map<int, int>, done: set<int>, p: int)
    requires done <= baselines.Keys && p in baselines && p !in done
    ensures p in Restarted(m, baselines, done) <==> p in m
    ensures p in m ==> Restarted(m, baselines, done)[p] == m[p]
    ensures Restarted(m, baselines, done + {p}) == Restarted(m, baselines, done)[p := AfterAssign(m, baselines, p)]
  {
  }

  class Committer {
    const gapBufferSize: nat
    const gapBufferSize70Pct: nat
    var partitionMap: map<int, OffsetsTracker>
    var owned: set<int>
    var totalProcessed: nat
    ghost var collected: seq<(int, Item)>   // what the metrics collector received

    constructor (concurrentKeys: nat)
      requires concurrentKeys >= 1
      ensures Valid() && partitionMap == map[] && owned == {}
      ensures gapBufferSize >= 1
    {
      gapBufferSize := concurrentKeys * 3 / 2;
      gapBufferSize70Pct := (concurrentKeys * 3 / 2) * 70 / 100;
      partitionMap, owned, totalProcessed, collected := map[], {}, 0, [];
    }

    /** No two partitions share a tracker, and the collector's log is the trackers' logs interleaved. */
    ghost predicate Valid()
      reads this, partitionMap.Values
    {
      && gapBufferSize >= 1
      && (forall p, q :: p in partitionMap && q in partitionMap && p != q ==> partitionMap[p] != partitionMap[q])
      && (forall p :: p in partitionMap ==> partitionMap[p].returned == Sent(collected, p))
      && (forall p :: p !in partitionMap ==> Sent(collected, p) == [])
      && totalProcessed == |collected|
    }

    /** Since the old state, the collector heard only about partition `p`, and all its tracker returned. */
    twostate predicate CollectedFor(p: int, t: OffsetsTracker)
      reads this, t
    {
      && totalProcessed - old(totalProcessed) == |collected| - |old(collected)|
      && (old(t.returned) == Sent(old(collected), p) ==> t.returned == Sent(collected, p))
      && (forall q :: q != p ==> Sent(collected, q) == Sent(old(collected), q))
    }

    method ReturnMessage(ghost p: int, t: OffsetsTracker, g: Item)
      modifies this`totalProcessed, this`collected, t`returned
      ensures t.returned == old(t.returned) + [g]
      ensures CollectedFor(p, t) && totalProcessed == old(totalProcessed) + 1
    {
      totalProcessed := totalProcessed + 1;
      forall q { SentSnoc(collected, p, g, q); }
      collected := collected + [(p, g)];
      t.returned := t.returned + [g];
    }

    method AddToGapBuffer(t: OffsetsTracker, w: Item)
      modifies t`gap, t`gapCap
      ensures t.gap == old(t.gap) + [w]
    {
      if |t.gap| >= t.gapCap {
        var grown: nat :| grown > |t.gap|;
        t.gapCap := grown;
      }
      t.gap := t.gap + [w];
    }

    /** Flag the flush when some buffered item names the new Ready. */
    method AdvanceThroughGapBuffer(t: OffsetsTracker, readyOffset: int)
      modifies t`flag
      ensures t.flag == (old(t.flag) || LinksTo(t.gap, readyOffset))
    {
      for i := 0 to |t.gap|
        invariant forall k :: 0 <= k < i ==> t.gap[k].prev != readyOffset
        invariant t.flag == old(t.flag)
      {
        if readyOffset == t.gap[i].prev {
          t.flag := true;
          return;
        }
      }
    }

    method CheckAndAdvance(ghost p: int, t: OffsetsTracker, w: Item)
      modifies this`totalProcessed, this`collected, t
      ensures t.View() == Advance(old(t.View()), w)
      ensures CollectedFor(p, t)
    {
      if t.ready.None? {
        if t.cpo == w.offset {
          t.ready := Some(w);
          AdvanceThroughGapBuffer(t, w.offset);
        } else if t.cpo > w.offset {
          ReturnMessage(p, t, w);
        } else {
          AddToGapBuffer(t, w);
          if w.offset == t.cpo || (t.last >= 0 && w.prev == t.last) {
            t.flag := true;
          }
        }
      } else {
        var readyOffset := t.ready.value.offset;
        if readyOffset > w.offset {
          ReturnMessage(p, t, w);
        } else if readyOffset == w.prev || readyOffset == w.offset {
          ReturnMessage(p, t, t.ready.value);
          t.ready := Some(w);
          AdvanceThroughGapBuffer(t, w.offset);
        } else {
          AddToGapBuffer(t, w);
        }
      }
    }

    /** Sort and walk one flagged buffer; what the walk did not reach stays. */
    method FlushTracker(ghost p: int, t: OffsetsTracker)
      requires gapBufferSize >= 1
      modifies this`totalProcessed, this`collected, t
      ensures FlushedTo(old(t.View()), t.View())
      ensures CollectedFor(p, t)
    {
      ghost var before := t.View();
      if !t.flag {
        SomeArrangement(t.gap);
        return;
      }
      t.flag := false;
      if |t.gap| == 0 {
        assert Arranged(before.gap, []);
        return;
      }
      ghost var sorted;
      t.gap, sorted := SortGapBuffer(t.gap);
      t.dropped := t.dropped + Dropped(sorted);
      ghost var start := t.View();
      WalkIgnoresGap(before.(flag := false, dropped := start.dropped), start.gap, start.gap);
      WalkBuffer(p, t);
      assert t.View() == Flush(before, sorted);
    }

    /** The walk itself: prune what is stale, promote what links, stop at the first item that does neither. */
    method WalkBuffer(ghost p: int, t: OffsetsTracker)
      requires gapBufferSize >= 1
      modifies this`totalProcessed, this`collected, t
      ensures t.View() == Walk(old(t.View()), old(t.gap))
      ensures CollectedFor(p, t)
    {
      ghost var start := t.View();
      var i := 0;
      var blocked := false;
      while i < |t.gap| && !blocked
        invariant 0 <= i <= |t.gap| && t.gap == start.gap
        invariant Walk(t.View(), t.gap[i..]) == Walk(start, start.gap)
        invariant blocked ==> i < |t.gap| && !Passes(t.View(), t.gap[i])
        invariant CollectedFor(p, t)
        decreases |t.gap| - i, !blocked
      {
        var g := t.gap[i];
        assert t.gap[i..][0] == g && t.gap[i..][1..] == t.gap[i + 1..];
        if t.ready.None? && g.offset < t.cpo {
          ReturnMessage(p, t, g);
          i := i + 1;
        } else if t.ready.None? && (g.offset == t.cpo || (t.last >= 0 && g.prev == t.last)) {
          t.ready := Some(g);
          i := i + 1;
        } else if t.ready.None? {
          blocked := true;
        } else if g.offset <= t.ready.value.offset {
          ReturnMessage(p, t, g);
          i := i + 1;
        } else if t.ready.value.offset == g.prev {
          ReturnMessage(p, t, t.ready.value);
          t.ready := Some(g);
          i := i + 1;
        } else {
          blocked := true;
        }
      }
      if i == 0 {
        assert t.gap[0..] == t.gap;
        return;
      }
      if i == |t.gap| {
        t.gap, t.gapCap := [], gapBufferSize;
      } else {
        t.gap := t.gap[i..];
        t.gapCap := if t.gapCap >= i then t.gapCap - i else 0;
        ResizeGapBuffer(t);
      }
    }

    /** A new backing array with the buffer's contents copied to its front. */
    method Reallocate(gap: seq<Item>, capacity: nat) returns (buffer: array<Item>)
      requires |gap| <= capacity
      ensures fresh(buffer) && buffer.Length == capacity && buffer[..|gap|] == gap
    {
      buffer := new Item[capacity];
      for i := 0 to |gap|
        invariant buffer[..i] == gap[..i]
      {
        buffer[i] := gap[i];
      }
    }

    /**
      Hysteresis around the steady-state capacity. Contents never change; when the buffer is
      reallocated the new capacity is the least multiple from 4x on that exceeds the length.
     */
    method ResizeGapBuffer(t: OffsetsTracker)
      requires gapBufferSize >= 1
      modifies t`gapCap, t`gap
      ensures t.gap == old(t.gap)
      ensures old(t.gapCap) < gapBufferSize70Pct ==> t.gapCap >= |t.gap| + gapBufferSize
      ensures gapBufferSize70Pct <= old(t.gapCap) <= gapBufferSize * 3 ==> t.gapCap == old(t.gapCap)
      ensures old(t.gapCap) >= gapBufferSize70Pct && old(t.gapCap) > gapBufferSize * 3 ==>
                |t.gap| < t.gapCap && exists i: nat :: IsLeastMultiple(|t.gap|, gapBufferSize, i, t.gapCap)
    {
      if t.gapCap < gapBufferSize70Pct {
        var grown: nat :| grown >= |t.gap| + gapBufferSize;
        var buffer := Reallocate(t.gap, grown);
        t.gap, t.gapCap := buffer[..|t.gap|], buffer.Length;
      } else if t.gapCap > gapBufferSize * 3 {
        var i := 4;
        while |t.gap| >= gapBufferSize * i
          invariant i >= 4 && (i == 4 || gapBufferSize * (i - 1) <= |t.gap|)
          decreases |t.gap| - gapBufferSize * i
        {
          assert gapBufferSize * (i + 1) == gapBufferSize * i + gapBufferSize;
          i := i + 1;
        }
        assert IsLeastMultiple(|t.gap|, gapBufferSize, i, gapBufferSize * i);
        var buffer := Reallocate(t.gap, gapBufferSize * i);
        t.gap, t.gapCap := buffer[..|t.gap|], buffer.Length;
      }
    }

    /** The scan of the repair: the lowest provable item, the first buffered one among equals. */
    method FindSuccessor(gap: seq<Item>, cpo: int, last: int) returns (successor: Option<Item>)
      ensures successor == Successor(gap, cpo, last)
    {
      successor := None;
      for i := 0 to |gap|
        invariant successor == Successor(gap[..i], cpo, last)
      {
        var g := gap[i];
        assert gap[..i + 1][..i] == gap[..i];
        if g.offset < cpo {
          SuccessorAtBaseline(gap[..i], cpo, last);
        } else if successor.Some? && g.offset >= successor.value.offset {
        } else if g.offset == cpo {
          successor := Some(g);
        } else if g.prev >= 0 && g.prev <= last {
          successor := Some(g);
        }
      }
      assert gap[..|gap|] == gap;
    }

    /** The commit-cadence repair: one scan for the successor, one in-place filter. */
    method RepairSuccessor(ghost p: int, t: OffsetsTracker)
      modifies this`totalProcessed, this`collected, t
      ensures t.View() == Repair(old(t.View()))
      ensures CollectedFor(p, t)
    {
      if t.ready.Some? || |t.gap| == 0 || t.flag || t.last < 0 {
        return;
      }
      var successor := FindSuccessor(t.gap, t.cpo, t.last);
      if successor.None? {
        return;
      }
      PruneBelow(p, t, successor.value);
      t.ready := successor;
      t.flag := |t.gap| > 0;
    }

    /**
      The filter itself, reading and writing one array: what is kept moves down over what was read. The
      write cursor never passes the read cursor, so nothing unread is overwritten.
     */
    method KeepAbove(ghost p: int, t: OffsetsTracker, a: array<Item>, s: Item) returns (k: nat)
      modifies this`totalProcessed, this`collected, t`returned, a
      ensures k <= a.Length && a[..k] == Above(old(a[..]), s)
      ensures t.returned == old(t.returned) + Below(old(a[..]), s.offset)
      ensures CollectedFor(p, t)
    {
      ghost var was := a[..];
      k := 0;
      for i := 0 to a.Length
        invariant k <= i && a[i..] == was[i..]
        invariant a[..k] == Above(was[..i], s)
        invariant t.returned == old(t.returned) + Below(was[..i], s.offset)
        invariant CollectedFor(p, t)
      {
        var g := a[i];
        assert g == a[i..][0] == was[i] && was[..i + 1][..i] == was[..i];
        assert a[i + 1..] == a[i..][1..];
        if g == s {
        } else if g.offset < s.offset {
          ReturnMessage(p, t, g);
        } else {
          a[k] := g;
          k := k + 1;
        }
      }
      assert was[..a.Length] == was;
    }

    /** The buffer is a slice of its backing array, and the filter works on that array. */
    method PruneBelow(ghost p: int, t: OffsetsTracker, s: Item)
      modifies this`totalProcessed, this`collected, t`gap, t`returned
      ensures t.gap == Above(old(t.gap), s)
      ensures t.returned == old(t.returned) + Below(old(t.gap), s.offset)
      ensures CollectedFor(p, t)
    {
      var gap := t.gap;
      var a := new Item[|gap|](i requires 0 <= i < |gap| => gap[i]);
      assert a[..] == gap;
      var k := KeepAbove(p, t, a, s);
      t.gap := a[..k];
    }

    method ReturnAll(ghost p: int, t: OffsetsTracker)
      modifies this`totalProcessed, this`collected, t`gap, t`returned
      ensures t.gap == [] && t.returned == old(t.returned) + old(t.gap)
      ensures CollectedFor(p, t)
    {
      for i := 0 to |t.gap|
        invariant t.gap == old(t.gap)
        invariant t.returned == old(t.returned) + t.gap[..i]
        invariant CollectedFor(p, t)
      {
        ReturnMessage(p, t, t.gap[i]);
      }
      assert t.gap[..|t.gap|] == t.gap;
      t.gap := [];
    }

    method DiscardOrphanedTracker(ghost p: int, t: OffsetsTracker)
      modifies this`totalProcessed, this`collected, t
      ensures t.View() == Discard(old(t.View()))
      ensures CollectedFor(p, t)
    {
      if t.ready.None? && |t.gap| == 0 {
        return;
      }
      if t.ready.Some? {
        ReturnMessage(p, t, t.ready.value);
        t.ready := None;
      }
      if |t.gap| > 0 {
        ReturnAll(p, t);
      }
      t.flag := false;
    }

    /** The part of CommitOffsets that looks at one partition before the broker call. */
    method CollectTracker(ghost p: int, t: OffsetsTracker) returns (commit: Option<int>)
      modifies this`totalProcessed, this`collected, t
      ensures t.View() == Collect(old(t.View()))
      ensures commit == if t.ready.Some? then Some(t.ready.value.offset) else None
      ensures CollectedFor(p, t)
    {
      if t.ready.None? {
        RepairSuccessor(p, t);
        if t.ready.None? {
          return None;
        }
      }
      if t.ready.value.offset < t.cpo {
        ReturnMessage(p, t, t.ready.value);
        t.ready := None;
        if |t.gap| > 0 {
          t.flag := true;
        }
        return None;
      }
      return Some(t.ready.value.offset);
    }

    /** The success path of CommitOffsets for one committed message. */
    method AcknowledgeTracker(ghost p: int, t: OffsetsTracker, offset: int)
      requires t.ready.Some? && t.ready.value.offset == offset
      modifies this`totalProcessed, this`collected, t
      ensures t.View() == Acknowledge(old(t.View()))
      ensures CollectedFor(p, t)
    {
      if offset + 1 > t.cpo {
        t.cpo := offset + 1;
      }
      if offset > t.last {
        t.last := offset;
      }
      ReturnMessage(p, t, t.ready.value);
      t.ready := None;
      if |t.gap| > 0 {
        t.flag := true;
      }
    }

    /** Every partition's state, as a value. */
    ghost function Views(): (m: map<int, Tracker>)
      reads this, partitionMap.Values
      ensures m.Keys == partitionMap.Keys
    {
      map p | p in partitionMap :: partitionMap[p].View()
    }

    /** A change to `p`'s tracker is a change to `p`'s view only. */
    twostate lemma OnlyViewOf(p: int)
      requires old(Valid()) && p in partitionMap && partitionMap == old(partitionMap)
      requires forall q :: q in partitionMap && q != p ==> unchanged(partitionMap[q])
      ensures Views() == old(Views())[p := partitionMap[p].View()]
    {
      forall q | q in partitionMap && q != p ensures Views()[q] == old(Views())[q] {
        assert unchanged(partitionMap[q]);
      }
    }

    method FlushPartition(p: int)
      requires Valid() && p in partitionMap
      modifies this`totalProcessed, this`collected, partitionMap[p]
      ensures Valid() && FlushedTo(old(Views())[p], Views()[p])
      ensures Views() == old(Views())[p := Views()[p]]
    {
      FlushTracker(p, partitionMap[p]);
      OnlyViewOf(p);
    }

    /** Batch end: every flagged partition is flushed, in whatever order the map is iterated. */
    method FlushGapBuffers()
      requires Valid()
      modifies this`totalProcessed, this`collected, partitionMap.Values
      ensures Valid() && Views().Keys == old(Views().Keys)
      ensures forall p :: p in Views() ==> FlushedTo(old(Views())[p], Views()[p])
    {
      ghost var start := Views();
      var todo := partitionMap.Keys;
      while todo != {}
        invariant todo <= partitionMap.Keys && Valid()
        invariant forall p :: p in todo ==> Views()[p] == start[p]
        invariant forall p :: p in start && p !in todo ==> FlushedTo(start[p], Views()[p])
        decreases todo
      {
        Inhabited(todo);
        var p :| p in todo;
        FlushPartition(p);
        todo := todo - {p};
      }
    }

    method CollectPartition(p: int) returns (commit: Option<int>)
      requires Valid() && p in partitionMap
      modifies this`totalProcessed, this`collected, partitionMap[p]
      ensures Valid() && commit == SentBy(old(Views())[p], p in owned)
      ensures Views() == old(Views())[p := Ticked(old(Views())[p], p in owned, false)]
    {
      if p !in owned {
        DiscardOrphanedTracker(p, partitionMap[p]);
        commit := None;
      } else {
        commit := CollectTracker(p, partitionMap[p]);
      }
      OnlyViewOf(p);
    }

    method AcknowledgePartition(p: int, offset: int)
      requires Valid() && p in partitionMap
      requires partitionMap[p].ready.Some? && partitionMap[p].ready.value.offset == offset
      modifies this`totalProcessed, this`collected, partitionMap[p]
      ensures Valid() && Views() == old(Views())[p := Acknowledge(old(Views())[p])]
    {
      AcknowledgeTracker(p, partitionMap[p], offset);
      OnlyViewOf(p);
    }

    /** The scan of the tick: who is discarded, who is repaired, and what goes to the broker. */
    method CollectCommits() returns (commits: map<int, int>)
      requires Valid()
      modifies this`totalProcessed, this`collected, partitionMap.Values
      ensures Valid() && Views().Keys == old(Views().Keys)
      ensures commits.Keys <= partitionMap.Keys
      ensures forall p :: p in Views() ==> Views()[p] == Ticked(old(Views())[p], p in owned, false)
      ensures forall p :: p in Views() ==> Stamps.Lookup(commits, p) == SentBy(old(Views())[p], p in owned)
    {
      ghost var start := Views();
      commits := map[];
      var todo := partitionMap.Keys;
      while todo != {}
        invariant todo <= start.Keys == partitionMap.Keys && Valid()
        invariant Views() == Scanned(start, start.Keys - todo, owned)
        invariant commits == Candidates(start, start.Keys - todo, owned)
        decreases todo
      {
        Inhabited(todo);
        var p :| p in todo;
        ScannedStep(start, start.Keys - todo, owned, p);
        assert start.Keys - (todo - {p}) == (start.Keys - todo) + {p};
        var commit := CollectPartition(p);
        if commit.Some? {
          commits := commits[p := commit.value];
        }
        todo := todo - {p};
      }
      assert start.Keys - {} == start.Keys;
    }

    /** One more committed partition, `done` having been acknowledged since `start`. */
    method AcknowledgeNext(ghost start: map<int, Tracker>, ghost done: set<int>, p: int, offset: int)
      requires Valid() && p in partitionMap && p in start && p !in done && Views() == Acked(start, done)
      requires start[p].ready.Some? && start[p].ready.value.offset == offset
      modifies this`totalProcessed, this`collected, partitionMap[p]
      ensures Valid() && Views() == Acked(start, done + {p})
    {
      AckedStep(start, done, p);
      assert Views()[p] == partitionMap[p].View();
      AcknowledgePartition(p, offset);
    }

    method AcknowledgeCommits(commits: map<int, int>)
      requires Valid() && AllReady(Views(), commits)
      modifies this`totalProcessed, this`collected, partitionMap.Values
      ensures Valid() && Views() == Acked(old(Views()), commits.Keys)
    {
      ghost var start := Views();
      var todo := commits.Keys;
      while todo != {}
        invariant todo <= commits.Keys && Valid() && start.Keys == partitionMap.Keys
        invariant Views() == Acked(start, commits.Keys - todo)
        decreases todo
      {
        Inhabited(todo);
        var p :| p in todo;
        AcknowledgeNext(start, commits.Keys - todo, p, commits[p]);
        assert commits.Keys - (todo - {p}) == (commits.Keys - todo) + {p};
        todo := todo - {p};
      }
      assert commits.Keys - {} == commits.Keys;
    }

    /** The tick up to the broker call. */
    method FlushAndCollect() returns (commits: map<int, int>, ghost flushed: map<int, Tracker>)
      requires Valid()
      modifies this`totalProcessed, this`collected, partitionMap.Values
      ensures Valid() && TickedTo(old(Views()), owned, false, flushed, Views(), commits)
    {
      FlushGapBuffers();
      flushed := Views();
      commits := CollectCommits();
    }

    /**
      A commit tick. `guardAcquired` says whether the commit guard was had in time; `accepted` is the
      broker's answer, asked for only when there is something to commit. `flushed` is what the flush at the
      top of the tick made of each partition.
     */
    method CommitOffsets(guardAcquired: bool, accepted: bool)
        returns (commits: map<int, int>, error: Option<CommitError>, ghost flushed: map<int, Tracker>)
      requires Valid()
      modifies this`totalProcessed, this`collected, partitionMap.Values
      ensures Valid() && (error == Some(GuardTimeout) <==> !guardAcquired)
      ensures !guardAcquired ==> Views() == old(Views()) && commits == map[]
      ensures guardAcquired ==> TickedTo(old(Views()), owned, accepted, flushed, Views(), commits)
      ensures guardAcquired ==> (error == Some(BrokerCommitFailed) <==> commits != map[] && !accepted)
    {
      if !guardAcquired {
        return map[], Some(GuardTimeout), Views();
      }
      ghost var start := Views();
      commits, flushed := FlushAndCollect();
      error := None;
      ghost var collected := Views();
      if commits != map[] && !accepted {
        error := Some(BrokerCommitFailed);
      } else if commits != map[] {
        CommitsAreReady(start, owned, flushed, collected, commits);
        AcknowledgeCommits(commits);
        TickAccepted(start, owned, flushed, collected, Views(), commits);
      } else if accepted {
        TickSilent(start, owned, flushed, collected, commits);
      }
    }

    method AddPartition(p: int, baseline: int)
      requires Valid() && p !in partitionMap
      modifies this`partitionMap
      ensures Valid() && Views() == old(Views())[p := Fresh(baseline)]
      ensures fresh(partitionMap[p]) && partitionMap == old(partitionMap)[p := partitionMap[p]]
    {
      var t := new OffsetsTracker(baseline, gapBufferSize);
      partitionMap := partitionMap[p := t];
    }

    method ResetPartition(p: int, baseline: int)
      requires Valid() && p in partitionMap
      modifies this`totalProcessed, this`collected, partitionMap[p]
      ensures Valid() && Views() == old(Views())[p := Reset(old(Views())[p], baseline)]
    {
      ResetTracker(p, partitionMap[p], baseline);
      OnlyViewOf(p);
    }

    method RestartPartition(p: int, baseline: int)
      requires Valid()
      modifies this`totalProcessed, this`collected, this`partitionMap
      modifies if p in partitionMap then {partitionMap[p]} else {}
      ensures Valid() && Views() == old(Views())[p := AfterAssign(old(Views()), map[p := baseline], p)]
      ensures forall q :: q in old(partitionMap) ==> q in partitionMap && partitionMap[q] == old(partitionMap)[q]
    {
      if p !in partitionMap {
        AddPartition(p, baseline);
      } else {
        ResetPartition(p, baseline);
      }
    }

    /** Rebalance assign: the named partitions start over at their baselines, the others are left alone. */
    method ResetCommittedOffsets(baselines: map<int, int>)
      requires Valid()
      modifies this`totalProcessed, this`collected, this`partitionMap, partitionMap.Values
      ensures Valid() && Views() == Restarted(old(Views()), baselines, baselines.Keys)
    {
      ghost var start, before := Views(), partitionMap;
      var todo := baselines.Keys;
      while todo != {}
        invariant todo <= baselines.Keys && Valid()
        invariant Views() == Restarted(start, baselines, baselines.Keys - todo)
        invariant forall p :: p in before ==> p in partitionMap && partitionMap[p] == before[p]
        decreases todo
      {
        Inhabited(todo);
        var p :| p in todo;
        RestartedStep(start, baselines, baselines.Keys - todo, p);
        assert baselines.Keys - (todo - {p}) == (baselines.Keys - todo) + {p};
        RestartPartition(p, baselines[p]);
        todo := todo - {p};
      }
      assert baselines.Keys - {} == baselines.Keys;
    }

    /** One completion: its tracker takes the arrival step, a missing tracker is created unanchored. */
    method ProcessCommit(partition: int, w: Item)
      requires Valid()
      modifies this`totalProcessed, this`collected, this`partitionMap, partitionMap.Values
      ensures Valid() && Views() == old(Views())[partition := Arrive(OrFresh(old(Views()), partition), w)]
    {
      if partition !in partitionMap {
        AddPartition(partition, -1);
      }
      ArrivePartition(partition, w);
    }

    method ArrivePartition(p: int, w: Item)
      requires Valid() && p in partitionMap
      modifies this`totalProcessed, this`collected, partitionMap[p]
      ensures Valid() && Views() == old(Views())[p := Arrive(old(Views())[p], w)]
    {
      var t := partitionMap[p];
      if w.first && w.offset >= t.cpo {
        t.cpo := w.offset;
      }
      CheckAndAdvance(p, t, w);
      OnlyViewOf(p);
    }

    method ResetTracker(ghost p: int, t: OffsetsTracker, baseline: int)
      modifies this`totalProcessed, this`collected, t
      ensures t.View() == Reset(old(t.View()), baseline)
      ensures CollectedFor(p, t)
    {
      if t.ready.Some? && t.ready.value.offset < baseline {
        ReturnMessage(p, t, t.ready.value);
        t.ready := None;
      }
      if t.assignment.Revoked? {
        if t.ready.Some? {
          ReturnMessage(p, t, t.ready.value);
          t.ready := None;
        }
        ReturnAll(p, t);
      }
      t.cpo := baseline;
      t.last := -1;
      t.assignment := Assigned;
      t.flag := |t.gap| > 0;
    }

    method MarkPartitionAssigned(partition: int)
      requires Valid()
      modifies this`owned
      ensures Valid() && Views() == old(Views()) && owned == old(owned) + {partition}
    {
      owned := owned + {partition};
    }

    method MarkPartitionRevoked(partition: int)
      requires Valid()
      modifies this`owned, partitionMap.Values
      ensures Valid() && owned == old(owned) - {partition}
      ensures Views() == if partition in old(Views())
                         then old(Views())[partition := MarkRevoked(old(Views())[partition])] else old(Views())
    {
      owned := owned - {partition};
      if partition in partitionMap {
        partitionMap[partition].assignment := Revoked;
        OnlyViewOf(partition);
      }
    }
  }

  ghost predicate IsLeastMultiple(length: nat, size: nat, i: nat, capacity: nat) {
    && i >= 4 && capacity == size * i && length < size * i
    && (i == 4 || size * (i - 1) <= length)
  }

  /** Nothing provable lies below the baseline. */
  lemma {:induction false} SuccessorAtBaseline(gap: seq<Item>, cpo: int, last: int)
    ensures Successor(gap, cpo, last).Some? ==> Successor(gap, cpo, last).value.offset >= cpo
  {
    if gap != [] {
      SuccessorAtBaseline(gap[..|gap| - 1], cpo, last);
    }
  }
}
