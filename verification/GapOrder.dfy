/**
  The order in which a gap buffer is flushed. Offsets ascend, and of two items with one offset the
  later-read one comes first, so that compaction keeps it.
 */
module GapOrder {
  import opened WorkItems

  /** The comparator of sortGapBuffer, as "a may stand in front of b". */
  predicate Before(a: Item, b: Item) {
    a.offset < b.offset || (a.offset == b.offset && a.readTime >= b.readTime)
  }

  predicate Ordered(s: seq<Item>) {
    forall i, j :: 0 <= i < j < |s| ==> Before(s[i], s[j])
  }

  /** `sorted` is a possible outcome of the (unstable) library sort of `buffer`. */
  predicate Arranged(buffer: seq<Item>, sorted: seq<Item>) {
    multiset(buffer) == multiset(sorted) && Ordered(sorted)
  }

  predicate StrictlyIncreasing(s: seq<Item>) {
    forall i, j :: 0 <= i < j < |s| ==> s[i].offset < s[j].offset
  }

  /** The first item of every run of equal offsets. */
  function Compact(s: seq<Item>): (r: seq<Item>) {
    if |s| <= 1 then s
    else
      var kept := Compact(s[..|s| - 1]);
      if s[|s| - 2].offset == s[|s| - 1].offset then kept else kept + [s[|s| - 1]]
  }

  /** What compaction throws away. */
  function Dropped(s: seq<Item>): (r: seq<Item>) {
    if |s| <= 1 then []
    else
      var lost := Dropped(s[..|s| - 1]);
      if s[|s| - 2].offset == s[|s| - 1].offset then lost + [s[|s| - 1]] else lost
  }

  lemma HasMember(s: seq<Item>)
    ensures s == [] || exists g :: g in s
  {
    if s != [] {
      assert s[0] in s;
    }
  }

  lemma ArrangedMembers(buffer: seq<Item>, sorted: seq<Item>)
    requires multiset(buffer) == multiset(sorted)
    ensures forall g :: g in buffer <==> g in sorted
    ensures |buffer| == |sorted|
  {
    forall g ensures g in buffer <==> g in sorted {
      assert g in buffer <==> g in multiset(buffer);
      assert g in sorted <==> g in multiset(sorted);
    }
    assert |multiset(buffer)| == |multiset(sorted)|;
  }

  /** Some survivor has g's offset and was read no earlier than g. */
  ghost predicate Represented(kept: seq<Item>, g: Item) {
    exists k :: k in kept && k.offset == g.offset && k.readTime >= g.readTime
  }

  lemma {:induction false} CompactMembers(s: seq<Item>)
    ensures forall k :: k in Compact(s) ==> k in s
    ensures s != [] ==> Compact(s) != [] && Compact(s)[|Compact(s)| - 1].offset == s[|s| - 1].offset
  {
    if |s| > 1 {
      CompactMembers(s[..|s| - 1]);
    }
  }

  /** The offsets of a compacted sorted buffer strictly increase. */
  lemma {:induction false} CompactStrict(s: seq<Item>)
    requires Ordered(s)
    ensures StrictlyIncreasing(Compact(s))
  {
    if |s| > 1 {
      var n := |s| - 1;
      CompactStrict(s[..n]);
      CompactMembers(s[..n]);
      assert Before(s[n - 1], s[n]);
      var kept := Compact(s[..n]);
      forall i | 0 <= i < |kept| ensures kept[i].offset <= s[n - 1].offset {
        assert i < |kept| - 1 ==> kept[i].offset < kept[|kept| - 1].offset;
      }
    }
  }

  /**
    No offset is lost by compaction, and the survivor of an offset is a latest-read item of it.
   */
  lemma {:induction false} CompactKeepsLatest(s: seq<Item>, i: nat)
    requires Ordered(s) && i < |s|
    ensures Represented(Compact(s), s[i])
  {
    var n := |s| - 1;
    var last := s[n];
    if n == 0 {
      assert s[i] in Compact(s);
    } else if i < n {
      CompactKeepsLatest(s[..n], i);
      var k :| k in Compact(s[..n]) && k.offset == s[i].offset && k.readTime >= s[i].readTime;
      assert k in Compact(s);
    } else if s[n - 1].offset == last.offset {
      assert Before(s[n - 1], last);
      CompactKeepsLatest(s[..n], n - 1);
    } else {
      assert last in Compact(s);
    }
  }

  lemma {:induction false} CompactSplits(s: seq<Item>)
    ensures multiset(Compact(s)) + multiset(Dropped(s)) == multiset(s)
    ensures |Compact(s)| + |Dropped(s)| == |s|
  {
    if |s| > 1 {
      CompactSplits(s[..|s| - 1]);
      assert s == s[..|s| - 1] + [s[|s| - 1]];
    }
  }

  /** An item read strictly after every other item of its offset survives compaction. */
  lemma LatestSurvives(s: seq<Item>, g: Item)
    requires Ordered(s) && g in s
    requires forall h :: h in s && h.offset == g.offset && h != g ==> h.readTime < g.readTime
    ensures g in Compact(s)
  {
    var i :| 0 <= i < |s| && s[i] == g;
    CompactKeepsLatest(s, i);
    CompactMembers(s);
  }

  lemma {:induction false} CompactOfStrict(s: seq<Item>)
    requires StrictlyIncreasing(s)
    ensures Compact(s) == s
    ensures Dropped(s) == []
  {
    if |s| > 1 {
      CompactOfStrict(s[..|s| - 1]);
      assert s == s[..|s| - 1] + [s[|s| - 1]];
    }
  }

  /** One pass of the insertion: where `x` belongs, and whether the comparator saw an equal offset. */
  method Place(sorted: seq<Item>, x: Item) returns (at: nat, equalSeen: bool)
    requires Ordered(sorted)
    ensures at <= |sorted|
    ensures Ordered(sorted[..at] + [x] + sorted[at..])
    ensures equalSeen <==> exists k :: 0 <= k < |sorted| && sorted[k].offset == x.offset
  {
    at, equalSeen := |sorted|, false;
    while at > 0 && !Before(sorted[at - 1], x)
      invariant 0 <= at <= |sorted|
      invariant forall k :: at <= k < |sorted| ==> !Before(sorted[k], x)
      invariant equalSeen <==> exists k :: at <= k < |sorted| && sorted[k].offset == x.offset
    {
      equalSeen := equalSeen || sorted[at - 1].offset == x.offset;
      at := at - 1;
    }
    if at > 0 && sorted[at - 1].offset == x.offset {
      equalSeen := true;
    }
    InsertOrdered(sorted, at, x);
  }

  /**
    Sort and de-duplicate a gap buffer. Compaction runs only when the comparator met two equal
    offsets; the ghost result is the sorted buffer that compaction saw.
   */
  method SortGapBuffer(buffer: seq<Item>) returns (out: seq<Item>, ghost sorted: seq<Item>)
    ensures Arranged(buffer, sorted)
    ensures out == Compact(sorted)
    ensures StrictlyIncreasing(out)
    ensures forall g :: g in out ==> g in buffer
    ensures forall g :: g in buffer ==> Represented(out, g)
  {
    var s: seq<Item> := [];
    var foundDuplicate := false;
    for i := 0 to |buffer|
      invariant multiset(s) == multiset(buffer[..i])
      invariant Ordered(s)
      invariant !foundDuplicate ==> StrictlyIncreasing(s)
    {
      var at, equalSeen := Place(s, buffer[i]);
      InsertSplits(s, at, buffer[i]);
      if !foundDuplicate && !equalSeen {
        InsertStrict(s, at, buffer[i]);
      }
      s := s[..at] + [buffer[i]] + s[at..];
      foundDuplicate := foundDuplicate || equalSeen;
      assert buffer[..i + 1] == buffer[..i] + [buffer[i]];
    }
    assert buffer[..|buffer|] == buffer;
    sorted := s;
    CompactMeans(buffer, s);
    if foundDuplicate {
      out := CompactRuns(s);
    } else {
      CompactOfStrict(s);
      out := s;
    }
  }

  /** What a compacted arrangement means for the buffer it came from. */
  lemma CompactMeans(buffer: seq<Item>, sorted: seq<Item>)
    requires Arranged(buffer, sorted)
    ensures StrictlyIncreasing(Compact(sorted))
    ensures forall g :: g in Compact(sorted) ==> g in buffer
    ensures forall g :: g in buffer ==> Represented(Compact(sorted), g)
  {
    CompactStrict(sorted);
    CompactMembers(sorted);
    ArrangedMembers(buffer, sorted);
    forall g | g in buffer ensures Represented(Compact(sorted), g) {
      var i :| 0 <= i < |sorted| && sorted[i] == g;
      CompactKeepsLatest(sorted, i);
    }
  }

  lemma InsertSplits(s: seq<Item>, at: nat, x: Item)
    requires at <= |s|
    ensures multiset(s[..at] + [x] + s[at..]) == multiset(s) + multiset{x}
  {
    assert s == s[..at] + s[at..];
  }

  lemma InsertStrict(s: seq<Item>, at: nat, x: Item)
    requires at <= |s| && StrictlyIncreasing(s) && Ordered(s[..at] + [x] + s[at..])
    requires forall k :: 0 <= k < |s| ==> s[k].offset != x.offset
    ensures StrictlyIncreasing(s[..at] + [x] + s[at..])
  {
    var r := s[..at] + [x] + s[at..];
    forall k | 0 <= k < at ensures s[k].offset < x.offset {
      assert Before(r[k], r[at]);
    }
    forall k | at <= k < |s| ensures x.offset < s[k].offset {
      assert Before(r[at], r[k + 1]);
    }
  }

  method CompactRuns(s: seq<Item>) returns (out: seq<Item>)
    ensures out == Compact(s)
  {
    if |s| <= 1 {
      return s;
    }
    out := [s[0]];
    assert s[..1] == [s[0]];
    for k := 1 to |s|
      invariant out == Compact(s[..k])
    {
      assert s[..k + 1][..k] == s[..k];
      if s[k - 1].offset != s[k].offset {
        out := out + [s[k]];
      }
    }
    assert s[..|s|] == s;
  }

  /** Every buffer has an arrangement. */
  lemma {:induction false} SomeArrangement(buffer: seq<Item>)
    ensures exists sorted :: Arranged(buffer, sorted)
  {
    if buffer == [] {
      assert Arranged(buffer, []);
    } else {
      var init, x := buffer[..|buffer| - 1], buffer[|buffer| - 1];
      SomeArrangement(init);
      var sorted :| Arranged(init, sorted);
      var at := SomePlace(sorted, x);
      InsertSplits(sorted, at, x);
      assert buffer == init + [x];
      assert Arranged(buffer, sorted[..at] + [x] + sorted[at..]);
    }
  }

  lemma SomePlace(sorted: seq<Item>, x: Item) returns (at: nat)
    requires Ordered(sorted)
    ensures at <= |sorted| && Ordered(sorted[..at] + [x] + sorted[at..])
  {
    at := |sorted|;
    while at > 0 && !Before(sorted[at - 1], x)
      invariant 0 <= at <= |sorted|
      invariant forall k :: at <= k < |sorted| ==> !Before(sorted[k], x)
    {
      at := at - 1;
    }
    InsertOrdered(sorted, at, x);
  }

  lemma InsertOrdered(s: seq<Item>, at: nat, x: Item)
    requires Ordered(s) && at <= |s|
    requires at > 0 ==> Before(s[at - 1], x)
    requires forall k :: at <= k < |s| ==> !Before(s[k], x)
    ensures Ordered(s[..at] + [x] + s[at..])
  {
    forall k | 0 <= k < at ensures Before(s[k], x) {
      assert k < at - 1 ==> Before(s[k], s[at - 1]);
    }
  }
}
