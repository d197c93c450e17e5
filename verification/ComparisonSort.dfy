/**
  The duplicate flag of the gap-buffer sort, for any comparison sort the library may use. The flag is set
  inside the comparator, so it is only as good as the comparisons the sort happens to make: this shows that
  no comparison sort can order a buffer with equal offsets without comparing two of them.
 */
module ComparisonSort {
  import opened WorkItems
  import opened GapOrder

  /** The comparator: offsets ascending, the later-read twin first. */
  function Compare(a: Item, b: Item): int {
    if a.offset < b.offset then -1
    else if a.offset > b.offset then 1
    else if a.readTime > b.readTime then -1
    else if a.readTime < b.readTime then 1
    else 0
  }

  /** One call of the library sort: the pairs of positions it compared, and the order it settled on. */
  datatype SortRun = SortRun(asked: seq<(nat, nat)>, order: seq<nat>)

  predicate Shaped(n: nat, run: SortRun) {
    && |run.order| == n
    && (forall k :: 0 <= k < n ==> run.order[k] < n) && (forall a: nat :: a < n ==> a in run.order)
    && (forall j, k :: 0 <= j < k < n ==> run.order[j] != run.order[k])
    && (forall q :: q in run.asked ==> q.0 < n && q.1 < n)
  }

  function InOrder(buffer: seq<Item>, run: SortRun): seq<Item>
    requires Shaped(|buffer|, run)
  {
    seq(|buffer|, k requires 0 <= k < |buffer| => buffer[run.order[k]])
  }

  /** `other` answers every comparison of the run as `buffer` does. */
  predicate AnswersAlike(buffer: seq<Item>, other: seq<Item>, run: SortRun)
    requires Shaped(|buffer|, run) && |other| == |buffer|
  {
    forall q :: q in run.asked ==> Compare(other[q.0], other[q.1]) == Compare(buffer[q.0], buffer[q.1])
  }

  /** A comparison sort: its order is right for whatever buffer gives the answers it heard. */
  ghost predicate Sorts(buffer: seq<Item>, run: SortRun) {
    && Shaped(|buffer|, run)
    && multiset(InOrder(buffer, run)) == multiset(buffer)
    && (forall other :: |other| == |buffer| && AnswersAlike(buffer, other, run) ==> Ordered(InOrder(other, run)))
  }

  predicate MetEqual(buffer: seq<Item>, run: SortRun)
    requires Shaped(|buffer|, run)
  {
    exists q :: q in run.asked && buffer[q.0].offset == buffer[q.1].offset
  }

  /** The buffer with its offsets spread apart and item `y` moved just below its offset. */
  function Spread(buffer: seq<Item>, y: nat): seq<Item> {
    seq(|buffer|, k requires 0 <= k < |buffer| =>
      buffer[k].(offset := 2 * buffer[k].offset - if k == y then 1 else 0))
  }

  /** If no compared pair had equal offsets, spreading changes no answer. */
  lemma SpreadAnswersAlike(buffer: seq<Item>, run: SortRun, y: nat)
    requires Shaped(|buffer|, run) && !MetEqual(buffer, run)
    ensures AnswersAlike(buffer, Spread(buffer, y), run)
  {
    forall q | q in run.asked
      ensures Compare(Spread(buffer, y)[q.0], Spread(buffer, y)[q.1]) == Compare(buffer[q.0], buffer[q.1])
    {
      assert buffer[q.0].offset != buffer[q.1].offset;
    }
  }

  /**
    Whatever comparison sort is used: it has compared two items of one offset exactly when the buffer has
    two. So the flag set in the comparator never misses a duplicate.
   */
  lemma DuplicatesAreMet(buffer: seq<Item>, run: SortRun)
    requires Sorts(buffer, run) && forall q :: q in run.asked ==> q.0 != q.1
    ensures !MetEqual(buffer, run) <==> StrictlyIncreasing(InOrder(buffer, run))
  {
    var sorted := InOrder(buffer, run);
    assert AnswersAlike(buffer, buffer, run);
    if !MetEqual(buffer, run) {
      forall i, j | 0 <= i < j < |sorted| ensures sorted[i].offset < sorted[j].offset {
        var y := run.order[j];
        SpreadAnswersAlike(buffer, run, y);
        var other := Spread(buffer, y);
        assert Before(InOrder(other, run)[i], InOrder(other, run)[j]);
        assert Before(sorted[i], sorted[j]);
      }
    }
    if StrictlyIncreasing(sorted) {
      forall q | q in run.asked ensures buffer[q.0].offset != buffer[q.1].offset {
        DistinctPlaces(buffer, run, q.0, q.1);
      }
    }
  }

  /** Different positions of the buffer land at different places of the order. */
  lemma DistinctPlaces(buffer: seq<Item>, run: SortRun, a: nat, b: nat)
    requires Shaped(|buffer|, run) && a < |buffer| && b < |buffer| && a != b
    requires StrictlyIncreasing(InOrder(buffer, run))
    ensures buffer[a].offset != buffer[b].offset
  {
    assert a in run.order && b in run.order;
    var i :| 0 <= i < |run.order| && run.order[i] == a;
    var j :| 0 <= j < |run.order| && run.order[j] == b;
    assert InOrder(buffer, run)[i] == buffer[a] && InOrder(buffer, run)[j] == buffer[b];
  }

  /** The sort function itself, for any library outcome: compact only when the comparator met equal offsets. */
  method SortAndCompact(buffer: seq<Item>, run: SortRun) returns (out: seq<Item>)
    requires Sorts(buffer, run) && forall q :: q in run.asked ==> q.0 != q.1
    ensures Arranged(buffer, InOrder(buffer, run)) && out == Compact(InOrder(buffer, run))
  {
    var foundDuplicate := false;
    for i := 0 to |run.asked|
      invariant foundDuplicate <==>
                  exists k :: 0 <= k < i && buffer[run.asked[k].0].offset == buffer[run.asked[k].1].offset
    {
      if buffer[run.asked[i].0].offset == buffer[run.asked[i].1].offset {
        foundDuplicate := true;
      }
    }
    var sorted := InOrder(buffer, run);
    assert AnswersAlike(buffer, buffer, run);
    DuplicatesAreMet(buffer, run);
    if foundDuplicate {
      out := CompactRuns(sorted);
    } else {
      assert !MetEqual(buffer, run);
      CompactOfStrict(sorted);
      out := sorted;
    }
  }
}
