/**
  The sliding-window metrics buffer. Its meaning is a plain list of events, each filed under the
  highest epoch seen when it was recorded; the ring of buckets must always be the per-epoch summary
  of the last N epochs of that list.
 */
module RingBuffer {
  import opened WorkItems

  datatype Bucket = Bucket(
    count: nat, deadLetters: nat,
    totalProcess: int, totalEndToEnd: int,
    maxProcess: int, maxEndToEnd: int, minEndToEnd: int)

  function Empty(): Bucket { Bucket(0, 0, 0, 0, 0, 0, 0) }

  /** One recorded message, filed under `epoch`. */
  datatype Event = Event(epoch: int, process: int, endToEnd: int, deadLetter: bool)

  /** The running minimum as the code keeps it: zero stands for "none yet". */
  function LowerMin(m: int, latency: int): int {
    if m == 0 || latency < m then latency else m
  }

  function Add(b: Bucket, e: Event): Bucket {
    Bucket(b.count + 1, b.deadLetters + (if e.deadLetter then 1 else 0),
           b.totalProcess + e.process, b.totalEndToEnd + e.endToEnd,
           Max(b.maxProcess, e.process), Max(b.maxEndToEnd, e.endToEnd), LowerMin(b.minEndToEnd, e.endToEnd))
  }

  function Merge(a: Bucket, b: Bucket): Bucket {
    Bucket(a.count + b.count, a.deadLetters + b.deadLetters,
           a.totalProcess + b.totalProcess, a.totalEndToEnd + b.totalEndToEnd,
           Max(a.maxProcess, b.maxProcess), Max(a.maxEndToEnd, b.maxEndToEnd),
           if b.count > 0 then LowerMin(a.minEndToEnd, b.minEndToEnd) else a.minEndToEnd)
  }

  /** Everything but the minimum, which is no sum over slots. */
  function Core(b: Bucket): Bucket {
    b.(minEndToEnd := 0)
  }

  /** The summary of the events filed under the epochs `from` to `to`. */
  function Summary(history: seq<Event>, from: int, to: int): Bucket {
    if history == [] then Empty()
    else
      AddIf(Summary(history[..|history| - 1], from, to), history[|history| - 1], from, to)
  }

  lemma SummarySnoc(history: seq<Event>, e: Event, from: int, to: int)
    ensures Summary(history + [e], from, to) == AddIf(Summary(history, from, to), e, from, to)
  {
    assert (history + [e])[..|history|] == history;
  }

  function AddIf(b: Bucket, e: Event, from: int, to: int): Bucket {
    if from <= e.epoch <= to then Add(b, e) else b
  }

  lemma AddMerges(a: Bucket, b: Bucket, c: Bucket, e: Event, from: int, mid: int, to: int)
    requires from <= mid + 1 && mid <= to && Core(c) == Core(Merge(a, b))
    ensures Core(AddIf(c, e, from, to)) == Core(Merge(AddIf(a, e, from, mid), AddIf(b, e, mid + 1, to)))
  {
  }

  /** Adjacent ranges of epochs merge. */
  lemma {:induction false} SummarySplits(history: seq<Event>, from: int, mid: int, to: int)
    requires from <= mid + 1 && mid <= to
    ensures Core(Summary(history, from, to)) == Core(Merge(Summary(history, from, mid), Summary(history, mid + 1, to)))
  {
    if history != [] {
      var init, e := history[..|history| - 1], history[|history| - 1];
      SummarySplits(init, from, mid, to);
      AddMerges(Summary(init, from, mid), Summary(init, mid + 1, to), Summary(init, from, to), e, from, mid, to);
    }
  }

  // ---- what a summary says of its events ----

  /** The events filed under the epochs `from` to `to`, in order. */
  function Filtered(history: seq<Event>, from: int, to: int): seq<Event> {
    if history == [] then []
    else
      var e := history[|history| - 1];
      Filtered(history[..|history| - 1], from, to) + if from <= e.epoch <= to then [e] else []
  }

  function DeadLetters(events: seq<Event>): nat {
    if events == [] then 0
    else DeadLetters(events[..|events| - 1]) + if events[|events| - 1].deadLetter then 1 else 0
  }

  function ProcessTime(events: seq<Event>): int {
    if events == [] then 0 else ProcessTime(events[..|events| - 1]) + events[|events| - 1].process
  }

  function Latency(events: seq<Event>): int {
    if events == [] then 0 else Latency(events[..|events| - 1]) + events[|events| - 1].endToEnd
  }

  function OfEpoch(history: seq<Event>, epoch: int): seq<Event> {
    Filtered(history, epoch, epoch)
  }

  /** The counters and sums of `b` are those of `events`. */
  predicate Totals(b: Bucket, events: seq<Event>) {
    && b.count == |events| && b.deadLetters == DeadLetters(events)
    && b.totalProcess == ProcessTime(events) && b.totalEndToEnd == Latency(events)
  }

  lemma {:induction false} SummaryTotals(history: seq<Event>, from: int, to: int)
    ensures Totals(Summary(history, from, to), Filtered(history, from, to))
  {
    if history != [] {
      var init, e := history[..|history| - 1], history[|history| - 1];
      SummaryTotals(init, from, to);
      var before := Filtered(init, from, to);
      if from <= e.epoch <= to {
        assert (before + [e])[..|before|] == before;
      } else {
        assert before + [] == before;
      }
    }
  }

  // ---- the maxima ----

  predicate Filed(history: seq<Event>, e: Event, from: int, to: int) {
    e in history && from <= e.epoch <= to
  }

  lemma FiledSnoc(history: seq<Event>, from: int, to: int)
    requires history != []
    ensures forall e :: Filed(history, e, from, to) <==>
              Filed(history[..|history| - 1], e, from, to) || (e == history[|history| - 1] && from <= e.epoch <= to)
  {
    assert history == history[..|history| - 1] + [history[|history| - 1]];
  }

  /** The greatest processing time and latency of the events filed, or zero where none is positive. */
  ghost predicate Maxima(b: Bucket, history: seq<Event>, from: int, to: int) {
    && (forall e :: Filed(history, e, from, to) ==> e.process <= b.maxProcess && e.endToEnd <= b.maxEndToEnd)
    && (b.maxProcess == 0 || exists e :: Filed(history, e, from, to) && e.process == b.maxProcess)
    && (b.maxEndToEnd == 0 || exists e :: Filed(history, e, from, to) && e.endToEnd == b.maxEndToEnd)
    && b.maxProcess >= 0 && b.maxEndToEnd >= 0
  }

  lemma {:induction false} SummaryMax(history: seq<Event>, from: int, to: int)
    ensures Maxima(Summary(history, from, to), history, from, to)
  {
    if history != [] {
      var last := history[|history| - 1];
      FiledSnoc(history, from, to);
      SummaryMax(history[..|history| - 1], from, to);
      assert from <= last.epoch <= to ==> Filed(history, last, from, to);
    }
  }

  // ---- the minimum ----

  /** The latencies of the events filed under `epoch`, in order. */
  function Latencies(history: seq<Event>, epoch: int): seq<int> {
    if history == [] then []
    else
      var e := history[|history| - 1];
      Latencies(history[..|history| - 1], epoch) + if e.epoch == epoch then [e.endToEnd] else []
  }

  /** What the running minimum makes of a list of latencies. */
  function RunningMin(ls: seq<int>): int {
    if ls == [] then 0 else LowerMin(RunningMin(ls[..|ls| - 1]), ls[|ls| - 1])
  }

  lemma {:induction false} SlotMin(history: seq<Event>, epoch: int)
    ensures Summary(history, epoch, epoch).minEndToEnd == RunningMin(Latencies(history, epoch))
    ensures Summary(history, epoch, epoch).count == |Latencies(history, epoch)|
  {
    if history != [] {
      var init, e := history[..|history| - 1], history[|history| - 1];
      SlotMin(init, epoch);
      var ls := Latencies(init, epoch);
      if e.epoch == epoch {
        assert (ls + [e.endToEnd])[..|ls|] == ls;
      } else {
        assert ls + [] == ls;
      }
    }
  }

  /** The minimum over `n` slots from epoch `from` on, merged as the window reader does. */
  function WindowMin(history: seq<Event>, from: int, n: nat): int {
    if n == 0 then 0
    else
      WithSlot(WindowMin(history, from, n - 1), Summary(history, from + n - 1, from + n - 1))
  }

  function WithSlot(m: int, slot: Bucket): int {
    if slot.count > 0 then LowerMin(m, slot.minEndToEnd) else m
  }

  /** The latencies of `n` epochs from `from` on. */
  function WindowLatencies(history: seq<Event>, from: int, n: nat): seq<int> {
    if n == 0 then [] else WindowLatencies(history, from, n - 1) + Latencies(history, from + n - 1)
  }

  predicate IsLeast(m: int, ls: seq<int>) {
    m in ls && forall l :: l in ls ==> m <= l
  }

  predicate NonNegative(ls: seq<int>) {
    forall l :: l in ls ==> l >= 0
  }

  /** A zero is remembered only while it is the last latency. */
  predicate ZeroLast(ls: seq<int>) {
    0 in ls ==> ls[|ls| - 1] == 0
  }

  lemma {:induction false} RunningMinExactly(ls: seq<int>)
    requires NonNegative(ls) && ls != []
    ensures RunningMin(ls) == 0 <==> ls[|ls| - 1] == 0
    ensures IsLeast(RunningMin(ls), ls) <==> ZeroLast(ls)
    ensures RunningMin(ls) in ls
  {
    if |ls| > 1 {
      var init, l := ls[..|ls| - 1], ls[|ls| - 1];
      assert l in ls && forall x :: x in ls <==> x in init || x == l;
      RunningMinExactly(init);
    } else {
      assert ls[..0] == [];
    }
  }

  /** `m` is what a running minimum can say of `ls`: the least exactly when a zero comes last. */
  predicate MinOf(m: int, ls: seq<int>) {
    if ls == [] then m == 0
    else m in ls && (m == 0 <==> ls[|ls| - 1] == 0) && (IsLeast(m, ls) <==> ZeroLast(ls))
  }

  /** One more slot: its own minimum, merged into the window's. */
  lemma MergeMin(a: seq<int>, m: int, b: seq<int>, slot: Bucket)
    requires NonNegative(a) && NonNegative(b) && MinOf(m, a)
    requires slot.count == |b| && slot.minEndToEnd == RunningMin(b)
    ensures MinOf(WithSlot(m, slot), a + b)
  {
    if b == [] {
      assert a + b == a;
    } else {
      RunningMinExactly(b);
      assert (a + b)[|a + b| - 1] == b[|b| - 1];
      assert forall x :: x in a + b <==> x in a || x in b;
    }
  }

  lemma PartsNonNegative(a: seq<int>, b: seq<int>)
    requires NonNegative(a + b)
    ensures NonNegative(a) && NonNegative(b)
  {
    assert forall x :: x in a || x in b ==> x in a + b;
  }

  /**
    The reported minimum, exactly: with no latency negative it is the least latency of the window if and
    only if a zero latency, when there is one, is the last one recorded.
   */
  lemma {:induction false} WindowMinExactly(history: seq<Event>, from: int, n: nat)
    requires NonNegative(WindowLatencies(history, from, n))
    ensures MinOf(WindowMin(history, from, n), WindowLatencies(history, from, n))
  {
    if n > 0 {
      var a, b := WindowLatencies(history, from, n - 1), Latencies(history, from + n - 1);
      var m, slot := WindowMin(history, from, n - 1), Summary(history, from + n - 1, from + n - 1);
      assert WindowLatencies(history, from, n) == a + b && WindowMin(history, from, n) == WithSlot(m, slot);
      PartsNonNegative(a, b);
      assert MinOf(m, a) by {
        WindowMinExactly(history, from, n - 1);
      }
      assert slot.count == |b| && slot.minEndToEnd == RunningMin(b) by {
        SlotMin(history, from + n - 1);
      }
      MergeMin(a, m, b, slot);
    }
  }

  /** Zero stands for "none yet", so an earlier zero is forgotten: latencies 0 and 5 are reported as 5. */
  lemma MinForgetsZero(epoch: int) returns (history: seq<Event>)
    ensures WindowLatencies(history, epoch, 1) == [0, 5] && WindowMin(history, epoch, 1) == 5
  {
    var zero, five := Event(epoch, 0, 0, false), Event(epoch, 0, 5, false);
    assert [zero][..0] == [] && [zero, five][..1] == [zero];
    assert Latencies([zero], epoch) == [0];
    assert Summary([zero], epoch, epoch) == Add(Empty(), zero);
    history := [zero, five];
    assert Latencies(history, epoch) == [0] + [5];
    assert Summary(history, epoch, epoch) == Add(Add(Empty(), zero), five);
    assert WindowMin(history, epoch, 0) == 0 && WindowLatencies(history, epoch, 0) == [];
  }

  /** No event is filed after `last`. */
  predicate Until(history: seq<Event>, last: int) {
    forall i :: 0 <= i < |history| ==> history[i].epoch <= last
  }

  lemma {:induction false} NothingLater(history: seq<Event>, last: int, from: int, to: int)
    requires Until(history, last) && (from > last || from > to)
    ensures Summary(history, from, to) == Empty()
  {
    if history != [] {
      NothingLater(history[..|history| - 1], last, from, to);
    }
  }

  lemma ModBelowTwice(x: nat, n: nat)
    requires 0 < n && x < 2 * n
    ensures x % n == Wrap(x, n)
  {
    if x >= n {
      assert x == n * 1 + (x - n);
      assert x % n == (x - n) % n by { ModShift(x - n, n); }
    }
  }

  lemma ModShift(x: nat, n: nat)
    requires 0 < n && x < n
    ensures (x + n) % n == x % n == x
  {
    assert (x + n) / n == 1;
  }

  /** Division as Go does it: toward zero. */
  function Quotient(a: int, b: int): (q: int)
    requires b > 0
    ensures a >= 0 ==> q * b <= a < (q + 1) * b
    ensures a < 0 ==> (q - 1) * b < a <= q * b
  {
    if a >= 0 then a / b else -((-a) / b)
  }

  /** The slot `j` places before slot `index` of a ring of `n`. */
  function SlotOf(index: nat, j: nat, n: nat): (i: nat)
    requires index < n && j < n
    ensures i < n
  {
    if j <= index then index - j else index + n - j
  }

  function Wrap(x: nat, n: nat): (i: nat)
    requires x < 2 * n
    ensures i < n
  {
    if x < n then x else x - n
  }

  /** Slot `k` is among the `gap` slots after slot `index`, going round a ring of `n`. */
  predicate Skipped(index: nat, gap: nat, k: nat, n: nat) {
    index < k <= index + gap || index < k + n <= index + gap
  }

  /** The summary of the epoch `j` before `last`. */
  function EpochSummary(history: seq<Event>, last: int, j: nat): Bucket {
    Summary(history, last - j, last - j)
  }

  /** Read backwards from `index`, the ring summarises the epochs `last`, `last - 1`, and so on. */
  ghost predicate Window(ring: seq<Bucket>, index: nat, history: seq<Event>, last: int) {
    && index < |ring| && Until(history, last)
    && (forall j :: 0 <= j < |ring| ==> ring[SlotOf(index, j, |ring|)] == EpochSummary(history, last, j))
  }

  /** Clearing the skipped slots and moving the index moves the window. */
  lemma WindowMoves(ring: seq<Bucket>, index: nat, history: seq<Event>, last: int,
                    ring': seq<Bucket>, index': nat, now: int, gap: nat)
    requires Window(ring, index, history, last) && now > last && |ring'| == |ring|
    requires gap == if now - last > |ring| then |ring| else now - last
    requires index' == Wrap(index + gap, |ring|)
    requires forall k :: 0 <= k < |ring| ==>
               ring'[k] == if Skipped(index, gap, k, |ring|) then Empty() else ring[k]
    ensures Window(ring', index', history, now)
  {
    forall j | 0 <= j < |ring| ensures ring'[SlotOf(index', j, |ring|)] == EpochSummary(history, now, j) {
      if j < gap {
        NothingLater(history, last, now - j, now - j);
      } else {
        assert SlotOf(index', j, |ring|) == SlotOf(index, j - gap, |ring|);
        assert EpochSummary(history, now, j) == EpochSummary(history, last, j - gap);
      }
    }
  }

  /** Adding an event of the last epoch to the current slot adds it to the history. */
  lemma WindowAdds(ring: seq<Bucket>, index: nat, history: seq<Event>, e: Event)
    requires Window(ring, index, history, e.epoch)
    ensures Window(ring[index := Add(ring[index], e)], index, history + [e], e.epoch)
  {
    var ring' := ring[index := Add(ring[index], e)];
    assert SlotOf(index, 0, |ring|) == index;
    forall j | 0 <= j < |ring|
      ensures ring'[SlotOf(index, j, |ring|)] == EpochSummary(history + [e], e.epoch, j)
    {
      assert ring[SlotOf(index, j, |ring|)] == EpochSummary(history, e.epoch, j);
      SummarySnoc(history, e, e.epoch - j, e.epoch - j);
    }
  }

  /** Slot k holds the numbers of events and of dead letters filed under the k-th epoch from `first` on. */
  predicate Counted(throughput: seq<nat>, deadLetters: seq<nat>, history: seq<Event>, first: int) {
    |throughput| == |deadLetters| && forall k :: 0 <= k < |throughput| ==>
      && throughput[k] == |OfEpoch(history, first + k)| % 0x1_0000_0000
      && deadLetters[k] == DeadLetters(OfEpoch(history, first + k)) % 0x1_0000_0000
  }

  lemma CountedSnoc(throughput: seq<nat>, deadLetters: seq<nat>, history: seq<Event>, first: int, b: Bucket)
    requires Counted(throughput, deadLetters, history, first)
    requires b == Summary(history, first + |throughput|, first + |throughput|)
    ensures Counted(throughput + [b.count % 0x1_0000_0000], deadLetters + [b.deadLetters % 0x1_0000_0000],
                    history, first)
  {
    SummaryTotals(history, first + |throughput|, first + |throughput|);
  }

  lemma CoreMeans(b: Bucket, history: seq<Event>, from: int, to: int)
    requires Core(b) == Core(Summary(history, from, to))
    ensures Totals(b, Filtered(history, from, to)) && Maxima(b, history, from, to)
  {
    SummaryTotals(history, from, to);
    SummaryMax(history, from, to);
  }

  class MetricsRingBuffer {
    const buckets: array<Bucket>
    const bucketCount: nat
    const bucketSeconds: int
    var currentIndex: nat
    var lastEpoch: int
    var totalProcessed: nat
    ghost var history: seq<Event>

    constructor (bucketDurationSeconds: int, bucketCount: nat, now: int)
      requires bucketCount >= 1
      ensures Valid() && history == [] && fresh(buckets) && this.bucketCount == bucketCount
      ensures bucketSeconds == Max(bucketDurationSeconds, 1) && lastEpoch == Quotient(now, bucketSeconds)
    {
      var secs := if bucketDurationSeconds > 1 then bucketDurationSeconds else 1;
      buckets := new Bucket[bucketCount](i => Empty());
      this.bucketCount, bucketSeconds := bucketCount, secs;
      currentIndex, totalProcessed := 0, 0;
      lastEpoch := Quotient(now, secs);
      history := [];
    }

    ghost predicate Valid()
      reads this, buckets
    {
      && bucketCount >= 1 && buckets.Length == bucketCount && bucketSeconds >= 1
      && totalProcessed == |history|
      && Window(buckets[..], currentIndex, history, lastEpoch)
    }

    /** Move the window forward to `nowEpoch`: skipped epochs read empty, the others keep their events. */
    method Advance(nowEpoch: int)
      requires Valid() && nowEpoch > lastEpoch
      modifies this`currentIndex, this`lastEpoch, buckets
      ensures Valid() && lastEpoch == nowEpoch
    {
      var gap := if nowEpoch - lastEpoch > bucketCount then bucketCount else nowEpoch - lastEpoch;
      var oldIndex := currentIndex;
      ghost var before := buckets[..];
      ClearAfter(gap);
      ModBelowTwice(oldIndex + gap, bucketCount);
      WindowMoves(before, oldIndex, history, lastEpoch, buckets[..], Wrap(oldIndex + gap, bucketCount), nowEpoch, gap);
      currentIndex := (oldIndex + gap) % bucketCount;
      lastEpoch := nowEpoch;
    }

    /** Zero the `gap` slots after the current one, going round. */
    method ClearAfter(gap: nat)
      requires gap <= bucketCount == buckets.Length && currentIndex < bucketCount
      modifies buckets
      ensures forall k :: 0 <= k < bucketCount ==>
                buckets[k] == if Skipped(currentIndex, gap, k, bucketCount) then Empty() else old(buckets[k])
    {
      for i := 1 to gap + 1
        invariant forall k :: 0 <= k < bucketCount ==>
                    buckets[k] == if Skipped(currentIndex, i - 1, k, bucketCount) then Empty() else old(buckets[k])
      {
        ModBelowTwice(currentIndex + i, bucketCount);
        buckets[(currentIndex + i) % bucketCount] := Empty();
      }
    }

    /**
      Record one message. It is filed under the later of its own epoch and the last one, so a late
      message counts in the current bucket and a far-jumping one empties the window.
     */
    method Record(now: int, process: int, endToEnd: int, deadLetter: bool)
      requires Valid()
      modifies this, buckets
      ensures Valid()
      ensures lastEpoch == Max(old(lastEpoch), Quotient(now, bucketSeconds))
      ensures history == old(history) + [Event(lastEpoch, process, endToEnd, deadLetter)]
    {
      var nowEpoch := Quotient(now, bucketSeconds);
      if nowEpoch != lastEpoch && nowEpoch > lastEpoch {
        Advance(nowEpoch);
      }
      ghost var e := Event(lastEpoch, process, endToEnd, deadLetter);
      ghost var ring := buckets[..];
      var b := buckets[currentIndex];
      b := b.(count := b.count + 1);
      if deadLetter {
        b := b.(deadLetters := b.deadLetters + 1);
      }
      b := b.(totalProcess := b.totalProcess + process, totalEndToEnd := b.totalEndToEnd + endToEnd);
      if process > b.maxProcess {
        b := b.(maxProcess := process);
      }
      if endToEnd > b.maxEndToEnd {
        b := b.(maxEndToEnd := endToEnd);
      }
      if b.minEndToEnd == 0 || endToEnd < b.minEndToEnd {
        b := b.(minEndToEnd := endToEnd);
      }
      buckets[currentIndex] := b;
      WindowAdds(ring, currentIndex, history, e);
      assert buckets[..] == ring[currentIndex := Add(ring[currentIndex], e)];
      totalProcessed := totalProcessed + 1;
      history := history + [e];
    }

    /**
      Read the window: slot i counts exactly the events filed under epoch last - (N - 1 - i), and the
      totals and maxima are those of all events filed under the last N epochs, the minimum the slots' minima
      merged. The per-slot counters are narrowed to 32 bits, the totals are not.
     */
    method WindowData() returns (throughput: seq<nat>, deadLetters: seq<nat>, total: Bucket)
      requires Valid()
      ensures |throughput| == bucketCount && Counted(throughput, deadLetters, history, lastEpoch - bucketCount + 1)
      ensures Totals(total, Filtered(history, lastEpoch - bucketCount + 1, lastEpoch))
      ensures Maxima(total, history, lastEpoch - bucketCount + 1, lastEpoch)
      ensures total.minEndToEnd == WindowMin(history, lastEpoch - bucketCount + 1, bucketCount)
    {
      throughput, deadLetters, total := [], [], Empty();
      ghost var first := lastEpoch - bucketCount + 1;
      NothingLater(history, lastEpoch, first, first - 1);
      for i := 0 to bucketCount
        invariant |throughput| == i && Counted(throughput, deadLetters, history, first)
        invariant Core(total) == Core(Summary(history, first, first + i - 1))
        invariant total.minEndToEnd == WindowMin(history, first, i)
      {
        var b := ReadSlot(i);
        SummarySplits(history, first, first + i - 1, first + i);
        CountedSnoc(throughput, deadLetters, history, first, b);
        throughput := throughput + [b.count % 0x1_0000_0000];
        deadLetters := deadLetters + [b.deadLetters % 0x1_0000_0000];
        total := Merge(total, b);
      }
      CoreMeans(total, history, first, lastEpoch);
    }

    method ReadSlot(i: nat) returns (b: Bucket)
      requires Valid() && i < bucketCount
      ensures b == EpochSummary(history, lastEpoch, bucketCount - 1 - i)
    {
      ModBelowTwice(currentIndex + 1 + i, bucketCount);
      b := buckets[(currentIndex + 1 + i) % bucketCount];
      assert (currentIndex + 1 + i) % bucketCount == SlotOf(currentIndex, bucketCount - 1 - i, bucketCount);
      assert b == buckets[..][SlotOf(currentIndex, bucketCount - 1 - i, bucketCount)];
    }
  }
}
