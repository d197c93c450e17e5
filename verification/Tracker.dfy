/**
  The per-partition state of the offset committer and its atomic steps, as functions from the state
  before to the state after. Every step of the Go code runs under the committer mutex. `returned`
  logs the items handed to the metrics collector (which ends their life), `dropped` the ones that
  de-duplication discards without that epilogue.
 */
module PartitionTracker {
  import opened WorkItems
  import opened GapOrder

  datatype Assignment = Assigned | Revoked

  datatype Tracker = Tracker(
    ready: Option<Item>,
    gap: seq<Item>,
    flag: bool,          // NeedsGapAdvance
    cpo: int,            // CommittedPlusOne
    last: int,           // LastCommittedOffset, -1 when nothing was committed this epoch
    assignment: Assignment,
    returned: seq<Item>,
    dropped: seq<Item>)

  /** A tracker created by a reset at `baseline`, or by an arrival with baseline -1. */
  function Fresh(baseline: int): Tracker {
    Tracker(None, [], false, baseline, -1, Assigned, [], [])
  }

  function Return(t: Tracker, g: Item): Tracker {
    t.(returned := t.returned + [g])
  }

  // ---- arrival of a completion ----

  function RaiseBaseline(t: Tracker, w: Item): Tracker {
    if w.first && w.offset >= t.cpo then t.(cpo := w.offset) else t
  }

  predicate LinksTo(gap: seq<Item>, offset: int) {
    exists i :: 0 <= i < |gap| && gap[i].prev == offset
  }

  /** Make `w` the commit candidate and flag the flush when its successor is already buffered. */
  function Promote(t: Tracker, w: Item): Tracker {
    t.(ready := Some(w), flag := t.flag || LinksTo(t.gap, w.offset))
  }

  /** With Ready empty, `w` may start the walk: it sits at the baseline or names the last commit. */
  predicate Initialises(t: Tracker, w: Item) {
    w.offset == t.cpo || (t.last >= 0 && w.prev == t.last)
  }

  function Advance(t: Tracker, w: Item): Tracker {
    match t.ready
    case None =>
      if t.cpo == w.offset then Promote(t, w)
      else if t.cpo > w.offset then Return(t, w)
      else t.(gap := t.gap + [w], flag := t.flag || Initialises(t, w))
    case Some(r) =>
      if r.offset > w.offset then Return(t, w)
      else if r.offset == w.prev || r.offset == w.offset then Promote(Return(t, r), w)
      else t.(gap := t.gap + [w])
  }

  function Arrive(t: Tracker, w: Item): Tracker {
    Advance(RaiseBaseline(t, w), w)
  }

  // ---- batch-end flush ----

  /** The walk may go on past `g`: it prunes it as stale, or promotes it to Ready. */
  predicate Passes(t: Tracker, g: Item) {
    match t.ready
    case None => g.offset < t.cpo || Initialises(t, g)
    case Some(r) => g.offset <= r.offset || r.offset == g.prev
  }

  function Take(t: Tracker, g: Item): Tracker
    requires Passes(t, g)
  {
    match t.ready
    case None => if g.offset < t.cpo then Return(t, g) else t.(ready := Some(g))
    case Some(r) => if g.offset <= r.offset then Return(t, g) else Return(t, r).(ready := Some(g))
  }

  /** Walk a sorted buffer until nothing qualifies; the rest stays buffered. */
  function Walk(t: Tracker, buffer: seq<Item>): Tracker
    decreases |buffer|
  {
    if buffer == [] || !Passes(t, buffer[0]) then t.(gap := buffer)
    else Walk(Take(t, buffer[0]), buffer[1..])
  }

  /** The flush of one tracker, `sorted` being what the library sort made of its buffer. */
  function Flush(t: Tracker, sorted: seq<Item>): Tracker {
    if !t.flag then t
    else if t.gap == [] then t.(flag := false)
    else Walk(t.(flag := false, dropped := t.dropped + Dropped(sorted)), Compact(sorted))
  }

  // ---- commit tick ----

  /** A buffered item that provably holds the record right after the last committed one. */
  predicate Provable(g: Item, cpo: int, last: int) {
    g.offset >= cpo && (g.offset == cpo || 0 <= g.prev <= last)
  }

  /** The lowest provable item, the earliest-buffered one among equals. */
  function Successor(gap: seq<Item>, cpo: int, last: int): Option<Item> {
    if gap == [] then None
    else
      var g := gap[|gap| - 1];
      var best := Successor(gap[..|gap| - 1], cpo, last);
      if best.Some? && g.offset >= best.value.offset then best
      else if Provable(g, cpo, last) then Some(g)
      else best
  }

  /** The buffered items strictly below `bound`. */
  function Below(gap: seq<Item>, bound: int): seq<Item> {
    if gap == [] then []
    else Below(gap[..|gap| - 1], bound) +
         if gap[|gap| - 1].offset < bound then [gap[|gap| - 1]] else []
  }

  /** The buffered items at or above `s`, other than `s` itself. */
  function Above(gap: seq<Item>, s: Item): seq<Item> {
    if gap == [] then []
    else Above(gap[..|gap| - 1], s) +
         if gap[|gap| - 1].offset >= s.offset && gap[|gap| - 1] != s then [gap[|gap| - 1]] else []
  }

  predicate Stalled(t: Tracker) {
    t.ready.None? && t.gap != [] && !t.flag && t.last >= 0
  }

  function Repair(t: Tracker): Tracker {
    if !Stalled(t) then t
    else
      match Successor(t.gap, t.cpo, t.last)
      case None => t
      case Some(s) =>
        var kept := Above(t.gap, s);
        t.(ready := Some(s), gap := kept, flag := |kept| > 0,
           returned := t.returned + Below(t.gap, s.offset))
  }

  /** Hand a stale or committed Ready to the collector and ask for a flush if anything is buffered. */
  function Consume(t: Tracker): Tracker
    requires t.ready.Some?
  {
    Return(t, t.ready.value).(ready := None, flag := t.flag || t.gap != [])
  }

  /** What the tick does with an assigned partition before the broker call. */
  function Collect(t: Tracker): Tracker {
    var r := if t.ready.None? then Repair(t) else t;
    if r.ready.Some? && r.ready.value.offset < r.cpo then Consume(r) else r
  }

  /** The broker accepted the commit of Ready. */
  function Acknowledge(t: Tracker): Tracker
    requires t.ready.Some?
  {
    var o := t.ready.value.offset;
    Consume(t).(cpo := Max(t.cpo, o + 1), last := Max(t.last, o))
  }

  /** What the tick does with a partition that is no longer assigned. */
  function Discard(t: Tracker): Tracker {
    if t.ready.None? && t.gap == [] then t
    else
      t.(ready := None, gap := [], flag := false,
         returned := t.returned + (if t.ready.Some? then [t.ready.value] else []) + t.gap)
  }

  // ---- rebalance ----

  function DropStaleReady(t: Tracker, baseline: int): Tracker {
    if t.ready.Some? && t.ready.value.offset < baseline
    then Return(t, t.ready.value).(ready := None) else t
  }

  function DropClosedEpoch(t: Tracker): Tracker {
    if t.assignment.Revoked? then
      t.(ready := None, gap := [],
         returned := t.returned + (if t.ready.Some? then [t.ready.value] else []) + t.gap)
    else t
  }

  function Reset(t: Tracker, baseline: int): Tracker {
    var u := DropClosedEpoch(DropStaleReady(t, baseline));
    u.(cpo := baseline, last := -1, assignment := Assigned, flag := u.gap != [])
  }

  function MarkRevoked(t: Tracker): Tracker {
    t.(assignment := Revoked)
  }

  // ---- facts about the walk ----

  /** No item above Ready (or above the baseline) disappears in the walk, and Ready never steps back. */
  lemma {:induction false} WalkKeeps(t: Tracker, buffer: seq<Item>)
    ensures var u := Walk(t, buffer);
      && u.cpo == t.cpo && u.last == t.last && u.assignment == t.assignment
      && u.flag == t.flag && u.dropped == t.dropped
      && (t.ready.Some? ==> u.ready.Some? && u.ready.value.offset >= t.ready.value.offset)
      && (forall g :: g in u.gap ==> g in buffer)
      && (forall g :: g in buffer ==>
            g in u.gap || g.offset < t.cpo || (u.ready.Some? && g.offset <= u.ready.value.offset))
    decreases |buffer|
  {
    if buffer != [] && Passes(t, buffer[0]) {
      WalkKeeps(Take(t, buffer[0]), buffer[1..]);
    }
  }

  /** The walk stopped where nothing qualifies: walking again stops at once. */
  lemma {:induction false} WalkSettles(t: Tracker, buffer: seq<Item>)
    ensures var u := Walk(t, buffer); Walk(u, u.gap) == u
    decreases |buffer|
  {
    if buffer != [] && Passes(t, buffer[0]) {
      WalkSettles(Take(t, buffer[0]), buffer[1..]);
    }
  }

  lemma {:induction false} WalkLeavesSuffix(t: Tracker, buffer: seq<Item>)
    ensures |Walk(t, buffer).gap| <= |buffer|
    ensures Walk(t, buffer).gap == buffer[|buffer| - |Walk(t, buffer).gap|..]
    decreases |buffer|
  {
    if buffer != [] && Passes(t, buffer[0]) {
      WalkLeavesSuffix(Take(t, buffer[0]), buffer[1..]);
    }
  }

  lemma {:induction false} WalkIgnoresGap(t: Tracker, gap': seq<Item>, buffer: seq<Item>)
    ensures Walk(t.(gap := gap'), buffer) == Walk(t, buffer)
    decreases |buffer|
  {
    if buffer != [] && Passes(t, buffer[0]) {
      WalkIgnoresGap(Take(t, buffer[0]), gap', buffer[1..]);
    }
  }

  // ---- the repair's parts ----

  lemma {:induction false} SuccessorProvable(gap: seq<Item>, cpo: int, last: int)
    ensures var s := Successor(gap, cpo, last);
      && (s.Some? ==> s.value in gap && Provable(s.value, cpo, last))
      && (forall g :: g in gap && Provable(g, cpo, last) ==> s.Some? && s.value.offset <= g.offset)
  {
    if gap != [] {
      SuccessorProvable(gap[..|gap| - 1], cpo, last);
    }
  }

  /** Among provable items of one offset the repair takes the one buffered first. */
  lemma {:induction false} SuccessorEarliest(gap: seq<Item>, cpo: int, last: int) returns (i: nat)
    requires Successor(gap, cpo, last).Some?
    ensures i < |gap| && gap[i] == Successor(gap, cpo, last).value
    ensures forall j :: 0 <= j < i && Provable(gap[j], cpo, last) ==> gap[j].offset > gap[i].offset
  {
    var init := gap[..|gap| - 1];
    SuccessorProvable(init, cpo, last);
    if Successor(init, cpo, last) == Successor(gap, cpo, last) {
      i := SuccessorEarliest(init, cpo, last);
    } else {
      i := |gap| - 1;
      assert forall j :: 0 <= j < i ==> gap[j] in init;
    }
  }

  lemma {:induction false} BelowMembers(gap: seq<Item>, bound: int)
    ensures forall g :: g in Below(gap, bound) <==> g in gap && g.offset < bound
  {
    if gap != [] {
      BelowMembers(gap[..|gap| - 1], bound);
      assert gap == gap[..|gap| - 1] + [gap[|gap| - 1]];
    }
  }

  lemma {:induction false} AboveMembers(gap: seq<Item>, s: Item)
    ensures forall g :: g in Above(gap, s) <==> g in gap && g.offset >= s.offset && g != s
  {
    if gap != [] {
      AboveMembers(gap[..|gap| - 1], s);
      assert gap == gap[..|gap| - 1] + [gap[|gap| - 1]];
    }
  }

  /** A second completion of the candidate's offset takes its place, and the older one is handed back. */
  lemma TwinReplaces(t: Tracker, item: Item)
    requires t.ready.Some? && t.ready.value.offset == item.offset
    ensures Arrive(t, item).ready == Some(item) && Arrive(t, item).gap == t.gap
    ensures Arrive(t, item).returned == t.returned + [t.ready.value]
  {
  }

  // ---- where the items of a step come from ----

  lemma ArriveFrame(t: Tracker, item: Item)
    ensures var u := Arrive(t, item);
      && u.last == t.last && u.cpo == RaiseBaseline(t, item).cpo >= t.cpo
      && (t.flag ==> u.flag) && (t.ready.Some? ==> u.ready.Some?)
      && (u.ready == t.ready || u.ready == Some(item))
      && (forall g :: g in u.gap ==> g in t.gap || g == item)
  {
  }

  lemma {:induction false} WalkSource(t: Tracker, buffer: seq<Item>)
    ensures Walk(t, buffer).ready == t.ready || (Walk(t, buffer).ready.Some? && Walk(t, buffer).ready.value in buffer)
    decreases |buffer|
  {
    if buffer != [] && Passes(t, buffer[0]) {
      WalkSource(Take(t, buffer[0]), buffer[1..]);
    }
  }

  lemma FlushFrame(t: Tracker, sorted: seq<Item>)
    requires Arranged(t.gap, sorted)
    ensures var u := Flush(t, sorted);
      && u.last == t.last && u.cpo == t.cpo && !u.flag
      && (forall g :: g in u.gap ==> g in t.gap)
      && (u.ready == t.ready || (u.ready.Some? && u.ready.value in t.gap))
      && (t.ready.Some? ==> u.ready.Some? && u.ready.value.offset >= t.ready.value.offset)
  {
    if t.flag && t.gap != [] {
      ArrangedMembers(t.gap, sorted);
      CompactMembers(sorted);
      WalkKeeps(t.(flag := false, dropped := t.dropped + Dropped(sorted)), Compact(sorted));
      WalkSource(t.(flag := false, dropped := t.dropped + Dropped(sorted)), Compact(sorted));
    }
  }

  lemma RepairFrame(t: Tracker)
    ensures var u := Repair(t);
      && u.last == t.last && u.cpo == t.cpo
      && (u.ready.None? ==> u == t) && (t.ready.Some? ==> u == t)
      && (t.ready.None? && u.ready.Some? ==> u.ready.value.offset >= t.cpo && u.ready.value in t.gap)
      && (forall g :: g in u.gap ==> g in t.gap)
      && (forall g :: g in t.gap ==> g in u.gap || (u.ready.Some? && g.offset <= u.ready.value.offset))
  {
    SuccessorProvable(t.gap, t.cpo, t.last);
    var s := Successor(t.gap, t.cpo, t.last);
    if Stalled(t) && s.Some? {
      AboveMembers(t.gap, s.value);
    }
  }

  lemma CollectSource(t: Tracker)
    ensures var u := Collect(t);
      && u.last == t.last && u.cpo == t.cpo && (forall g :: g in u.gap ==> g in t.gap)
      && (u.ready.Some? ==> u.ready == t.ready || u.ready.value in t.gap)
      && (u.ready.Some? ==> u.ready.value.offset >= u.cpo)
  {
    RepairFrame(t);
  }
}
