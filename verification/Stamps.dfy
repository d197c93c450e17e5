/**
  Predecessor stamping at the poll boundary: each accepted record is stamped with the offset
  accepted before it on its partition, the first one after a reset with a synthetic predecessor.
 */
module Stamps {
  import opened WorkItems

  datatype StampError = NegativeOffset | DuplicateOffset | OffsetRegression

  datatype Stamped = Stamped(prev: int, first: bool) | Rejected(error: StampError)

  /** The stamp of a record at `offset` when the partition's map entry is `entry`. */
  function Stamp(entry: Option<int>, offset: int): Stamped {
    if offset < 0 then Rejected(NegativeOffset)
    else
      match entry
      case None => Stamped(offset - 1, true)
      case Some(p) =>
        if offset > p then Stamped(p, false)
        else if offset == p then Rejected(DuplicateOffset)
        else Rejected(OffsetRegression)
  }

  /** The partition's map entry after the record was offered. */
  function EntryAfter(entry: Option<int>, offset: int): Option<int> {
    if Stamp(entry, offset).Stamped? then Some(offset) else entry
  }

  /** The entry after a whole stream of offered offsets. */
  function EntryAfterAll(entry: Option<int>, offsets: seq<int>): Option<int> {
    if offsets == [] then entry
    else EntryAfter(EntryAfterAll(entry, offsets[..|offsets| - 1]), offsets[|offsets| - 1])
  }

  /** The stamp given to the i-th offered offset after a reset. */
  function StampOf(offsets: seq<int>, i: nat): Stamped
    requires i < |offsets|
  {
    Stamp(EntryAfterAll(None, offsets[..i]), offsets[i])
  }

  /** `p` is the greatest real offset offered, and it was offered. */
  ghost predicate IsHighest(offsets: seq<int>, p: int) {
    p in offsets && p >= 0 && forall q :: q in offsets ==> q <= p
  }

  /**
    The map entry is the highest real offset offered since the reset: rejected offsets leave no
    trace, and there is no entry exactly while no real offset was offered.
   */
  lemma {:induction false} EntryIsHighest(offsets: seq<int>)
    ensures EntryAfterAll(None, offsets).None? <==> forall q :: q in offsets ==> q < 0
    ensures forall p :: EntryAfterAll(None, offsets) == Some(p) <==> IsHighest(offsets, p)
  {
    if offsets != [] {
      var init, o := offsets[..|offsets| - 1], offsets[|offsets| - 1];
      EntryIsHighest(init);
      assert offsets == init + [o];
      assert forall q :: q in offsets <==> q in init || q == o;
      var e := EntryAfterAll(None, init);
      if e.Some? {
        assert IsHighest(init, e.value);
        assert e.value in offsets;
      }
      assert o in offsets;
      var f := EntryAfterAll(None, offsets);
      if f.Some? {
        assert IsHighest(offsets, f.value);
      }
    }
  }

  /**
    The stamp chain of one partition between two resets, told from the offered stream alone. An
    offset is accepted exactly when it is real and above every offset offered before it; it is First
    exactly when no real offset came before it; otherwise its stamp is the highest earlier offset. A rejected
    one is negative, repeats the highest earlier offset, or lies below it.
   */
  lemma StampChain(offsets: seq<int>, i: nat)
    requires i < |offsets|
    ensures StampOf(offsets, i).Stamped? <==>
            offsets[i] >= 0 && forall j :: 0 <= j < i ==> offsets[j] < offsets[i]
    ensures StampOf(offsets, i).Stamped? && StampOf(offsets, i).first <==>
            offsets[i] >= 0 && forall j :: 0 <= j < i ==> offsets[j] < 0
    ensures StampOf(offsets, i).Stamped? && !StampOf(offsets, i).first ==>
            IsHighest(offsets[..i], StampOf(offsets, i).prev)
    ensures StampOf(offsets, i).Stamped? ==> StampOf(offsets, i).prev < offsets[i]
    ensures StampOf(offsets, i) == Rejected(NegativeOffset) <==> offsets[i] < 0
    ensures StampOf(offsets, i) == Rejected(DuplicateOffset) <==> IsHighest(offsets[..i], offsets[i])
    ensures StampOf(offsets, i) == Rejected(OffsetRegression) <==>
            offsets[i] >= 0 && exists j :: 0 <= j < i && offsets[j] > offsets[i]
  {
    var head := offsets[..i];
    EntryIsHighest(head);
    assert forall j :: 0 <= j < i ==> offsets[j] == head[j] && offsets[j] in head;
    var e := EntryAfterAll(None, head);
    if e.Some? {
      assert IsHighest(head, e.value);
      var k :| 0 <= k < |head| && head[k] == e.value;
      assert offsets[k] == e.value;
    }
  }

  /** Two accepted records with none accepted in between are linked by the later one's stamp. */
  lemma StampsLink(offsets: seq<int>, i: nat, j: nat)
    requires i < j < |offsets|
    requires StampOf(offsets, i).Stamped? && StampOf(offsets, j).Stamped?
    requires forall k :: i < k < j ==> StampOf(offsets, k).Rejected?
    ensures !StampOf(offsets, j).first && StampOf(offsets, j).prev == offsets[i]
  {
    assert offsets[..i + 1] == offsets[..i] + [offsets[i]];
    EntryHolds(offsets, i + 1, j, offsets[i]);
  }

  lemma {:induction false} EntryHolds(offsets: seq<int>, i: nat, j: nat, p: int)
    requires i <= j <= |offsets|
    requires EntryAfterAll(None, offsets[..i]) == Some(p)
    requires forall k :: i <= k < j ==> StampOf(offsets, k).Rejected?
    ensures EntryAfterAll(None, offsets[..j]) == Some(p)
    decreases j - i
  {
    if i < j {
      assert offsets[..i + 1][..i] == offsets[..i];
      assert StampOf(offsets, i).Rejected?;
      EntryHolds(offsets, i + 1, j, p);
    }
  }

  function Lookup(m: map<int, int>, partition: int): Option<int> {
    if partition in m then Some(m[partition]) else None
  }

  /** The per-partition map the poll loop stamps from. */
  class PartitionOffsets {
    var prevOffsets: map<int, int>

    constructor ()
      ensures prevOffsets == map[]
    {
      prevOffsets := map[];
    }

    method GetPrevious(partition: int, offset: int) returns (r: Stamped)
      modifies this
      ensures r == Stamp(Lookup(old(prevOffsets), partition), offset)
      ensures Lookup(prevOffsets, partition) == EntryAfter(Lookup(old(prevOffsets), partition), offset)
      ensures forall p :: p != partition ==> Lookup(prevOffsets, p) == Lookup(old(prevOffsets), p)
    {
      if offset < 0 {
        return Rejected(NegativeOffset);
      }
      if partition in prevOffsets && offset > prevOffsets[partition] {
        r := Stamped(prevOffsets[partition], false);
        prevOffsets := prevOffsets[partition := offset];
        return;
      } else if partition !in prevOffsets {
        prevOffsets := prevOffsets[partition := offset];
        return Stamped(offset - 1, true);
      }
      if offset == prevOffsets[partition] {
        return Rejected(DuplicateOffset);
      }
      return Rejected(OffsetRegression);
    }

    /** Forget the given partitions, or every partition when none is named. */
    method Reset(partitions: seq<int>)
      modifies this
      ensures prevOffsets == AfterReset(old(prevOffsets), partitions)
    {
      if |partitions| == 0 {
        prevOffsets := map[];
        return;
      }
      ghost var before := prevOffsets;
      for i := 0 to |partitions|
        invariant prevOffsets == before - (set p | p in partitions[..i])
      {
        prevOffsets := prevOffsets - {partitions[i]};
        assert partitions[..i + 1] == partitions[..i] + [partitions[i]];
      }
      assert partitions[..|partitions|] == partitions;
    }
  }

  function AfterReset(m: map<int, int>, partitions: seq<int>): map<int, int> {
    if partitions == [] then map[] else m - (set p | p in partitions)
  }

  lemma EmptyOrInhabited(m: map<int, int>)
    ensures m == map[] || exists p :: p in m
  {
    if forall p :: p !in m {
      assert m == map[];
    }
  }

  /**
    An assign clears the stamps of exactly the partitions it names, unless it names none while some
    partition has a stamp: then it clears partitions whose commit baseline it does not reset.
   */
  lemma AssignClearsOnlyItsPartitions(m: map<int, int>, partitions: seq<int>)
    ensures (forall p :: p in m && p !in AfterReset(m, partitions) ==> p in partitions) <==>
            partitions != [] || m == map[]
  {
    if partitions == [] && m != map[] {
      EmptyOrInhabited(m);
      var p :| p in m;
      assert p !in AfterReset(m, partitions) && p !in partitions;
    }
  }
}
