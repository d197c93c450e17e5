/** The rebalance handler: what an event does to stamps, commit baselines and ownership, and in what order. */
module Rebalance {
  import opened WorkItems
  import opened Stamps
  import opened PartitionTracker
  import opened Committer

  datatype Kind = Assign | Revoke | Unknown(code: int)

  datatype Info = Info(topic: string, partition: int, committed: int)

  datatype Error = ForeignTopic(topic: string) | AckFailed | UnsupportedType(code: int)

  /** What was in place when the broker was answered. */
  datatype Ack = Ack(stamps: map<int, int>, owned: set<int>, trackers: map<int, Tracker>)

  /** How the revoke's drain ended; the final commit carries the broker's answer. */
  datatype DrainEnd = Drained(accepted: bool) | CommitterTimedOut(accepted: bool) | WorkersTimedOut

  /** An event entry of another topic; an empty topic is unspecified. */
  predicate IsForeign(info: Info, topic: string) {
    info.topic != "" && info.topic != topic
  }

  function PartitionsOf(info: seq<Info>): seq<int> {
    seq(|info|, i requires 0 <= i < |info| => info[i].partition)
  }

  function Named(info: seq<Info>): set<int> {
    set i | 0 <= i < |info| :: info[i].partition
  }

  /** The baseline of each named partition; the last entry of a partition wins. */
  function BaselinesOf(info: seq<Info>): map<int, int> {
    if info == [] then map[]
    else BaselinesOf(info[..|info| - 1])[info[|info| - 1].partition := info[|info| - 1].committed]
  }

  /** A named partition's baseline is the one in its last entry. */
  lemma {:induction false} LastBaselineWins(info: seq<Info>, i: nat)
    requires i < |info| && forall j :: i < j < |info| ==> info[j].partition != info[i].partition
    ensures info[i].partition in BaselinesOf(info) && BaselinesOf(info)[info[i].partition] == info[i].committed
  {
    if i < |info| - 1 {
      LastBaselineWins(info[..|info| - 1], i);
    }
  }

  lemma {:induction false} BaselinesAreNamed(info: seq<Info>)
    ensures forall p :: p in BaselinesOf(info) <==> p in PartitionsOf(info)
  {
    if info != [] {
      var init, q := info[..|info| - 1], info[|info| - 1].partition;
      BaselinesAreNamed(init);
      assert PartitionsOf(info) == PartitionsOf(init) + [q];
    }
  }

  /**
    The order of the assign handler relies on every forgotten stamp having its baseline reset with it.
    That holds exactly when the event names a partition or there was no stamp to forget.
   */
  lemma ForgottenStampsAreRestarted(m: map<int, int>, info: seq<Info>)
    ensures (forall p :: p in m && p !in AfterReset(m, PartitionsOf(info)) ==> p in BaselinesOf(info)) <==>
            info != [] || m == map[]
  {
    BaselinesAreNamed(info);
    AssignClearsOnlyItsPartitions(m, PartitionsOf(info));
  }

  ghost function RevokedIn(m: map<int, Tracker>, parts: set<int>): map<int, Tracker> {
    map p | p in m :: if p in parts then MarkRevoked(m[p]) else m[p]
  }

  lemma NamedSnoc(info: seq<Info>, i: nat)
    requires i < |info|
    ensures Named(info[..i + 1]) == Named(info[..i]) + {info[i].partition}
  {
    forall p | p in Named(info[..i + 1])
      ensures p in Named(info[..i]) + {info[i].partition}
    {
      var k :| 0 <= k < i + 1 && info[..i + 1][k].partition == p;
      if k < i {
        assert info[..i][k].partition == p;
      }
    }
    forall p | p in Named(info[..i]) + {info[i].partition}
      ensures p in Named(info[..i + 1])
    {
      if p in Named(info[..i]) {
        var k :| 0 <= k < i && info[..i][k].partition == p;
        assert info[..i + 1][k].partition == p;
      } else {
        assert info[..i + 1][i].partition == p;
      }
    }
  }

  lemma RevokedInSnoc(m: map<int, Tracker>, parts: set<int>, p: int)
    ensures RevokedIn(m, parts + {p}) ==
            if p in m then RevokedIn(m, parts)[p := MarkRevoked(RevokedIn(m, parts)[p])] else RevokedIn(m, parts)
  {
  }

  /** `u` is what a commit tick with this answer makes of `t`. */
  ghost predicate CommittedTo(t: Tracker, owned: bool, accepted: bool, u: Tracker) {
    exists f :: FlushedTo(t, f) && u == Ticked(f, owned, accepted)
  }

  /** Every partition after the drain: through a commit tick, or untouched when the workers timed out. */
  ghost predicate DrainedTo(m: map<int, Tracker>, owned: set<int>, drain: DrainEnd, m': map<int, Tracker>) {
    if drain.WorkersTimedOut? then m' == m
    else m'.Keys == m.Keys && forall p :: p in m ==> CommittedTo(m[p], p in owned, drain.accepted, m'[p])
  }

  class Subscription {
    const topic: string
    const stamps: PartitionOffsets
    const committer: Committer
    var signalAssigned: bool
    var tripped: bool
    ghost var acks: seq<Ack>

    constructor (topic: string, stamps: PartitionOffsets, committer: Committer)
      ensures this.topic == topic && this.stamps == stamps && this.committer == committer
      ensures acks == [] && !tripped && !signalAssigned
    {
      this.topic, this.stamps, this.committer := topic, stamps, committer;
      signalAssigned, tripped, acks := false, false, [];
    }

    /** The one-slot assigned signal, and a failed drain's trip. */
    method Note(signal: bool, trips: bool)
      requires committer.Valid()
      modifies this`signalAssigned, this`tripped
      ensures committer.Valid() && committer.Views() == old(committer.Views())
      ensures signalAssigned == signal && tripped == (old(tripped) || trips)
    {
      signalAssigned := signal;
      tripped := tripped || trips;
    }

    method FindForeign(info: seq<Info>) returns (foreign: Option<string>)
      ensures foreign.None? <==> forall i :: 0 <= i < |info| ==> info[i].topic == "" || info[i].topic == topic
      ensures foreign.Some? ==>
                exists i :: 0 <= i < |info| && IsForeign(info[i], topic) && info[i].topic == foreign.value
    {
      for i := 0 to |info|
        invariant forall k :: 0 <= k < i ==> !IsForeign(info[k], topic)
      {
        if info[i].topic != "" && info[i].topic != topic {
          return Some(info[i].topic);
        }
      }
      return None;
    }

    method ResetFirstSeen(info: seq<Info>)
      requires committer.Valid()
      modifies stamps
      ensures committer.Valid() && committer.Views() == old(committer.Views())
      ensures stamps.prevOffsets == AfterReset(old(stamps.prevOffsets), PartitionsOf(info))
    {
      stamps.Reset(PartitionsOf(info));
    }

    method BaselineMap(info: seq<Info>) returns (m: map<int, int>)
      ensures m == BaselinesOf(info)
    {
      m := map[];
      for i := 0 to |info|
        invariant m == BaselinesOf(info[..i])
      {
        m := m[info[i].partition := info[i].committed];
        assert info[..i + 1][..i] == info[..i];
      }
      assert info[..|info|] == info;
    }

    method MarkAllAssigned(info: seq<Info>)
      requires committer.Valid()
      modifies committer`owned
      ensures committer.Valid() && committer.Views() == old(committer.Views())
      ensures committer.owned == old(committer.owned) + Named(info)
    {
      for i := 0 to |info|
        invariant committer.Valid() && committer.Views() == old(committer.Views())
        invariant committer.owned == old(committer.owned) + Named(info[..i])
      {
        committer.MarkPartitionAssigned(info[i].partition);
        NamedSnoc(info, i);
      }
      assert info[..|info|] == info;
    }

    method RestartAndMark(info: seq<Info>)
      requires committer.Valid()
      modifies committer, committer.partitionMap.Values
      ensures committer.Valid()
      ensures committer.Views() == Restarted(old(committer.Views()), BaselinesOf(info), BaselinesOf(info).Keys)
      ensures committer.owned == old(committer.owned) + Named(info)
    {
      var baselines := BaselineMap(info);
      committer.ResetCommittedOffsets(baselines);
      MarkAllAssigned(info);
    }

    /** The drain's final commit, run unless the workers did not finish in time. */
    method FinalCommit(drain: DrainEnd)
      requires committer.Valid()
      modifies committer`totalProcessed, committer`collected, committer.partitionMap.Values
      ensures committer.Valid() && DrainedTo(old(committer.Views()), committer.owned, drain, committer.Views())
    {
      ghost var start := committer.Views();
      if !drain.WorkersTimedOut? {
        var _, _, flushed := committer.CommitOffsets(true, drain.accepted);
        forall p | p in start
          ensures CommittedTo(start[p], p in committer.owned, drain.accepted, committer.Views()[p])
        {
          assert p in flushed;
        }
      }
    }

    method MarkAllRevoked(info: seq<Info>)
      requires committer.Valid()
      modifies committer`owned, committer.partitionMap.Values
      ensures committer.Valid() && committer.Views() == RevokedIn(old(committer.Views()), Named(info))
      ensures committer.owned == old(committer.owned) - Named(info)
    {
      for i := 0 to |info|
        invariant committer.Valid() && committer.Views() == RevokedIn(old(committer.Views()), Named(info[..i]))
        invariant committer.owned == old(committer.owned) - Named(info[..i])
      {
        RevokedInSnoc(old(committer.Views()), Named(info[..i]), info[i].partition);
        NamedSnoc(info, i);
        committer.MarkPartitionRevoked(info[i].partition);
      }
      assert info[..|info|] == info;
    }

    method Acknowledge(succeeds: bool) returns (err: Option<Error>)
      requires committer.Valid()
      modifies this`acks
      ensures committer.Valid() && committer.Views() == old(committer.Views())
      ensures acks == old(acks) + [Ack(stamps.prevOffsets, committer.owned, committer.Views())]
      ensures err == if succeeds then None else Some(AckFailed)
    {
      acks := acks + [Ack(stamps.prevOffsets, committer.owned, committer.Views())];
      err := if succeeds then None else Some(AckFailed);
    }

    /**
      Assign: stamps forgotten, baselines reset and partitions marked, all before the acknowledgement.
      The stamps forgotten are those of the named partitions, or all of them when none is named, while
      baselines are reset for the named ones only.
     */
    method HandleAssign(info: seq<Info>, ackSucceeds: bool) returns (err: Option<Error>)
      requires committer.Valid()
      modifies this, stamps, committer, committer.partitionMap.Values
      ensures committer.Valid() && signalAssigned && tripped == old(tripped)
      ensures stamps.prevOffsets == AfterReset(old(stamps.prevOffsets), PartitionsOf(info))
      ensures committer.Views() == Restarted(old(committer.Views()), BaselinesOf(info), BaselinesOf(info).Keys)
      ensures committer.owned == old(committer.owned) + Named(info)
      ensures acks == old(acks) + [Ack(stamps.prevOffsets, committer.owned, committer.Views())]
      ensures err == if ackSucceeds then None else Some(AckFailed)
    {
      Note(true, false);
      ResetFirstSeen(info);
      RestartAndMark(info);
      err := Acknowledge(ackSucceeds);
    }

    /**
      Revoke: the drain's final commit, then every named partition unmarked and its tracker stamped
      revoked, then the acknowledgement. A failed drain trips the breaker and does not stop the rest.
     */
    method HandleRevoke(info: seq<Info>, drain: DrainEnd, ackSucceeds: bool)
        returns (err: Option<Error>, ghost drained: map<int, Tracker>)
      requires committer.Valid()
      modifies this, committer, committer.partitionMap.Values
      ensures committer.Valid() && !signalAssigned && tripped == (old(tripped) || !drain.Drained?)
      ensures DrainedTo(old(committer.Views()), old(committer.owned), drain, drained)
      ensures committer.Views() == RevokedIn(drained, Named(info))
      ensures committer.owned == old(committer.owned) - Named(info)
      ensures acks == old(acks) + [Ack(stamps.prevOffsets, committer.owned, committer.Views())]
      ensures err == if ackSucceeds then None else Some(AckFailed)
    {
      Note(false, false);
      FinalCommit(drain);
      drained := committer.Views();
      Note(false, !drain.Drained?);
      MarkAllRevoked(info);
      err := Acknowledge(ackSucceeds);
    }

    /** A foreign topic rejects the whole event and trips; an unknown type is only an error. */
    method HandleRebalance(kind: Kind, info: seq<Info>, drain: DrainEnd, ackSucceeds: bool)
        returns (err: Option<Error>, ghost drained: map<int, Tracker>)
      requires committer.Valid()
      modifies this, stamps, committer, committer.partitionMap.Values
      ensures committer.Valid()
      ensures err.Some? && err.value.ForeignTopic? <==>
                exists i :: 0 <= i < |info| && info[i].topic != "" && info[i].topic != topic
      ensures err.Some? && !err.value.AckFailed? ==>
                && stamps.prevOffsets == old(stamps.prevOffsets) && committer.Views() == old(committer.Views())
                && committer.owned == old(committer.owned) && acks == old(acks)
      ensures tripped == (old(tripped) || (err.Some? && err.value.ForeignTopic?)
                          || (kind.Revoke? && !drain.Drained? && !(err.Some? && err.value.ForeignTopic?)))
      ensures err.None? || err.value.AckFailed? ==>
                !kind.Unknown? && acks == old(acks) + [Ack(stamps.prevOffsets, committer.owned, committer.Views())]
      ensures (err.None? || err.value.AckFailed?) && kind.Assign? ==>
                && committer.owned == old(committer.owned) + Named(info)
                && stamps.prevOffsets == AfterReset(old(stamps.prevOffsets), PartitionsOf(info))
                && committer.Views() == Restarted(old(committer.Views()), BaselinesOf(info), BaselinesOf(info).Keys)
      ensures (err.None? || err.value.AckFailed?) && kind.Revoke? ==>
                && committer.owned == old(committer.owned) - Named(info)
                && stamps.prevOffsets == old(stamps.prevOffsets)
                && DrainedTo(old(committer.Views()), old(committer.owned), drain, drained)
                && committer.Views() == RevokedIn(drained, Named(info))
    {
      var foreign := FindForeign(info);
      if foreign.Some? {
        tripped := true;
        return Some(ForeignTopic(foreign.value)), committer.Views();
      }
      drained := committer.Views();
      match kind {
        case Assign =>
          err := HandleAssign(info, ackSucceeds);
        case Revoke =>
          err, drained := HandleRevoke(info, drain, ackSucceeds);
        case Unknown(code) =>
          err := Some(UnsupportedType(code));
      }
    }
  }
}
