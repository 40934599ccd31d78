/** Versions and epochs count what happened: what they fence off, and for how long. */
module Fencing {
  import opened MetaTypes
  import opened Store

  const TURN32 := 0x1_0000_0000
  const TURN64 := 0x1_0000_0000_0000_0000

  /** A 32-bit counter, started at `e`, after `n` increments. */
  function Ticked32(e: int32, n: nat): int32 { if n == 0 then e else Next32(Ticked32(e, n - 1)) }

  function Ticked64(v: int64, n: nat): int64 { if n == 0 then v else Next64(Ticked64(v, n - 1)) }

  /** Within one turn the counter is the sum, or the sum less a turn. */
  lemma {:induction false} Ticked32Within(e: int32, n: nat)
    requires n < TURN32
    ensures Ticked32(e, n) == if e + n < TURN32 / 2 then e + n else e + n - TURN32
  {
    if n > 0 {
      Ticked32Within(e, n - 1);
    }
  }

  lemma {:induction false} Ticked64Within(v: int64, n: nat)
    requires n < TURN64
    ensures Ticked64(v, n) == if v + n < TURN64 / 2 then v + n else v + n - TURN64
  {
    if n > 0 {
      Ticked64Within(v, n - 1);
    }
  }

  /** A counter shows its first value again only after a full turn. */
  lemma FullTurn32(e: int32, n: nat)
    requires Ticked32(e, n) == e && 0 < n
    ensures n >= TURN32
  {
    if n < TURN32 {
      Ticked32Within(e, n);
    }
  }

  lemma FullTurn64(v: int64, n: nat)
    requires Ticked64(v, n) == v && 0 < n
    ensures n >= TURN64
  {
    if n < TURN64 {
      Ticked64Within(v, n);
    }
  }

  // ----- the version counter -----

  /** How many of the commands from the `i`-th to the `j`-th changed the state. */
  ghost function Changes(s: MetaState, cmds: seq<Command>, i: nat, j: nat): nat
    requires i <= j <= |cmds|
    decreases j
  {
    if i == j then 0
    else Changes(s, cmds, i, j - 1) + (if At(s, cmds, j) != At(s, cmds, j - 1) then 1 else 0)
  }

  lemma StepVersion(s: MetaState, c: Command)
    ensures Apply(s, c) == s || Apply(s, c).version == Next64(s.version)
  {
  }

  /** From `x` to `y` the version counts one more change, or there is none. */
  predicate CountsOn(x: MetaState, y: MetaState) { y == x || y.version == Next64(x.version) }

  lemma NextVersion(s: MetaState, cmds: seq<Command>, j: nat)
    requires 0 < j <= |cmds|
    ensures CountsOn(At(s, cmds, j - 1), At(s, cmds, j))
  {
    StepVersion(At(s, cmds, j - 1), cmds[j - 1]);
  }

  lemma CountedOn(v: int64, n: nat, x: MetaState, y: MetaState)
    requires x.version == Ticked64(v, n) && CountsOn(x, y)
    ensures y.version == Ticked64(v, n + if y != x then 1 else 0)
  {
  }

  /** The version counts the commands that changed the state. */
  lemma {:induction false} VersionCounts(s: MetaState, cmds: seq<Command>, i: nat, j: nat)
    requires i <= j <= |cmds|
    ensures At(s, cmds, j).version == Ticked64(At(s, cmds, i).version, Changes(s, cmds, i, j))
    ensures Changes(s, cmds, i, j) <= j - i
    decreases j
  {
    if i < j {
      VersionCounts(s, cmds, i, j - 1);
      NextVersion(s, cmds, j);
      CountedOn(At(s, cmds, i).version, Changes(s, cmds, i, j - 1), At(s, cmds, j - 1), At(s, cmds, j));
    }
  }

  lemma {:induction false} NoChanges(s: MetaState, cmds: seq<Command>, i: nat, j: nat)
    requires i <= j <= |cmds| && Changes(s, cmds, i, j) == 0
    ensures At(s, cmds, j) == At(s, cmds, i)
    decreases j
  {
    if i < j {
      NoChanges(s, cmds, i, j - 1);
    }
  }

  /** Within a run, equal versions mean equal states, until the counter has gone all the way round. */
  lemma EqualVersionsEqualStates(s: MetaState, cmds: seq<Command>, i: nat, j: nat)
    requires i <= j <= |cmds| && j - i < TURN64 && At(s, cmds, i).version == At(s, cmds, j).version
    ensures At(s, cmds, i) == At(s, cmds, j)
  {
    VersionCounts(s, cmds, i, j);
    if Changes(s, cmds, i, j) == 0 {
      NoChanges(s, cmds, i, j);
    } else {
      FullTurn64(At(s, cmds, i).version, Changes(s, cmds, i, j));
    }
  }

  // ----- epochs over the life of a topic -----

  /** Command `l` neither creates nor deletes topic `id`. */
  predicate Spares(s: MetaState, cmds: seq<Command>, l: nat, id: TopicID)
    requires l < |cmds|
  {
    && (cmds[l].DeleteTopic? ==> cmds[l].topicID != id)
    && (cmds[l].CreateTopic? ==> cmds[l].topicID != id || cmds[l].name in At(s, cmds, l).byName)
  }

  /** Topic `id` lives on from the `i`-th state to the `j`-th. */
  ghost predicate Lives(s: MetaState, cmds: seq<Command>, i: nat, j: nat, id: TopicID)
    requires i <= j <= |cmds|
  {
    forall l {:trigger Spares(s, cmds, l, id)} :: i <= l < j ==> Spares(s, cmds, l, id)
  }

  /** Command `l` is an update of partition `k` that takes effect. */
  predicate AcceptedAt(s: MetaState, cmds: seq<Command>, l: nat, k: PartitionKey)
    requires l < |cmds|
  {
    cmds[l].UpdatePartition? && cmds[l].key == k && Accepts(At(s, cmds, l), cmds[l])
  }

  predicate LeaderChangedAt(s: MetaState, cmds: seq<Command>, l: nat, k: PartitionKey)
    requires l < |cmds|
  {
    AcceptedAt(s, cmds, l, k) && cmds[l].newLeader != At(s, cmds, l).partitions[k].leader
  }

  ghost function Accepted(s: MetaState, cmds: seq<Command>, i: nat, j: nat, k: PartitionKey): nat
    requires i <= j <= |cmds|
    decreases j
  {
    if i == j then 0 else Accepted(s, cmds, i, j - 1, k) + (if AcceptedAt(s, cmds, j - 1, k) then 1 else 0)
  }

  ghost function LeaderChanges(s: MetaState, cmds: seq<Command>, i: nat, j: nat, k: PartitionKey): nat
    requires i <= j <= |cmds|
    decreases j
  {
    if i == j then 0 else LeaderChanges(s, cmds, i, j - 1, k) + (if LeaderChangedAt(s, cmds, j - 1, k) then 1 else 0)
  }

  /** What one command does to a partition whose topic it spares. */
  lemma SparedStep(s: MetaState, cmds: seq<Command>, l: nat, k: PartitionKey)
    requires l < |cmds| && k in At(s, cmds, l).partitions && Spares(s, cmds, l, k.topicID)
    ensures var p := At(s, cmds, l).partitions[k];
      && k in At(s, cmds, l + 1).partitions
      && At(s, cmds, l + 1).partitions[k] == if AcceptedAt(s, cmds, l, k) then Updated(p, cmds[l]) else p
  {
    var t, c := At(s, cmds, l), cmds[l];
    assert At(s, cmds, l + 1) == Apply(t, c);
    if c.CreateTopic? && c.name !in t.byName {
      WithPartitionsAt(t.partitions, c.topicID, RowsOf(t, c), c.numPartitions, k);
    }
    if c.DeleteTopic? && c.topicID in t.topics {
      WithoutPartitionsAt(t.partitions, c.topicID, t.topics[c.topicID].numPartitions, k);
    }
  }

  /** Over the life of its topic a partition keeps its replicas; its partition epoch counts the updates that
      took effect and its leader epoch those that changed the leader, both in 32-bit arithmetic. */
  lemma {:induction false} EpochsCount(s: MetaState, cmds: seq<Command>, i: nat, j: nat, k: PartitionKey)
    requires i <= j <= |cmds| && Lives(s, cmds, i, j, k.topicID) && k in At(s, cmds, i).partitions
    ensures k in At(s, cmds, j).partitions
    ensures var p, q := At(s, cmds, i).partitions[k], At(s, cmds, j).partitions[k];
      && q.replicas == p.replicas
      && q.partitionEpoch == Ticked32(p.partitionEpoch, Accepted(s, cmds, i, j, k))
      && q.leaderEpoch == Ticked32(p.leaderEpoch, LeaderChanges(s, cmds, i, j, k))
    ensures LeaderChanges(s, cmds, i, j, k) <= Accepted(s, cmds, i, j, k) <= j - i
    decreases j
  {
    if i < j {
      EpochsCount(s, cmds, i, j - 1, k);
      assert Spares(s, cmds, j - 1, k.topicID);
      SparedStep(s, cmds, j - 1, k);
    }
  }

  lemma {:induction false} NoneAccepted(s: MetaState, cmds: seq<Command>, i: nat, j: nat, k: PartitionKey)
    requires i <= j <= |cmds| && Lives(s, cmds, i, j, k.topicID) && k in At(s, cmds, i).partitions
    ensures k in At(s, cmds, j).partitions
    ensures Accepted(s, cmds, i, j, k) == 0 ==> At(s, cmds, j).partitions[k] == At(s, cmds, i).partitions[k]
    ensures LeaderChanges(s, cmds, i, j, k) == 0 ==>
      At(s, cmds, j).partitions[k].leader == At(s, cmds, i).partitions[k].leader
    decreases j
  {
    if i < j {
      NoneAccepted(s, cmds, i, j - 1, k);
      assert Spares(s, cmds, j - 1, k.topicID);
      SparedStep(s, cmds, j - 1, k);
    }
  }

  lemma {:induction false} AcceptedGrows(s: MetaState, cmds: seq<Command>, i: nat, j: nat, j': nat, k: PartitionKey)
    requires i <= j <= j' <= |cmds|
    ensures Accepted(s, cmds, i, j, k) <= Accepted(s, cmds, i, j', k)
    decreases j'
  {
    if j < j' {
      AcceptedGrows(s, cmds, i, j, j' - 1, k);
    }
  }

  /** Of all updates of one partition with the same ExpectedEpoch, at most one takes effect, unless at least
      2^32 updates take effect from one to the other. */
  lemma OneWinnerPerEpoch(s: MetaState, cmds: seq<Command>, i: nat, j: nat, k: PartitionKey)
    requires i < j < |cmds| && Lives(s, cmds, i, j, k.topicID)
    requires AcceptedAt(s, cmds, i, k) && AcceptedAt(s, cmds, j, k) && cmds[i].expectedEpoch == cmds[j].expectedEpoch
    ensures Accepted(s, cmds, i, j, k) >= TURN32
  {
    EpochsCount(s, cmds, i, j, k);
    AcceptedGrows(s, cmds, i, i + 1, j, k);
    FullTurn32(cmds[i].expectedEpoch, Accepted(s, cmds, i, j, k));
  }

  /** Equal leader epochs mean equal leaders, unless the leader changed at least 2^32 times in between. */
  lemma EqualLeaderEpochsEqualLeaders(s: MetaState, cmds: seq<Command>, i: nat, j: nat, k: PartitionKey)
    requires i <= j <= |cmds| && Lives(s, cmds, i, j, k.topicID) && k in At(s, cmds, i).partitions
    requires LeaderChanges(s, cmds, i, j, k) < TURN32
    ensures k in At(s, cmds, j).partitions
    ensures var p, q := At(s, cmds, i).partitions[k], At(s, cmds, j).partitions[k];
      p.leaderEpoch == q.leaderEpoch ==> p.leader == q.leader
  {
    EpochsCount(s, cmds, i, j, k);
    NoneAccepted(s, cmds, i, j, k);
    var p, q := At(s, cmds, i).partitions[k], At(s, cmds, j).partitions[k];
    if p.leaderEpoch == q.leaderEpoch && LeaderChanges(s, cmds, i, j, k) > 0 {
      FullTurn32(p.leaderEpoch, LeaderChanges(s, cmds, i, j, k));
    }
  }

  lemma BornWith(s: MetaState, c: Command, k: PartitionKey)
    requires c.CreateTopic? && c.topicID == k.topicID && c.name !in s.byName && 0 <= k.partitionID < c.numPartitions
    ensures k in Create(s, c).partitions
    ensures Create(s, c).partitions[k] == NewPartition(k.topicID, k.partitionID, RowsOf(s, c))
  {
    WithPartitionsAt(s.partitions, c.topicID, RowsOf(s, c), c.numPartitions, k);
  }

  /** Command `i` creates partition `k`. */
  predicate BornAt(s: MetaState, cmds: seq<Command>, i: nat, k: PartitionKey) {
    && i < |cmds| && cmds[i].CreateTopic? && cmds[i].topicID == k.topicID && cmds[i].name !in At(s, cmds, i).byName
    && 0 <= k.partitionID < cmds[i].numPartitions
  }

  lemma BornAtZero(s: MetaState, cmds: seq<Command>, i: nat, k: PartitionKey)
    requires BornAt(s, cmds, i, k)
    ensures k in At(s, cmds, i + 1).partitions
    ensures var p := At(s, cmds, i + 1).partitions[k]; p.partitionEpoch == 0 && p.leaderEpoch == 0
  {
    BornWith(At(s, cmds, i), cmds[i], k);
    assert At(s, cmds, i + 1) == Create(At(s, cmds, i), cmds[i]);
  }

  /** From the create on, both epochs are the plain counts, in 32-bit arithmetic. */
  lemma EpochsFromBirth(s: MetaState, cmds: seq<Command>, i: nat, j: nat, k: PartitionKey)
    requires BornAt(s, cmds, i, k) && i < j <= |cmds| && Lives(s, cmds, i + 1, j, k.topicID)
    ensures k in At(s, cmds, j).partitions
    ensures var q := At(s, cmds, j).partitions[k];
      && q.partitionEpoch == Ticked32(0, Accepted(s, cmds, i + 1, j, k))
      && q.leaderEpoch == Ticked32(0, LeaderChanges(s, cmds, i + 1, j, k))
  {
    BornAtZero(s, cmds, i, k);
    EpochsCount(s, cmds, i + 1, j, k);
  }

  /** And the replicas are forever those the allocator chose. */
  lemma ReplicasFromBirth(s: MetaState, cmds: seq<Command>, i: nat, j: nat, k: PartitionKey)
    requires BornAt(s, cmds, i, k) && i < j <= |cmds| && Lives(s, cmds, i + 1, j, k.topicID)
    ensures k in At(s, cmds, j).partitions
    ensures var rows := RowsOf(At(s, cmds, i), cmds[i]);
      At(s, cmds, j).partitions[k].replicas == if k.partitionID < |rows| then rows[k.partitionID] else []
  {
    BornWith(At(s, cmds, i), cmds[i], k);
    assert At(s, cmds, i + 1) == Create(At(s, cmds, i), cmds[i]);
    EpochsCount(s, cmds, i + 1, j, k);
  }
}
