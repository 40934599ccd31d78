/** What the commands leave in the store, field by field, and what stays over the life of a topic. */
module Lives {
  import opened MetaTypes
  import opened Assignment
  import opened Store
  import opened Fencing
  import Allocation

  // ----- which commands take effect -----

  /** The cluster has no ID yet, the name is free, the topic exists, or the partition exists at the expected epoch. */
  predicate TakesEffect(s: MetaState, c: Command) {
    match c
    case ClusterInit(_) => s.clusterID == ""
    case CreateTopic(_, name, _, _, _, _, _) => name !in s.byName
    case DeleteTopic(id) => id in s.topics
    case UpdatePartition(key, _, _, expected, _) => key in s.partitions && s.partitions[key].partitionEpoch == expected
  }

  /** A command that takes effect moves the version on by one, and any other changes nothing. */
  lemma VersionMovesIff(s: MetaState, c: Command)
    ensures if TakesEffect(s, c) then Apply(s, c).version == Next64(s.version) else Apply(s, c) == s
  {
  }

  // ----- the cluster ID -----

  /** Command `l` is the first that gives the cluster an ID. */
  predicate FirstNaming(cmds: seq<Command>, l: nat) {
    && l < |cmds| && cmds[l].ClusterInit? && cmds[l].clusterID != ""
    && forall i :: 0 <= i < l && cmds[i].ClusterInit? ==> cmds[i].clusterID == ""
  }

  /** The first ID given is the cluster's for good, whatever else happens; without one it has none. */
  lemma {:induction false} FirstIDStays(cmds: seq<Command>, j: nat)
    requires j <= |cmds|
    ensures forall l: nat {:trigger FirstNaming(cmds, l)} :: FirstNaming(cmds, l) ==>
      At(EMPTY, cmds, j).clusterID == if l < j then cmds[l].clusterID else ""
    ensures (forall l: nat {:trigger FirstNaming(cmds, l)} :: l < j ==> !FirstNaming(cmds, l)) ==>
      At(EMPTY, cmds, j).clusterID == ""
  {
    if j > 0 {
      FirstIDStays(cmds, j - 1);
      IDStep(At(EMPTY, cmds, j - 1), cmds[j - 1]);
      if At(EMPTY, cmds, j - 1).clusterID == "" && cmds[j - 1].ClusterInit? && cmds[j - 1].clusterID != "" {
        NoneBefore(cmds, j - 1);
        assert FirstNaming(cmds, j - 1);
      }
    }
  }

  lemma IDStep(s: MetaState, c: Command)
    ensures Apply(s, c).clusterID == if s.clusterID == "" && c.ClusterInit? then c.clusterID else s.clusterID
  {
  }

  /** As long as the cluster has no ID nobody has given one. */
  lemma {:induction false} NoneBefore(cmds: seq<Command>, j: nat)
    requires j <= |cmds| && At(EMPTY, cmds, j).clusterID == ""
    ensures forall i :: 0 <= i < j && cmds[i].ClusterInit? ==> cmds[i].clusterID == ""
  {
    if j > 0 {
      IDStep(At(EMPTY, cmds, j - 1), cmds[j - 1]);
      NoneBefore(cmds, j - 1);
    }
  }

  // ----- one update -----

  /** An accepted update installs its leader and ISR, offline exactly without a leader, keeps the replicas, and touches
      no other partition and nothing else but the version. */
  lemma UpdateInstalls(s: MetaState, c: Command, k: PartitionKey)
    requires c.UpdatePartition? && TakesEffect(s, c)
    ensures var s' := Apply(s, c);
      && s'.clusterID == s.clusterID && s'.topics == s.topics && s'.byName == s.byName
      && s'.partitions.Keys == s.partitions.Keys
      && (k in s.partitions && k != c.key ==> s'.partitions[k] == s.partitions[k])
      && (k == c.key ==>
            var p, p' := s.partitions[k], s'.partitions[k];
            && p'.leader == c.newLeader && p'.isr == c.newISR && (p'.status == Offline <==> c.newLeader == "")
            && p'.topicID == p.topicID && p'.partitionID == p.partitionID && p'.replicas == p.replicas)
  {
  }

  // ----- one create -----

  /** The replicas the allocator gives partition `i`, none if it gives no row. */
  function RowOf(rows: seq<seq<BrokerID>>, i: int): seq<BrokerID> { if 0 <= i < |rows| then rows[i] else [] }

  /** `p` is partition `k` as a create leaves it: the replicas are those of its row, all of them in sync, the first of
      them leads, and without one the partition is offline. */
  predicate Newborn(p: PartitionState, k: PartitionKey, row: seq<BrokerID>) {
    && p.topicID == k.topicID && p.partitionID == k.partitionID && p.replicas == row && p.isr == row
    && p.leader == (if row != [] then row[0] else "") && (p.status == Online <==> row != [])
    && p.leaderEpoch == 0 && p.partitionEpoch == 0
  }

  lemma BornAsAllocated(id: TopicID, i: int32, rows: seq<seq<BrokerID>>)
    ensures Newborn(NewPartition(id, i, rows), PartitionKey(id, i), RowOf(rows, i))
  {
  }

  predicate RecordOf(t: Topic, c: Command)
    requires c.CreateTopic?
  {
    && t.topicID == c.topicID && t.name == c.name && t.numPartitions == c.numPartitions
    && t.replicationFactor == c.replicationFactor && t.isInternal == c.isInternal && t.config == c.config
  }

  /** A create that takes effect records the topic as the payload has it, under its name, with newborn partitions
      0 to n - 1 whose rows are those AssignReplicas returns for the leaders counted before, and touches no other topic,
      name or partition. */
  lemma CreateInstalls(s: MetaState, c: Command, k: PartitionKey, id: TopicID, name: string)
    requires c.CreateTopic? && TakesEffect(s, c)
    ensures var s', rows := Apply(s, c),
                            Assign(c.brokers, c.numPartitions, c.replicationFactor, LeaderCounts(s.partitions));
      && c.topicID in s'.topics && RecordOf(s'.topics[c.topicID], c)
      && c.name in s'.byName && s'.byName[c.name] == c.topicID && s'.clusterID == s.clusterID
      && (k.topicID == c.topicID && 0 <= k.partitionID < c.numPartitions ==>
            k in s'.partitions && Newborn(s'.partitions[k], k, RowOf(rows, k.partitionID)))
      && (!(k.topicID == c.topicID && 0 <= k.partitionID < c.numPartitions) ==>
            && (k in s'.partitions <==> k in s.partitions)
            && (k in s.partitions ==> s'.partitions[k] == s.partitions[k]))
      && (id != c.topicID ==>
            (id in s'.topics <==> id in s.topics) && (id in s.topics ==> s'.topics[id] == s.topics[id]))
      && (name != c.name ==>
            (name in s'.byName <==> name in s.byName) && (name in s.byName ==> s'.byName[name] == s.byName[name]))
  {
    WithPartitionsAt(s.partitions, c.topicID, RowsOf(s, c), c.numPartitions, k);
    if k.topicID == c.topicID && 0 <= k.partitionID < c.numPartitions {
      BornAsAllocated(c.topicID, k.partitionID, RowsOf(s, c));
    }
  }

  /** What counts towards a broker's load is every online partition that it leads, and no other. */
  lemma OnlineLeadersCount(ps: map<PartitionKey, PartitionState>, b: BrokerID)
    ensures Count(LeaderCounts(ps), b)
      == if b == "" then 0 else |set k | k in ps && ps[k].status == Online && ps[k].leader == b|
  {
    CountIsLed(ps, b);
    if b != "" {
      assert LedKeys(ps, b) == set k | k in ps && ps[k].status == Online && ps[k].leader == b;
    } else {
      assert LedKeys(ps, b) == {};
    }
  }

  /** The rows that a create stored, read back from the store, are the allocation: every slot of every partition holds
      the least loaded broker not in its row yet, by the leaders in the store before. */
  lemma StoredRowsAreWellFilled(s: MetaState, c: Command, rows: seq<seq<BrokerID>>)
    requires c.CreateTopic? && TakesEffect(s, c) && Distinct(c.brokers)
    requires c.brokers != [] && c.numPartitions > 0 && c.replicationFactor > 0
    requires Fits(c.brokers, c.numPartitions as nat, LeaderCounts(s.partitions))
    requires |rows| == c.numPartitions
    requires forall i :: 0 <= i < c.numPartitions ==>
      PartitionKey(c.topicID, i) in Apply(s, c).partitions
      && rows[i] == Apply(s, c).partitions[PartitionKey(c.topicID, i)].replicas
    ensures Allocation.AllWellFilled(c.brokers, LeaderCounts(s.partitions), rows)
  {
    var given := Assign(c.brokers, c.numPartitions, c.replicationFactor, LeaderCounts(s.partitions));
    AssignAt(c.brokers, c.numPartitions, c.replicationFactor, LeaderCounts(s.partitions), 0);
    forall i | 0 <= i < c.numPartitions ensures rows[i] == given[i] {
      CreateInstalls(s, c, PartitionKey(c.topicID, i), c.topicID, c.name);
    }
    assert rows == given;
    Allocation.AllocationIff(c.brokers, c.numPartitions, c.replicationFactor, LeaderCounts(s.partitions), rows);
  }

  // ----- over the life of a topic -----

  /** Of the commands from the `i`-th to the `j`-th, the `l`-th is the last update of `k` that takes effect. */
  predicate LastUpdate(s: MetaState, cmds: seq<Command>, i: nat, j: nat, k: PartitionKey, l: nat)
    requires j <= |cmds|
  {
    && i <= l < j && AcceptedAt(s, cmds, l, k)
    && forall m :: l < m < j ==> !AcceptedAt(s, cmds, m, k)
  }

  /** The partition is led as update `c` says. */
  predicate LedAs(p: PartitionState, c: Command)
    requires c.UpdatePartition?
  {
    p.leader == c.newLeader && p.isr == c.newISR && (p.status == Offline <==> c.newLeader == "")
  }

  predicate LedAlike(p: PartitionState, q: PartitionState) {
    q.leader == p.leader && q.isr == p.isr && q.status == p.status
  }

  lemma SparedLeads(s: MetaState, cmds: seq<Command>, l: nat, k: PartitionKey)
    requires l < |cmds| && k in At(s, cmds, l).partitions && Spares(s, cmds, l, k.topicID)
    ensures k in At(s, cmds, l + 1).partitions
    ensures if AcceptedAt(s, cmds, l, k) then LedAs(At(s, cmds, l + 1).partitions[k], cmds[l])
            else LedAlike(At(s, cmds, l).partitions[k], At(s, cmds, l + 1).partitions[k])
  {
    SparedStep(s, cmds, l, k);
  }

  /** Over the life of its topic a partition is led as the last update that took effect says, and as it was before if
      none has. */
  lemma {:induction false} LeadsAsLastUpdated(s: MetaState, cmds: seq<Command>, i: nat, j: nat, k: PartitionKey)
    requires i <= j <= |cmds| && Lives(s, cmds, i, j, k.topicID) && k in At(s, cmds, i).partitions
    ensures k in At(s, cmds, j).partitions
    ensures forall l: nat {:trigger LastUpdate(s, cmds, i, j, k, l)} ::
      LastUpdate(s, cmds, i, j, k, l) ==> LedAs(At(s, cmds, j).partitions[k], cmds[l])
    ensures (forall l {:trigger AcceptedAt(s, cmds, l, k)} :: i <= l < j ==> !AcceptedAt(s, cmds, l, k)) ==>
      LedAlike(At(s, cmds, i).partitions[k], At(s, cmds, j).partitions[k])
    decreases j
  {
    if i < j {
      LeadsAsLastUpdated(s, cmds, i, j - 1, k);
      assert Spares(s, cmds, j - 1, k.topicID);
      SparedLeads(s, cmds, j - 1, k);
      forall l: nat | LastUpdate(s, cmds, i, j, k, l) ensures LedAs(At(s, cmds, j).partitions[k], cmds[l]) {
        if l < j - 1 {
          assert LastUpdate(s, cmds, i, j - 1, k, l) && !AcceptedAt(s, cmds, j - 1, k);
        }
      }
    }
  }

  /** From the create on: the replicas are for good those of the partition's row, and the partition is led as the last
      update says, or by the first replica with all of them in sync as long as there was none. */
  lemma LifeOfAPartition(s: MetaState, cmds: seq<Command>, i: nat, j: nat, k: PartitionKey)
    requires BornAt(s, cmds, i, k) && i < j <= |cmds| && Lives(s, cmds, i + 1, j, k.topicID)
    ensures k in At(s, cmds, j).partitions
    ensures var q, c, b := At(s, cmds, j).partitions[k], cmds[i], At(s, cmds, i);
      var row := RowOf(Assign(c.brokers, c.numPartitions, c.replicationFactor, LeaderCounts(b.partitions)),
                       k.partitionID);
      && q.topicID == k.topicID && q.partitionID == k.partitionID && q.replicas == row
      && (forall l: nat {:trigger LastUpdate(s, cmds, i + 1, j, k, l)} ::
            LastUpdate(s, cmds, i + 1, j, k, l) ==> LedAs(q, cmds[l]))
      && ((forall l {:trigger AcceptedAt(s, cmds, l, k)} :: i < l < j ==> !AcceptedAt(s, cmds, l, k)) ==>
            q.leader == (if row != [] then row[0] else "") && q.isr == row && (q.status == Online <==> row != []))
  {
    var b, c := At(s, cmds, i), cmds[i];
    CreateInstalls(b, c, k, c.topicID, c.name);
    assert At(s, cmds, i + 1) == Apply(b, c);
    LeadsAsLastUpdated(s, cmds, i + 1, j, k);
    EpochsCount(s, cmds, i + 1, j, k);
    NamesStay(s, cmds, i + 1, j, k);
  }

  lemma {:induction false} NamesStay(s: MetaState, cmds: seq<Command>, i: nat, j: nat, k: PartitionKey)
    requires i <= j <= |cmds| && Lives(s, cmds, i, j, k.topicID) && k in At(s, cmds, i).partitions
    ensures k in At(s, cmds, j).partitions
    ensures var p, q := At(s, cmds, i).partitions[k], At(s, cmds, j).partitions[k];
      q.topicID == p.topicID && q.partitionID == p.partitionID
    decreases j
  {
    if i < j {
      NamesStay(s, cmds, i, j - 1, k);
      assert Spares(s, cmds, j - 1, k.topicID);
      SparedStep(s, cmds, j - 1, k);
    }
  }

  lemma SparedRecord(s: MetaState, cmds: seq<Command>, l: nat, id: TopicID)
    requires l < |cmds| && id in At(s, cmds, l).topics && Spares(s, cmds, l, id)
    ensures id in At(s, cmds, l + 1).topics && At(s, cmds, l + 1).topics[id] == At(s, cmds, l).topics[id]
  {
  }

  /** And the topic's record is for good what the payload of the create said. */
  lemma {:induction false} LifeOfATopic(s: MetaState, cmds: seq<Command>, i: nat, j: nat)
    requires i < j <= |cmds| && cmds[i].CreateTopic? && TakesEffect(At(s, cmds, i), cmds[i])
    requires Lives(s, cmds, i + 1, j, cmds[i].topicID)
    ensures cmds[i].topicID in At(s, cmds, j).topics && RecordOf(At(s, cmds, j).topics[cmds[i].topicID], cmds[i])
    decreases j
  {
    if j == i + 1 {
      assert At(s, cmds, j) == Apply(At(s, cmds, i), cmds[i]);
    } else {
      LifeOfATopic(s, cmds, i, j - 1);
      assert Spares(s, cmds, j - 1, cmds[i].topicID);
      SparedRecord(s, cmds, j - 1, cmds[i].topicID);
    }
  }
}
