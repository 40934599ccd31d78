/** The three maps of the store agree in every state, exactly as long as no create reuses a live TopicID. */
module IndexAgreement {
  import opened MetaTypes
  import opened Assignment
  import opened Store

  // ----- agreement -----

  /** The name index and the topic records are inverse to each other. */
  ghost predicate NamesAgree(s: MetaState) {
    && (forall name {:trigger s.byName[name]} :: name in s.byName ==>
      s.byName[name] in s.topics && s.topics[s.byName[name]].name == name)
    && (forall id {:trigger s.topics[id]} :: id in s.topics ==>
          s.topics[id].topicID == id && s.topics[id].name in s.byName && s.byName[s.topics[id].name] == id)
  }

  predicate Owned(s: MetaState, k: PartitionKey) {
    k.topicID in s.topics && 0 <= k.partitionID < s.topics[k.topicID].numPartitions
  }

  /** The partition keys are (id, 0 .. numPartitions - 1) for the live topics and no others. */
  ghost predicate KeysAgree(s: MetaState) {
    && (forall k {:trigger Owned(s, k)} {:trigger k in s.partitions} :: k in s.partitions <==> Owned(s, k))
    && (forall k {:trigger s.partitions[k]} :: k in s.partitions ==>
          s.partitions[k].topicID == k.topicID && s.partitions[k].partitionID == k.partitionID)
  }

  ghost predicate Agrees(s: MetaState) { NamesAgree(s) && KeysAgree(s) }

  // ----- what each command keeps -----

  predicate FreshFor(s: MetaState, c: Command)
    requires c.CreateTopic?
  {
    c.name in s.byName || c.topicID !in s.topics
  }

  lemma CreateKeepsNames(s: MetaState, c: Command)
    requires c.CreateTopic? && NamesAgree(s) && FreshFor(s, c)
    ensures NamesAgree(Create(s, c))
  {
  }

  lemma CreateKeepsKeys(s: MetaState, c: Command)
    requires c.CreateTopic? && KeysAgree(s) && c.name !in s.byName && c.topicID !in s.topics
    ensures KeysAgree(Create(s, c))
  {
    var s', rows := Create(s, c), RowsOf(s, c);
    forall k
      ensures k in s'.partitions <==> Owned(s', k)
      ensures k in s'.partitions ==>
        s'.partitions[k].topicID == k.topicID && s'.partitions[k].partitionID == k.partitionID
    {
      WithPartitionsAt(s.partitions, c.topicID, rows, c.numPartitions, k);
      assert k in s.partitions <==> Owned(s, k);
    }
  }

  /** A create keeps the maps in agreement if and only if its name is taken or its TopicID is not live. */
  lemma CreateAgreesIff(s: MetaState, c: Command)
    requires c.CreateTopic? && Agrees(s)
    ensures Agrees(Create(s, c)) <==> FreshFor(s, c)
  {
    if FreshFor(s, c) {
      if c.name !in s.byName {
        CreateKeepsNames(s, c);
        CreateKeepsKeys(s, c);
      }
    } else {
      var previous := s.topics[c.topicID].name;
      assert s.byName[previous] == c.topicID && previous != c.name;
      var s' := Create(s, c);
      assert previous in s'.byName && s'.byName[previous] == c.topicID && s'.topics[c.topicID].name == c.name;
    }
  }

  lemma DeleteKeepsKeys(s: MetaState, id: TopicID)
    requires KeysAgree(s)
    ensures KeysAgree(Delete(s, id))
  {
    var s' := Delete(s, id);
    if id in s.topics {
      forall k
        ensures k in s'.partitions <==> Owned(s', k)
        ensures k in s'.partitions ==>
          s'.partitions[k].topicID == k.topicID && s'.partitions[k].partitionID == k.partitionID
      {
        WithoutPartitionsAt(s.partitions, id, s.topics[id].numPartitions, k);
        assert k in s.partitions <==> Owned(s, k);
      }
    }
  }

  lemma DeleteAgrees(s: MetaState, id: TopicID)
    requires Agrees(s)
    ensures Agrees(Delete(s, id))
  {
    DeleteKeepsKeys(s, id);
  }

  lemma UpdateAgrees(s: MetaState, c: Command)
    requires c.UpdatePartition? && Agrees(s)
    ensures Agrees(Update(s, c))
  {
    var s' := Update(s, c);
    if Accepts(s, c) {
      forall k
        ensures k in s'.partitions <==> Owned(s', k)
        ensures k in s'.partitions ==>
          s'.partitions[k].topicID == k.topicID && s'.partitions[k].partitionID == k.partitionID
      {
        assert Owned(s', k) == Owned(s, k);
        assert k in s.partitions <==> Owned(s, k);
      }
    }
  }

  lemma InitAgrees(s: MetaState, clusterID: string)
    requires Agrees(s)
    ensures Agrees(InitCluster(s, clusterID))
  {
    var s' := InitCluster(s, clusterID);
    forall k ensures k in s'.partitions <==> Owned(s', k) {
      assert k in s.partitions <==> Owned(s, k);
    }
  }

  lemma StepAgreesIff(s: MetaState, c: Command)
    requires Agrees(s)
    ensures Agrees(Apply(s, c)) <==> (c.CreateTopic? ==> FreshFor(s, c))
  {
    match c
    case ClusterInit(id) => InitAgrees(s, id);
    case CreateTopic(_, _, _, _, _, _, _) => CreateAgreesIff(s, c);
    case DeleteTopic(id) => DeleteAgrees(s, id);
    case UpdatePartition(_, _, _, _, _) => UpdateAgrees(s, c);
  }

  // ----- every reachable state -----

  ghost predicate FreshUpTo(cmds: seq<Command>, j: nat)
    requires j <= |cmds|
  {
    forall i {:trigger cmds[i]} :: 0 <= i < j && cmds[i].CreateTopic? ==> FreshFor(At(EMPTY, cmds, i), cmds[i])
  }

  ghost predicate AgreesUpTo(cmds: seq<Command>, j: nat)
    requires j <= |cmds|
  {
    forall i {:trigger At(EMPTY, cmds, i)} :: 0 <= i <= j ==> Agrees(At(EMPTY, cmds, i))
  }

  /** Over any command list, the maps agree after every prefix if and only if no create that takes effect
      reuses the TopicID of a topic live at that moment. */
  lemma {:induction false} AgreementIff(cmds: seq<Command>, j: nat)
    requires j <= |cmds|
    ensures AgreesUpTo(cmds, j) <==> FreshUpTo(cmds, j)
  {
    if j == 0 {
      assert Agrees(EMPTY);
    } else {
      AgreementIff(cmds, j - 1);
      assert FreshUpTo(cmds, j) <==>
        FreshUpTo(cmds, j - 1) && (cmds[j - 1].CreateTopic? ==> FreshFor(At(EMPTY, cmds, j - 1), cmds[j - 1]));
      if AgreesUpTo(cmds, j - 1) {
        assert Agrees(At(EMPTY, cmds, j - 1));
        StepAgreesIff(At(EMPTY, cmds, j - 1), cmds[j - 1]);
        assert AgreesUpTo(cmds, j) <==> Agrees(At(EMPTY, cmds, j));
      } else {
        var i :| 0 <= i <= j - 1 && !Agrees(At(EMPTY, cmds, i));
        assert !AgreesUpTo(cmds, j);
      }
    }
  }

  /** No two creates carry the same TopicID. */
  ghost predicate UniqueCreates(cmds: seq<Command>) {
    forall i, j {:trigger cmds[i], cmds[j]} ::
      0 <= i < j < |cmds| && cmds[i].CreateTopic? && cmds[j].CreateTopic? ==> cmds[i].topicID != cmds[j].topicID
  }

  /** A live topic was live before, or was created in between, under the name it has. */
  lemma {:induction false} Origin(s: MetaState, cmds: seq<Command>, i: nat, j: nat, id: TopicID) returns (l: nat)
    requires i <= j <= |cmds| && id in At(s, cmds, j).topics
    requires id !in At(s, cmds, i).topics
    ensures i <= l < j && cmds[l].CreateTopic? && cmds[l].topicID == id && cmds[l].name !in At(s, cmds, l).byName
    ensures At(s, cmds, j).topics[id] == TopicOf(cmds[l])
    decreases j
  {
    var before := At(s, cmds, j - 1);
    if cmds[j - 1].CreateTopic? && cmds[j - 1].topicID == id && cmds[j - 1].name !in before.byName {
      l := j - 1;
    } else {
      l := Origin(s, cmds, i, j - 1, id);
    }
  }

  lemma NotYetCreated(cmds: seq<Command>, j: nat)
    requires UniqueCreates(cmds) && j < |cmds| && cmds[j].CreateTopic?
    ensures cmds[j].topicID !in At(EMPTY, cmds, j).topics
  {
    if cmds[j].topicID in At(EMPTY, cmds, j).topics {
      var l := Origin(EMPTY, cmds, 0, j, cmds[j].topicID);
    }
  }

  /** TopicIDs that are never reused keep the maps in agreement throughout, names deleted and reused included. */
  lemma UniqueCreatesAgree(cmds: seq<Command>, j: nat)
    requires UniqueCreates(cmds) && j <= |cmds|
    ensures Agrees(At(EMPTY, cmds, j))
  {
    forall i | 0 <= i < j && cmds[i].CreateTopic? ensures FreshFor(At(EMPTY, cmds, i), cmds[i]) {
      NotYetCreated(cmds, i);
    }
    AgreementIff(cmds, j);
  }

  // ----- what agreement gives the callers -----

  /** GetTopicByName never meets a missing record, and finds exactly the topic of that name. */
  lemma NameLookupSafe(s: MetaState, name: string)
    requires Agrees(s)
    ensures var r := TopicNamed(s, name);
      && r != NilDereference
      && (r.Found? ==> r.topic.name == name && r.topic.topicID in s.topics && s.topics[r.topic.topicID] == r.topic)
      && (r.NotFound? <==> forall id :: id in s.topics ==> s.topics[id].name != name)
  {
  }

  /** ListPartitions is complete and ordered. */
  lemma {:induction false} ListedComplete(s: MetaState, id: TopicID, n: int32)
    requires Agrees(s) && id in s.topics && n <= s.topics[id].numPartitions
    ensures var l := Listed(s.partitions, id, n);
      && |l| == (if n <= 0 then 0 else n as int)
      && forall i: int32 :: 0 <= i < |l| ==>
           PartitionKey(id, i) in s.partitions && l[i] == s.partitions[PartitionKey(id, i)] && l[i].partitionID == i
    decreases n
  {
    if n > 0 {
      ListedComplete(s, id, n - 1);
      assert Owned(s, PartitionKey(id, n - 1));
    }
  }

  ghost predicate SameElsewhere(s: MetaState, s': MetaState, id: TopicID) {
    && s'.clusterID == s.clusterID
    && (forall t {:trigger s'.topics[t]} :: t != id ==>
      (t in s'.topics <==> t in s.topics) && (t in s.topics ==> s'.topics[t] == s.topics[t]))
    && (forall name {:trigger s'.byName[name]} ::
          (name in s'.byName <==> name in s.byName && s.byName[name] != id)
            && (name in s'.byName ==> s'.byName[name] == s.byName[name]))
    && (forall k: PartitionKey {:trigger s'.partitions[k]} :: k.topicID != id ==>
          (k in s'.partitions <==> k in s.partitions) && (k in s.partitions ==> s'.partitions[k] == s.partitions[k]))
  }

  /** Deleting a topic leaves nothing of it behind and touches nothing else. */
  lemma DeleteIsComplete(s: MetaState, id: TopicID)
    requires Agrees(s) && id in s.topics
    ensures var s' := Delete(s, id);
      && id !in s'.topics && (forall name :: name in s'.byName ==> s'.byName[name] != id)
      && (forall k :: k in s'.partitions ==> k.topicID != id) && SameElsewhere(s, s', id)
  {
    var s' := Delete(s, id);
    var name := s.topics[id].name;
    forall k
      ensures k in s'.partitions ==> k.topicID != id
      ensures k.topicID != id ==>
        (k in s'.partitions <==> k in s.partitions) && (k in s.partitions ==> s'.partitions[k] == s.partitions[k])
    {
      WithoutPartitionsAt(s.partitions, id, s.topics[id].numPartitions, k);
      assert k in s.partitions <==> Owned(s, k);
    }
    forall m ensures (m in s'.byName <==> m in s.byName && s.byName[m] != id)
      && (m in s'.byName ==> s'.byName[m] == s.byName[m]) {
      if m in s.byName && s.byName[m] == id {
        assert s.topics[s.byName[m]].name == m;
      }
    }
  }

  /** Reusing a live TopicID under a second name and deleting it leaves the first name pointing nowhere:
      looking it up is then a nil dereference. */
  lemma ReusedIDDangles(first: Command, second: Command)
    requires first.CreateTopic? && second.CreateTopic? && first.topicID == second.topicID && first.name != second.name
    ensures TopicNamed(Final(EMPTY, [first, second, DeleteTopic(first.topicID)]), first.name) == NilDereference
  {
    var cmds := [first, second, DeleteTopic(first.topicID)];
    assert At(EMPTY, cmds, 0) == EMPTY;
    var s1 := At(EMPTY, cmds, 1);
    assert s1 == Create(EMPTY, first);
    var s2 := At(EMPTY, cmds, 2);
    assert s2 == Create(s1, second);
    assert At(EMPTY, cmds, 3) == Delete(s2, first.topicID);
  }

  // ----- status -----

  ghost predicate StatusAgrees(s: MetaState) {
    forall k {:trigger s.partitions[k]} :: k in s.partitions ==>
      (s.partitions[k].status == Online <==> s.partitions[k].leader != "")
  }

  ghost predicate NamedBrokers(s: MetaState, c: Command)
    requires c.CreateTopic?
  {
    "" !in c.brokers && (c.numPartitions > 0 ==> Fits(c.brokers, c.numPartitions, LeaderCounts(s.partitions)))
  }

  lemma CreateKeepsStatus(s: MetaState, c: Command)
    requires c.CreateTopic? && StatusAgrees(s) && NamedBrokers(s, c)
    ensures StatusAgrees(Create(s, c))
  {
    if c.name !in s.byName {
      var s', rows, counts := Create(s, c), RowsOf(s, c), LeaderCounts(s.partitions);
      forall k | k in s'.partitions ensures s'.partitions[k].status == Online <==> s'.partitions[k].leader != "" {
        WithPartitionsAt(s.partitions, c.topicID, rows, c.numPartitions, k);
        if k.topicID == c.topicID && 0 <= k.partitionID < c.numPartitions
          && Allocates(c.brokers, c.numPartitions, c.replicationFactor) {
          TallyExact(c.brokers, k.partitionID, c.numPartitions, counts);
          AssignAt(c.brokers, c.numPartitions, c.replicationFactor, counts, k.partitionID);
        }
      }
    }
  }

  /** A partition is online exactly when it has a leader: kept by every command, creates over non-empty broker IDs. */
  lemma StepKeepsStatus(s: MetaState, c: Command)
    requires StatusAgrees(s) && (c.CreateTopic? ==> NamedBrokers(s, c))
    ensures StatusAgrees(Apply(s, c))
  {
    match c
    case ClusterInit(_) =>
    case CreateTopic(_, _, _, _, _, _, _) => CreateKeepsStatus(s, c);
    case DeleteTopic(id) =>
      if id in s.topics {
        forall k | k in Delete(s, id).partitions
          ensures k in s.partitions && Delete(s, id).partitions[k] == s.partitions[k]
        {
          WithoutPartitionsAt(s.partitions, id, s.topics[id].numPartitions, k);
        }
      }
    case UpdatePartition(_, _, _, _, _) =>
  }

  lemma {:induction false} StatusAlwaysAgrees(cmds: seq<Command>, j: nat)
    requires j <= |cmds|
    requires forall i :: 0 <= i < j && cmds[i].CreateTopic? ==> NamedBrokers(At(EMPTY, cmds, i), cmds[i])
    ensures StatusAgrees(At(EMPTY, cmds, j))
  {
    if j > 0 {
      StatusAlwaysAgrees(cmds, j - 1);
      StepKeepsStatus(At(EMPTY, cmds, j - 1), cmds[j - 1]);
    }
  }
}
