/** Applying a whole command list again over its own final state. */
module Replay {
  import opened MetaTypes
  import opened Store
  import opened IndexAgreement
  import opened Fencing

  /** Equal but for the version, which counts commands rather than contents. */
  predicate SameContent(s: MetaState, t: MetaState) {
    s.clusterID == t.clusterID && s.topics == t.topics && s.byName == t.byName && s.partitions == t.partitions
  }

  /** Each TopicID is created by at most one command, and not deleted before that command. */
  ghost predicate Ordered(cmds: seq<Command>) {
    && UniqueCreates(cmds)
    && forall i, j {:trigger cmds[i], cmds[j]} ::
         0 <= i < j < |cmds| && cmds[i].DeleteTopic? && cmds[j].CreateTopic? ==> cmds[i].topicID != cmds[j].topicID
  }

  /** No update in the list expects the epoch its partition ends with. */
  ghost predicate Settled(f: MetaState, cmds: seq<Command>) {
    forall l {:trigger cmds[l]} :: 0 <= l < |cmds| && cmds[l].UpdatePartition? && cmds[l].key in f.partitions ==>
      cmds[l].expectedEpoch != f.partitions[cmds[l].key].partitionEpoch
  }

  // ----- what the commands can do to topics that survive -----

  /** The topics live at the end are never deleted in the list. */
  lemma SurvivorsNotDeleted(cmds: seq<Command>, l: nat)
    requires Ordered(cmds) && l < |cmds| && cmds[l].DeleteTopic?
    ensures cmds[l].topicID !in Final(EMPTY, cmds).topics
  {
    var id := cmds[l].topicID;
    assert id !in At(EMPTY, cmds, l + 1).topics;
    if id in Final(EMPTY, cmds).topics {
      var i := Origin(EMPTY, cmds, l + 1, |cmds|, id);
    }
  }

  /** A create of a topic live at the end is the one that gave it its name. */
  lemma SurvivorsNamed(cmds: seq<Command>, l: nat)
    requires Ordered(cmds) && l < |cmds| && cmds[l].CreateTopic? && cmds[l].topicID in Final(EMPTY, cmds).topics
    ensures Final(EMPTY, cmds).topics[cmds[l].topicID].name == cmds[l].name
  {
    var i := Origin(EMPTY, cmds, 0, |cmds|, cmds[l].topicID);
    assert i == l;
  }

  // ----- topics and names during the replay -----

  /** `f` is the final state, `o` the original run at some point and `r` the replay at the same point: what
      is live in `f` is untouched in `r`; besides it `r` holds the topics of `o` whose names are free in `f`. */
  ghost predicate Related(f: MetaState, o: MetaState, r: MetaState) {
    && Agrees(r)
    && (forall id {:trigger r.topics[id]} {:trigger f.topics[id]} :: id in f.topics ==>
      id in r.topics && r.topics[id] == f.topics[id])
    && (forall id {:trigger r.topics[id]} {:trigger o.topics[id]} :: id !in f.topics ==>
          && (id in r.topics <==> id in o.topics && o.topics[id].name !in f.byName)
          && (id in r.topics ==> r.topics[id] == o.topics[id]))
    && (forall name {:trigger name in r.byName} :: name in f.byName ==>
      name in r.byName && r.byName[name] == f.byName[name])
    && (forall name {:trigger name in r.byName} :: name !in f.byName ==> (name in r.byName <==> name in o.byName))
  }

  /** The name is live at the end: the replay skips the create. */
  lemma ReplaySkips(f: MetaState, o: MetaState, r: MetaState, c: Command)
    requires c.CreateTopic? && Related(f, o, r) && c.topicID !in o.topics && c.name in f.byName
    ensures Related(f, Create(o, c), Create(r, c))
  {
    assert c.name in r.byName;
  }

  /** The name is free at the end: the replay does what the original run did. */
  lemma ReplayRepeats(f: MetaState, o: MetaState, r: MetaState, c: Command)
    requires c.CreateTopic? && Related(f, o, r) && c.topicID !in o.topics && c.name !in f.byName
    requires c.topicID !in f.topics
    ensures Related(f, Create(o, c), Create(r, c))
  {
    assert c.name in r.byName <==> c.name in o.byName;
    assert c.topicID !in r.topics;
    CreateAgreesIff(r, c);
  }

  lemma ReplayCreate(f: MetaState, o: MetaState, r: MetaState, c: Command)
    requires c.CreateTopic? && Agrees(f) && Related(f, o, r)
    requires c.topicID !in o.topics && (c.topicID in f.topics ==> f.topics[c.topicID].name == c.name)
    ensures Related(f, Create(o, c), Create(r, c))
  {
    if c.name in f.byName {
      ReplaySkips(f, o, r, c);
    } else {
      ReplayRepeats(f, o, r, c);
    }
  }

  lemma ReplayInit(f: MetaState, o: MetaState, r: MetaState, id: string)
    requires Related(f, o, r)
    ensures Related(f, InitCluster(o, id), InitCluster(r, id))
  {
    InitAgrees(r, id);
  }

  lemma ReplayUpdate(f: MetaState, o: MetaState, r: MetaState, c: Command)
    requires c.UpdatePartition? && Related(f, o, r)
    ensures Related(f, Update(o, c), Update(r, c))
  {
    UpdateAgrees(r, c);
  }

  lemma ReplayDelete(f: MetaState, o: MetaState, r: MetaState, id: TopicID)
    requires Agrees(f) && Agrees(o) && Related(f, o, r) && id !in f.topics
    ensures Related(f, Delete(o, id), Delete(r, id))
  {
    DeleteAgrees(r, id);
    if id in o.topics {
      var name := o.topics[id].name;
      if name !in f.byName {
        assert r.topics[id] == o.topics[id];
      }
    }
  }

  lemma ReplayStep(f: MetaState, o: MetaState, r: MetaState, c: Command)
    requires Agrees(f) && Agrees(o) && Related(f, o, r)
    requires c.CreateTopic? ==> c.topicID !in o.topics && (c.topicID in f.topics ==> f.topics[c.topicID].name == c.name)
    requires c.DeleteTopic? ==> c.topicID !in f.topics
    ensures Related(f, Apply(o, c), Apply(r, c))
  {
    match c
    case ClusterInit(id) => ReplayInit(f, o, r, id);
    case CreateTopic(_, _, _, _, _, _, _) => ReplayCreate(f, o, r, c);
    case DeleteTopic(id) => ReplayDelete(f, o, r, id);
    case UpdatePartition(_, _, _, _, _) => ReplayUpdate(f, o, r, c);
  }

  /** What the list guarantees about its `j`-th command when it is met again. */
  lemma MetAgain(cmds: seq<Command>, j: nat)
    requires Ordered(cmds) && j < |cmds|
    ensures var c, f := cmds[j], Final(EMPTY, cmds);
      && (c.CreateTopic? ==>
            c.topicID !in At(EMPTY, cmds, j).topics && (c.topicID in f.topics ==> f.topics[c.topicID].name == c.name))
      && (c.DeleteTopic? ==> c.topicID !in f.topics)
  {
    if cmds[j].CreateTopic? {
      NotYetCreated(cmds, j);
      if cmds[j].topicID in Final(EMPTY, cmds).topics { SurvivorsNamed(cmds, j); }
    }
    if cmds[j].DeleteTopic? { SurvivorsNotDeleted(cmds, j); }
  }

  lemma ReplayNext(cmds: seq<Command>, f: MetaState, j: nat)
    requires Ordered(cmds) && f == Final(EMPTY, cmds) && j < |cmds| && Related(f, At(EMPTY, cmds, j), At(f, cmds, j))
    ensures Related(f, Apply(At(EMPTY, cmds, j), cmds[j]), Apply(At(f, cmds, j), cmds[j]))
  {
    UniqueCreatesAgree(cmds, |cmds|);
    UniqueCreatesAgree(cmds, j);
    MetAgain(cmds, j);
    ReplayStep(f, At(EMPTY, cmds, j), At(f, cmds, j), cmds[j]);
  }

  lemma {:induction false} ReplayRelated(cmds: seq<Command>, f: MetaState, j: nat)
    requires Ordered(cmds) && f == Final(EMPTY, cmds) && j <= |cmds|
    ensures Related(f, At(EMPTY, cmds, j), At(f, cmds, j))
  {
    if j == 0 {
      UniqueCreatesAgree(cmds, |cmds|);
    } else {
      ReplayRelated(cmds, f, j - 1);
      ReplayNext(cmds, f, j - 1);
    }
  }

  /** At the end of the replay the topics and the name index are those of the final state again. */
  lemma ReplayedTopics(cmds: seq<Command>)
    requires Ordered(cmds)
    ensures var f := Final(EMPTY, cmds);
      Agrees(f) && Agrees(Final(f, cmds)) && Final(f, cmds).topics == f.topics && Final(f, cmds).byName == f.byName
  {
    var f := Final(EMPTY, cmds);
    var r := Final(f, cmds);
    UniqueCreatesAgree(cmds, |cmds|);
    ReplayRelated(cmds, f, |cmds|);
    assert Related(f, f, r);
    assert forall id :: id in r.topics <==> id in f.topics;
    assert forall name :: name in r.byName <==> name in f.byName;
  }

  // ----- partitions during the replay -----

  /** The replay neither creates nor deletes a topic that is live at the end. */
  lemma SurvivorsLive(cmds: seq<Command>, j: nat, id: TopicID)
    requires Ordered(cmds) && j <= |cmds| && id in Final(EMPTY, cmds).topics
    ensures Lives(Final(EMPTY, cmds), cmds, 0, j, id)
  {
    var f := Final(EMPTY, cmds);
    UniqueCreatesAgree(cmds, |cmds|);
    forall l | 0 <= l < j ensures Spares(f, cmds, l, id) {
      if cmds[l].DeleteTopic? { SurvivorsNotDeleted(cmds, l); }
      if cmds[l].CreateTopic? && cmds[l].topicID == id {
        SurvivorsNamed(cmds, l);
        ReplayRelated(cmds, f, l);
        assert f.topics[id].name in f.byName;
      }
    }
  }

  lemma OwnerSurvives(f: MetaState, k: PartitionKey)
    requires Agrees(f) && k in f.partitions
    ensures k.topicID in f.topics
  {
    assert Owned(f, k);
  }

  lemma {:induction false} SettledAccepts(cmds: seq<Command>, j: nat, k: PartitionKey)
    requires Ordered(cmds) && Settled(Final(EMPTY, cmds), cmds) && j <= |cmds| && k in Final(EMPTY, cmds).partitions
    ensures Accepted(Final(EMPTY, cmds), cmds, 0, j, k) == 0
  {
    if j > 0 {
      var f := Final(EMPTY, cmds);
      SettledAccepts(cmds, j - 1, k);
      UniqueCreatesAgree(cmds, |cmds|);
      OwnerSurvives(f, k);
      SurvivorsLive(cmds, j - 1, k.topicID);
      NoneAccepted(f, cmds, 0, j - 1, k);
    }
  }

  lemma SamePartitions(f: MetaState, r: MetaState)
    requires Agrees(f) && Agrees(r) && r.topics == f.topics
    requires forall k {:trigger f.partitions[k]} :: k in f.partitions ==>
      k in r.partitions && r.partitions[k] == f.partitions[k]
    ensures r.partitions == f.partitions
  {
    forall k ensures k in r.partitions <==> k in f.partitions {
      assert Owned(r, k) <==> Owned(f, k);
    }
    assert r.partitions.Keys == f.partitions.Keys;
  }

  lemma SettledKeepsPartitions(cmds: seq<Command>)
    requires Ordered(cmds) && Settled(Final(EMPTY, cmds), cmds)
    ensures Final(Final(EMPTY, cmds), cmds).partitions == Final(EMPTY, cmds).partitions
  {
    var f := Final(EMPTY, cmds);
    var r := Final(f, cmds);
    ReplayedTopics(cmds);
    forall k | k in f.partitions ensures k in r.partitions && r.partitions[k] == f.partitions[k] {
      OwnerSurvives(f, k);
      SurvivorsLive(cmds, |cmds|, k.topicID);
      SettledAccepts(cmds, |cmds|, k);
      NoneAccepted(f, cmds, 0, |cmds|, k);
    }
    SamePartitions(f, r);
  }

  /** An update that expects the final epoch moves the epoch on, and it cannot come round again. */
  lemma UnsettledMoves(cmds: seq<Command>, l: nat)
    requires Ordered(cmds) && |cmds| < TURN32 && l < |cmds| && cmds[l].UpdatePartition?
    requires cmds[l].key in Final(EMPTY, cmds).partitions
    requires cmds[l].expectedEpoch == Final(EMPTY, cmds).partitions[cmds[l].key].partitionEpoch
    ensures Final(Final(EMPTY, cmds), cmds).partitions != Final(EMPTY, cmds).partitions
  {
    var f, k := Final(EMPTY, cmds), cmds[l].key;
    UniqueCreatesAgree(cmds, |cmds|);
    OwnerSurvives(f, k);
    SurvivorsLive(cmds, |cmds|, k.topicID);
    SurvivorsLive(cmds, l, k.topicID);
    EpochsCount(f, cmds, 0, |cmds|, k);
    NoneAccepted(f, cmds, 0, l, k);
    AcceptedGrows(f, cmds, 0, l, |cmds|, k);
    AcceptedGrows(f, cmds, 0, l + 1, |cmds|, k);
    var e, n := f.partitions[k].partitionEpoch, Accepted(f, cmds, 0, |cmds|, k);
    assert n > 0;
    if Final(f, cmds).partitions == f.partitions {
      FullTurn32(e, n);
    }
  }

  // ----- the cluster ID -----

  lemma {:induction false} ClusterIDStays(s: MetaState, cmds: seq<Command>, i: nat, j: nat)
    requires i <= j <= |cmds| && At(s, cmds, i).clusterID != ""
    ensures At(s, cmds, j).clusterID == At(s, cmds, i).clusterID
    decreases j
  {
    if i < j {
      ClusterIDStays(s, cmds, i, j - 1);
    }
  }

  lemma {:induction false} ReplayedClusterID(cmds: seq<Command>, j: nat)
    requires j <= |cmds|
    ensures At(Final(EMPTY, cmds), cmds, j).clusterID == Final(EMPTY, cmds).clusterID
  {
    var f := Final(EMPTY, cmds);
    if f.clusterID != "" {
      ClusterIDStays(f, cmds, 0, j);
    } else if j > 0 {
      ReplayedClusterID(cmds, j - 1);
      var o := At(EMPTY, cmds, j);
      if o.clusterID != "" { ClusterIDStays(EMPTY, cmds, j, |cmds|); }
      assert cmds[j - 1].ClusterInit? && At(EMPTY, cmds, j - 1).clusterID == "" ==>
        cmds[j - 1].clusterID == o.clusterID;
      if At(EMPTY, cmds, j - 1).clusterID != "" { ClusterIDStays(EMPTY, cmds, j - 1, |cmds|); }
    }
  }

  // ----- replay safety -----

  /** A list whose updates are settled can be replayed over its final state any number of times, names deleted
      and reused included: cluster ID, topics, name index and partitions stay as they are. */
  lemma SettledReplaySafe(cmds: seq<Command>)
    requires Ordered(cmds) && Settled(Final(EMPTY, cmds), cmds)
    ensures SameContent(Final(Final(EMPTY, cmds), cmds), Final(EMPTY, cmds))
  {
    ReplayedTopics(cmds);
    SettledKeepsPartitions(cmds);
    ReplayedClusterID(cmds, |cmds|);
  }

  /** Replay is safe if and only if no update expects the epoch its partition ends with. */
  lemma ReplaySafeIff(cmds: seq<Command>)
    requires Ordered(cmds) && |cmds| < TURN32
    ensures SameContent(Final(Final(EMPTY, cmds), cmds), Final(EMPTY, cmds)) <==> Settled(Final(EMPTY, cmds), cmds)
  {
    var f := Final(EMPTY, cmds);
    if Settled(f, cmds) {
      SettledReplaySafe(cmds);
    } else {
      var l :| 0 <= l < |cmds| && cmds[l].UpdatePartition? && cmds[l].key in f.partitions
            && cmds[l].expectedEpoch == f.partitions[cmds[l].key].partitionEpoch;
      UnsettledMoves(cmds, l);
    }
  }

  /** No update names a topic before its create, and none is ahead of its partition's epoch when first applied. */
  ghost predicate NeverAhead(cmds: seq<Command>) {
    && (forall i, j {:trigger cmds[i], cmds[j]} ::
          0 <= i < j < |cmds| && cmds[i].UpdatePartition? && cmds[j].CreateTopic? ==>
            cmds[i].key.topicID != cmds[j].topicID)
    && (forall l {:trigger cmds[l]} ::
      0 <= l < |cmds| && cmds[l].UpdatePartition? && cmds[l].key in At(EMPTY, cmds, l).partitions ==>
          cmds[l].expectedEpoch <= At(EMPTY, cmds, l).partitions[cmds[l].key].partitionEpoch)
  }

  lemma LivesAfterBirth(cmds: seq<Command>, i: nat, j: nat)
    requires Ordered(cmds) && i < j <= |cmds| && cmds[i].CreateTopic? && cmds[i].topicID in Final(EMPTY, cmds).topics
    ensures Lives(EMPTY, cmds, i + 1, j, cmds[i].topicID)
  {
    forall l | i + 1 <= l < j ensures Spares(EMPTY, cmds, l, cmds[i].topicID) {
      if cmds[l].DeleteTopic? { SurvivorsNotDeleted(cmds, l); }
    }
  }

  lemma {:induction false} AcceptedBound(s: MetaState, cmds: seq<Command>, i: nat, j: nat, k: PartitionKey)
    requires i <= j <= |cmds|
    ensures Accepted(s, cmds, i, j, k) <= j - i
    decreases j
  {
    if i < j {
      AcceptedBound(s, cmds, i, j - 1, k);
    }
  }

  lemma PlainCount(e: int32, n: nat)
    requires e == Ticked32(0, n) && n < 0x8000_0000
    ensures e == n
  {
    Ticked32Within(0, n);
  }

  /** In a list too short to wrap, the epoch of a surviving partition is the number of updates it took. */
  lemma PlainEpoch(s: MetaState, cmds: seq<Command>, i: nat, j: nat, k: PartitionKey)
    requires |cmds| < 0x8000_0000 && i < j <= |cmds| && BornAt(s, cmds, i, k) && Lives(s, cmds, i + 1, j, k.topicID)
    ensures k in At(s, cmds, j).partitions
    ensures At(s, cmds, j).partitions[k].partitionEpoch == Accepted(s, cmds, i + 1, j, k)
  {
    EpochsFromBirth(s, cmds, i, j, k);
    AcceptedBound(s, cmds, i + 1, j, k);
    PlainCount(At(s, cmds, j).partitions[k].partitionEpoch, Accepted(s, cmds, i + 1, j, k));
  }

  /** An update that is not ahead when applied is behind its partition's epoch ever after. */
  lemma PastEpoch(s: MetaState, cmds: seq<Command>, i: nat, l: nat, k: PartitionKey)
    requires |cmds| < 0x8000_0000 && i < l < |cmds| && BornAt(s, cmds, i, k)
    requires Lives(s, cmds, i + 1, l, k.topicID) && Lives(s, cmds, i + 1, |cmds|, k.topicID)
    requires cmds[l].UpdatePartition? && cmds[l].key == k
    requires k in At(s, cmds, l).partitions ==> cmds[l].expectedEpoch <= At(s, cmds, l).partitions[k].partitionEpoch
    ensures k in Final(s, cmds).partitions && cmds[l].expectedEpoch < Final(s, cmds).partitions[k].partitionEpoch
  {
    PlainEpoch(s, cmds, i, l, k);
    PlainEpoch(s, cmds, i, |cmds|, k);
    AcceptedGrows(s, cmds, i + 1, l, |cmds|, k);
    AcceptedGrows(s, cmds, i + 1, l + 1, |cmds|, k);
  }

  /** A surviving partition that an update names was created before the update, and lived on. */
  lemma CreatedBefore(cmds: seq<Command>, l: nat) returns (i: nat)
    requires Ordered(cmds) && NeverAhead(cmds)
    requires l < |cmds| && cmds[l].UpdatePartition? && cmds[l].key in Final(EMPTY, cmds).partitions
    ensures i < l && BornAt(EMPTY, cmds, i, cmds[l].key) && cmds[l].key.topicID in Final(EMPTY, cmds).topics
  {
    var f, k := Final(EMPTY, cmds), cmds[l].key;
    UniqueCreatesAgree(cmds, |cmds|);
    assert Owned(f, k);
    i := Origin(EMPTY, cmds, 0, |cmds|, k.topicID);
    assert cmds[i].topicID == cmds[l].key.topicID && i != l;
  }

  lemma FinalIsPast(cmds: seq<Command>, l: nat)
    requires Ordered(cmds) && NeverAhead(cmds) && |cmds| < 0x8000_0000
    requires l < |cmds| && cmds[l].UpdatePartition? && cmds[l].key in Final(EMPTY, cmds).partitions
    ensures cmds[l].expectedEpoch < Final(EMPTY, cmds).partitions[cmds[l].key].partitionEpoch
  {
    var i := CreatedBefore(cmds, l);
    LivesAfterBirth(cmds, i, l);
    LivesAfterBirth(cmds, i, |cmds|);
    PastEpoch(EMPTY, cmds, i, l, cmds[l].key);
  }

  /** The condition a proposer can keep: an update carries an epoch its partition has already reached. */
  lemma ReplaySafe(cmds: seq<Command>)
    requires Ordered(cmds) && NeverAhead(cmds) && |cmds| < 0x8000_0000
    ensures SameContent(Final(Final(EMPTY, cmds), cmds), Final(EMPTY, cmds))
  {
    var f := Final(EMPTY, cmds);
    forall l | 0 <= l < |cmds| && cmds[l].UpdatePartition? && cmds[l].key in f.partitions
      ensures cmds[l].expectedEpoch != f.partitions[cmds[l].key].partitionEpoch
    {
      FinalIsPast(cmds, l);
    }
    SettledReplaySafe(cmds);
  }

  /** An update refused because it is ahead takes effect when replayed. */
  lemma AheadIsNotSafe(c: Command, ahead: Command, due: Command)
    requires c.CreateTopic? && c.numPartitions > 0 && ahead.UpdatePartition? && due.UpdatePartition?
    requires ahead.key == due.key == PartitionKey(c.topicID, 0) && ahead.expectedEpoch == 1 && due.expectedEpoch == 0
    ensures var cmds := [c, ahead, due];
      Ordered(cmds) && !SameContent(Final(Final(EMPTY, cmds), cmds), Final(EMPTY, cmds))
  {
    var cmds, k := [c, ahead, due], PartitionKey(c.topicID, 0);
    assert At(EMPTY, cmds, 0) == EMPTY;
    var s1 := At(EMPTY, cmds, 1);
    assert s1 == Create(EMPTY, c);
    WithPartitionsAt(EMPTY.partitions, c.topicID, RowsOf(EMPTY, c), c.numPartitions, k);
    var s2 := At(EMPTY, cmds, 2);
    assert s2 == Update(s1, ahead) == s1;
    var s3 := At(EMPTY, cmds, 3);
    assert s3 == Update(s2, due);
    assert s3.partitions[k].partitionEpoch == 1;
    assert cmds[1].expectedEpoch == Final(EMPTY, cmds).partitions[cmds[1].key].partitionEpoch;
    ReplaySafeIff(cmds);
  }
}
