/** The metadata state machine: what the four replicated commands do to its three maps, and the store object. */
module Store {
  import opened MetaTypes
  import opened Assignment

  datatype MetaState = MetaState(clusterID: string, topics: map<TopicID, Topic>, byName: map<string, TopicID>,
                                 partitions: map<PartitionKey, PartitionState>, version: int64)

  const EMPTY := MetaState("", map[], map[], map[], 0)

  // ----- leader counts -----

  predicate Leads(p: PartitionState, b: BrokerID) { p.status == Online && p.leader != "" && p.leader == b }

  function LedKeys(ps: map<PartitionKey, PartitionState>, b: BrokerID): set<PartitionKey> {
    set k | k in ps && Leads(ps[k], b)
  }

  function LeadersIn(ps: map<PartitionKey, PartitionState>): set<BrokerID> {
    set k | k in ps && Leads(ps[k], ps[k].leader) :: ps[k].leader
  }

  /** For each broker that leads an online partition, how many it leads. */
  function LeaderCounts(ps: map<PartitionKey, PartitionState>): Counts {
    map b | b in LeadersIn(ps) :: |LedKeys(ps, b)|
  }

  lemma LeadersLead(ps: map<PartitionKey, PartitionState>, b: BrokerID)
    ensures b in LeadersIn(ps) <==> LedKeys(ps, b) != {}
  {
    if k :| k in ps && Leads(ps[k], b) {
      assert k in LedKeys(ps, b) && Leads(ps[k], ps[k].leader) && ps[k].leader == b;
    }
  }

  lemma CountIsLed(ps: map<PartitionKey, PartitionState>, b: BrokerID)
    ensures b in LeaderCounts(ps) <==> LedKeys(ps, b) != {}
    ensures Count(LeaderCounts(ps), b) == |LedKeys(ps, b)|
  {
    LeadersLead(ps, b);
  }

  lemma LedKeysWith(ps: map<PartitionKey, PartitionState>, k: PartitionKey, p: PartitionState, b: BrokerID)
    requires k !in ps
    ensures LedKeys(ps[k := p], b) == if Leads(p, b) then LedKeys(ps, b) + {k} else LedKeys(ps, b)
  {
  }

  /** Counting one more partition, whatever the order: one more for its leader, if it has one online. */
  lemma CountsWith(ps: map<PartitionKey, PartitionState>, k: PartitionKey, p: PartitionState)
    requires k !in ps
    ensures var counts := LeaderCounts(ps);
      LeaderCounts(ps[k := p]) == if Leads(p, p.leader) then counts[p.leader := Count(counts, p.leader) + 1] else counts
  {
    var counts, ps' := LeaderCounts(ps), ps[k := p];
    var counts' := LeaderCounts(ps');
    forall b
      ensures b in counts' <==> b in counts || Leads(p, b)
      ensures Count(counts', b) == Count(counts, b) + (if Leads(p, b) then 1 else 0)
    {
      CountIsLed(ps, b);
      CountIsLed(ps', b);
      LedKeysWith(ps, k, p, b);
      assert k !in LedKeys(ps, b);
    }
    SameCounts(counts', if Leads(p, p.leader) then counts[p.leader := Count(counts, p.leader) + 1] else counts);
  }

  lemma SameCounts(m: Counts, m': Counts)
    requires forall b :: b in m <==> b in m'
    requires forall b :: Count(m, b) == Count(m', b)
    ensures m == m'
  {
    forall b | b in m ensures m[b] == m'[b] {
      assert Count(m, b) == Count(m', b);
    }
  }

  // ----- the commands -----

  function InitCluster(s: MetaState, clusterID: string): MetaState {
    if s.clusterID != "" then s else s.(clusterID := clusterID, version := Next64(s.version))
  }

  /** The record of partition `i` of a new topic: online under the first replica of its row, offline without one. */
  function NewPartition(id: TopicID, i: int32, rows: seq<seq<BrokerID>>): PartitionState {
    var replicas := if 0 <= i < |rows| then rows[i] else [];
    if |replicas| == 0 then PartitionState(id, i, Offline, replicas, [], "", 0, 0)
    else PartitionState(id, i, Online, replicas, replicas, replicas[0], 0, 0)
  }

  function WithPartitions(ps: map<PartitionKey, PartitionState>, id: TopicID, rows: seq<seq<BrokerID>>, n: int32)
    : map<PartitionKey, PartitionState>
    decreases n
  {
    if n <= 0 then ps else WithPartitions(ps, id, rows, n - 1)[PartitionKey(id, n - 1) := NewPartition(id, n - 1, rows)]
  }

  function RowsOf(s: MetaState, c: Command): seq<seq<BrokerID>>
    requires c.CreateTopic?
  {
    Assign(c.brokers, c.numPartitions, c.replicationFactor, LeaderCounts(s.partitions))
  }

  function TopicOf(c: Command): Topic
    requires c.CreateTopic?
  {
    Topic(c.topicID, c.name, c.numPartitions, c.replicationFactor, c.isInternal, c.config)
  }

  function Create(s: MetaState, c: Command): MetaState
    requires c.CreateTopic?
  {
    if c.name in s.byName then s else
      MetaState(s.clusterID, s.topics[c.topicID := TopicOf(c)], s.byName[c.name := c.topicID],
                WithPartitions(s.partitions, c.topicID, RowsOf(s, c), c.numPartitions), Next64(s.version))
  }

  function WithoutPartitions(ps: map<PartitionKey, PartitionState>, id: TopicID, n: int32): map<PartitionKey,
    PartitionState>
    decreases n
  {
    if n <= 0 then ps else WithoutPartitions(ps, id, n - 1) - {PartitionKey(id, n - 1)}
  }

  function Delete(s: MetaState, id: TopicID): MetaState {
    if id !in s.topics then s else
      var topic := s.topics[id];
      MetaState(s.clusterID, s.topics - {id}, s.byName - {topic.name},
                WithoutPartitions(s.partitions, id, topic.numPartitions), Next64(s.version))
  }

  predicate Accepts(s: MetaState, c: Command)
    requires c.UpdatePartition?
  {
    c.key in s.partitions && c.expectedEpoch == s.partitions[c.key].partitionEpoch
  }

  function Updated(p: PartitionState, c: Command): PartitionState
    requires c.UpdatePartition?
  {
    p.(leader := c.newLeader, isr := c.newISR, status := if c.newLeader == "" then Offline else Online,
       leaderEpoch := if c.newLeader != p.leader then Next32(p.leaderEpoch) else p.leaderEpoch,
       partitionEpoch := Next32(p.partitionEpoch))
  }

  /** Compare-and-swap on the partition epoch; a missing partition and a stale epoch change nothing. */
  function Update(s: MetaState, c: Command): MetaState
    requires c.UpdatePartition?
  {
    if !Accepts(s, c) then s else
      s.(partitions := s.partitions[c.key := Updated(s.partitions[c.key], c)], version := Next64(s.version))
  }

  function Apply(s: MetaState, c: Command): MetaState {
    match c
    case ClusterInit(id) => InitCluster(s, id)
    case CreateTopic(_, _, _, _, _, _, _) => Create(s, c)
    case DeleteTopic(id) => Delete(s, id)
    case UpdatePartition(_, _, _, _, _) => Update(s, c)
  }

  /** The state after the first `j` commands. */
  function At(s: MetaState, cmds: seq<Command>, j: nat): MetaState
    requires j <= |cmds|
  {
    if j == 0 then s else Apply(At(s, cmds, j - 1), cmds[j - 1])
  }

  function Final(s: MetaState, cmds: seq<Command>): MetaState { At(s, cmds, |cmds|) }

  // ----- which keys a create adds and a delete removes -----

  lemma {:induction false} WithPartitionsAt(ps: map<PartitionKey, PartitionState>, id: TopicID,
    rows: seq<seq<BrokerID>>,
                                            n: int32, k: PartitionKey)
    ensures var ps' := WithPartitions(ps, id, rows, n);
      if k.topicID == id && 0 <= k.partitionID < n then k in ps' && ps'[k] == NewPartition(id, k.partitionID, rows)
      else (k in ps' <==> k in ps) && (k in ps ==> ps'[k] == ps[k])
    decreases n
  {
    if n > 0 {
      WithPartitionsAt(ps, id, rows, n - 1, k);
    }
  }

  lemma {:induction false} WithoutPartitionsAt(ps: map<PartitionKey, PartitionState>, id: TopicID, n: int32,
                                               k: PartitionKey)
    ensures var ps' := WithoutPartitions(ps, id, n);
      if k.topicID == id && 0 <= k.partitionID < n then k !in ps'
      else (k in ps' <==> k in ps) && (k in ps ==> ps'[k] == ps[k])
    decreases n
  {
    if n > 0 {
      WithoutPartitionsAt(ps, id, n - 1, k);
    }
  }

  // ----- the store object -----

  /** What GetTopicByName does: an index entry whose record is gone is dereferenced as a nil pointer. */
  datatype NameLookup = NotFound | Found(topic: Topic) | NilDereference

  function TopicNamed(s: MetaState, name: string): NameLookup {
    if name !in s.byName then NotFound
    else if s.byName[name] !in s.topics then NilDereference
    else Found(s.topics[s.byName[name]])
  }

  /** The partitions ListPartitions collects among the first `n` numbers. */
  function Listed(ps: map<PartitionKey, PartitionState>, id: TopicID, n: int32): seq<PartitionState>
    decreases n
  {
    if n <= 0 then [] else
      var k := PartitionKey(id, n - 1);
      Listed(ps, id, n - 1) + (if k in ps then [ps[k]] else [])
  }

  class InMemoryStore {
    var clusterID: string
    var topics: map<TopicID, Topic>
    var topicsByName: map<string, TopicID>
    var partitions: map<PartitionKey, PartitionState>
    var version: int64

    ghost function State(): MetaState
      reads this
    {
      MetaState(clusterID, topics, topicsByName, partitions, version)
    }

    constructor ()
      ensures State() == EMPTY
    {
      clusterID, topics, topicsByName, partitions, version := "", map[], map[], map[], 0;
    }

    method ApplyClusterInit(payload: Command)
      requires payload.ClusterInit?
      modifies this
      ensures State() == Apply(old(State()), payload)
    {
      if clusterID != "" { return; }
      clusterID := payload.clusterID;
      version := Next64(version);
    }

    /** The map is visited in an arbitrary order; the counts do not depend on it. */
    method LeaderCountsLocked() returns (counts: Counts)
      ensures counts == LeaderCounts(partitions)
    {
      counts := map[];
      var remaining := partitions.Keys;
      ghost var seen: map<PartitionKey, PartitionState> := map[];
      while remaining != {}
        invariant remaining <= partitions.Keys
        invariant seen == map k | k in partitions && k !in remaining :: partitions[k]
        invariant counts == LeaderCounts(seen)
        decreases |remaining|
      {
        var k :| k in remaining;
        var p := partitions[k];
        CountsWith(seen, k, p);
        if p.status == Online && p.leader != "" {
          counts := counts[p.leader := Count(counts, p.leader) + 1];
        }
        remaining := remaining - {k};
        seen := seen[k := p];
      }
      assert seen == partitions;
    }

    method ApplyCreateTopic(payload: Command)
      requires payload.CreateTopic?
      modifies this
      ensures State() == Apply(old(State()), payload)
    {
      if payload.name in topicsByName { return; }
      var leaderCounts := LeaderCountsLocked();
      var assignments := AssignReplicas(payload.brokers, payload.numPartitions, payload.replicationFactor,
                                        leaderCounts);
      var topic := Topic(payload.topicID, payload.name, payload.numPartitions, payload.replicationFactor,
                         payload.isInternal, payload.config);
      topics := topics[payload.topicID := topic];
      topicsByName := topicsByName[payload.name := payload.topicID];
      InsertPartitions(payload.topicID, payload.numPartitions, assignments);
      version := Next64(version);
    }

    /** The loop of ApplyCreateTopic. */
    method InsertPartitions(id: TopicID, n: int32, assignments: seq<seq<BrokerID>>)
      modifies this`partitions
      ensures partitions == WithPartitions(old(partitions), id, assignments, n)
    {
      var i: int32 := 0;
      while i < n
        invariant 0 <= i && (i <= n || i == 0)
        invariant partitions == WithPartitions(old(partitions), id, assignments, i)
      {
        var replicas: seq<BrokerID> := [];
        if i < |assignments| {
          replicas := assignments[i];
        }
        var status, leader, isr := Offline, "", [];
        if |replicas| != 0 {
          status, leader, isr := Online, replicas[0], replicas;
        }
        partitions := partitions[PartitionKey(id, i) := PartitionState(id, i, status, replicas, isr, leader, 0, 0)];
        i := i + 1;
      }
    }

    method ApplyDeleteTopic(payload: Command)
      requires payload.DeleteTopic?
      modifies this
      ensures State() == Apply(old(State()), payload)
    {
      if payload.topicID !in topics { return; }
      var topic := topics[payload.topicID];
      var i: int32 := 0;
      while i < topic.numPartitions
        invariant 0 <= i && (i <= topic.numPartitions || i == 0)
        invariant partitions == WithoutPartitions(old(partitions), payload.topicID, i)
        invariant unchanged(`clusterID, `topics, `topicsByName, `version)
      {
        partitions := partitions - {PartitionKey(payload.topicID, i)};
        i := i + 1;
      }
      topics := topics - {payload.topicID};
      topicsByName := topicsByName - {topic.name};
      version := Next64(version);
    }

    method ApplyUpdatePartition(payload: Command)
      requires payload.UpdatePartition?
      modifies this
      ensures State() == Apply(old(State()), payload)
    {
      if payload.key !in partitions { return; }
      var state := partitions[payload.key];
      if payload.expectedEpoch != state.partitionEpoch { return; }
      var prevLeader := state.leader;
      state := state.(leader := payload.newLeader, isr := payload.newISR);
      if payload.newLeader == "" {
        state := state.(status := Offline);
      } else {
        state := state.(status := Online);
      }
      if state.leader != prevLeader {
        state := state.(leaderEpoch := Next32(state.leaderEpoch));
      }
      state := state.(partitionEpoch := Next32(state.partitionEpoch));
      partitions := partitions[payload.key := state];
      version := Next64(version);
    }

    method GetTopicByName(name: string) returns (r: NameLookup)
      ensures r == TopicNamed(State(), name)
    {
      if name !in topicsByName { return NotFound; }
      var id := topicsByName[name];
      if id !in topics { return NilDereference; }
      return Found(topics[id]);
    }

    method ListPartitions(id: TopicID) returns (result: seq<PartitionState>)
      ensures result == if id in topics then Listed(partitions, id, topics[id].numPartitions) else []
    {
      if id !in topics { return []; }
      var n := topics[id].numPartitions;
      result := [];
      var i: int32 := 0;
      while i < n
        invariant 0 <= i && (i <= n || i == 0)
        invariant result == Listed(partitions, id, i)
      {
        var k := PartitionKey(id, i);
        if k in partitions {
          result := result + [partitions[k]];
        }
        i := i + 1;
      }
    }
  }
}
