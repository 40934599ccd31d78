/** Recounting leaders agrees with the allocator's own counters, so topic after topic stays balanced. */
module Balance {
  import opened MetaTypes
  import opened Assignment
  import opened Store
  import opened IndexAgreement
  import Greedy
  import AT = AssignmentTheorems

  /** A create that takes effect under a fresh TopicID and allocates from different, non-empty broker IDs. */
  ghost predicate Allocating(s: MetaState, c: Command) {
    && c.CreateTopic? && c.name !in s.byName && c.topicID !in s.topics && "" !in c.brokers
    && AT.Sound(c.brokers, c.numPartitions, c.replicationFactor, LeaderCounts(s.partitions))
  }

  // ----- recounting -----

  ghost predicate NoneOf(ps: map<PartitionKey, PartitionState>, id: TopicID) { forall k :: k in ps ==> k.topicID != id }

  lemma NextPartition(ps: map<PartitionKey, PartitionState>, id: TopicID, rows: seq<seq<BrokerID>>, n: int32)
    requires NoneOf(ps, id) && n > 0
    ensures var ps', k := WithPartitions(ps, id, rows, n - 1), PartitionKey(id, n - 1);
      k !in ps' && WithPartitions(ps, id, rows, n) == ps'[k := NewPartition(id, n - 1, rows)]
  {
    WithPartitionsAt(ps, id, rows, n - 1, PartitionKey(id, n - 1));
  }

  lemma RecountStep(ps: map<PartitionKey, PartitionState>, id: TopicID, rows: seq<seq<BrokerID>>, n: int32, t: Counts)
    requires NoneOf(ps, id) && n > 0 && LeaderCounts(WithPartitions(ps, id, rows, n - 1)) == t
    ensures var p := NewPartition(id, n - 1, rows);
      LeaderCounts(WithPartitions(ps, id, rows, n))
        == if Leads(p, p.leader) then t[p.leader := Count(t, p.leader) + 1] else t
  {
    NextPartition(ps, id, rows, n);
    CountsWith(WithPartitions(ps, id, rows, n - 1), PartitionKey(id, n - 1), NewPartition(id, n - 1, rows));
  }

  /** `ts[i + 1]` is `ts[i]` with the leader of row `i` counted. */
  predicate Link(rows: seq<seq<BrokerID>>, ts: seq<Counts>, i: nat) {
    && i < |rows| && i + 1 < |ts| && |rows[i]| > 0 && rows[i][0] != ""
    && ts[i + 1] == ts[i][rows[i][0] := Count(ts[i], rows[i][0]) + 1]
  }

  ghost predicate Chain(rows: seq<seq<BrokerID>>, ts: seq<Counts>) {
    |ts| > 0 && forall i {:trigger Link(rows, ts, i)} :: 0 <= i < |ts| - 1 ==> Link(rows, ts, i)
  }

  lemma {:induction false} RecountUpTo(ps: map<PartitionKey, PartitionState>, id: TopicID, rows: seq<seq<BrokerID>>,
                                       ts: seq<Counts>, n: int32)
    requires NoneOf(ps, id) && Chain(rows, ts) && ts[0] == LeaderCounts(ps) && 0 <= n < |ts|
    ensures LeaderCounts(WithPartitions(ps, id, rows, n)) == ts[n]
    decreases n
  {
    if n > 0 {
      RecountUpTo(ps, id, rows, ts, n - 1);
      assert Link(rows, ts, n - 1);
      RecountStep(ps, id, rows, n, ts[n - 1]);
    }
  }

  lemma ChainGrows(rows: seq<seq<BrokerID>>, ts: seq<Counts>, t: Counts)
    requires Chain(rows, ts) && |ts| <= |rows| && Link(rows, ts + [t], |ts| - 1)
    ensures Chain(rows, ts + [t])
  {
    forall i | 0 <= i < |ts| ensures Link(rows, ts + [t], i) {
      assert i < |ts| - 1 ==> Link(rows, ts, i);
    }
  }

  lemma NextLink(brokers: seq<BrokerID>, rows: seq<seq<BrokerID>>, counts: Counts, ts: seq<Counts>, n: nat)
    requires AT.Greedily(brokers, rows, counts) && "" !in brokers && n < |rows| && |ts| == n + 2
    requires ts[n] == TallyAfter(brokers, n, counts).global && ts[n + 1] == TallyAfter(brokers, n + 1, counts).global
    ensures Link(rows, ts, n)
  {
    AT.GlobalStep(brokers, rows, counts, n);
  }

  /** The allocator's counter over all topics, before each row and after the last. */
  lemma {:induction false} CountersChain(brokers: seq<BrokerID>, rows: seq<seq<BrokerID>>, counts: Counts, n: nat)
    returns (ts: seq<Counts>)
    requires AT.Greedily(brokers, rows, counts) && "" !in brokers && n <= |rows|
    ensures |ts| == n + 1 && ts[0] == counts && ts[n] == TallyAfter(brokers, n, counts).global && Chain(rows, ts)
    decreases n
  {
    if n == 0 {
      ts := [counts];
    } else {
      var front := CountersChain(brokers, rows, counts, n - 1);
      ts := front + [TallyAfter(brokers, n, counts).global];
      NextLink(brokers, rows, counts, ts, n - 1);
      ChainGrows(rows, front, ts[n]);
    }
  }

  /** After a create, counting leaders over again gives exactly the allocator's final counters. */
  lemma RecountAgrees(s: MetaState, c: Command)
    requires KeysAgree(s) && Allocating(s, c)
    ensures LeaderCounts(Create(s, c).partitions)
      == TallyAfter(c.brokers, c.numPartitions, LeaderCounts(s.partitions)).global
  {
    var counts, rows := LeaderCounts(s.partitions), RowsOf(s, c);
    AT.AssignIsGreedy(c.brokers, c.numPartitions, c.replicationFactor, counts);
    var ts := CountersChain(c.brokers, rows, counts, |rows|);
    FreshHasNone(s, c.topicID);
    RecountUpTo(s.partitions, c.topicID, rows, ts, c.numPartitions);
  }

  lemma FreshHasNone(s: MetaState, id: TopicID)
    requires KeysAgree(s) && id !in s.topics
    ensures NoneOf(s.partitions, id)
  {
    forall k | k in s.partitions ensures k.topicID != id {
      assert Owned(s, k);
    }
  }

  lemma {:induction false} OfflineAddsNothing(ps: map<PartitionKey, PartitionState>, id: TopicID, n: int32)
    requires NoneOf(ps, id)
    ensures LeaderCounts(WithPartitions(ps, id, [], n)) == LeaderCounts(ps)
    decreases n
  {
    if n > 0 {
      OfflineAddsNothing(ps, id, n - 1);
      RecountStep(ps, id, [], n, LeaderCounts(ps));
    }
  }

  // ----- balance -----

  ghost predicate Spread(brokers: set<BrokerID>, counts: Counts, d: int) {
    forall b, c {:trigger Count(counts, b), Count(counts, c)} ::
      b in brokers && c in brokers ==> Count(counts, b) <= Count(counts, c) + d
  }

  /** A create over brokers whose totals differ by at most their number leaves them no further apart, or one apart. */
  lemma CreateKeepsBalance(s: MetaState, c: Command, spread: nat)
    requires KeysAgree(s) && Allocating(s, c) && spread <= |c.brokers|
    requires Spread(Elements(c.brokers), LeaderCounts(s.partitions), spread)
    ensures Spread(Elements(c.brokers), LeaderCounts(Create(s, c).partitions), if spread > 1 then spread else 1)
  {
    var counts, counts', rows := LeaderCounts(s.partitions), LeaderCounts(Create(s, c).partitions), RowsOf(s, c);
    RecountAgrees(s, c);
    assert AT.SpreadWithin(c.brokers, counts, spread);
    forall a, b | a in Elements(c.brokers) && b in Elements(c.brokers)
      ensures Count(counts', a) <= Count(counts', b) + (if spread > 1 then spread else 1)
    {
      AT.FinalCounters(c.brokers, c.numPartitions, c.replicationFactor, counts, a);
      AT.FinalCounters(c.brokers, c.numPartitions, c.replicationFactor, counts, b);
      AT.GlobalBalance(c.brokers, c.numPartitions, c.replicationFactor, counts, spread, a, b);
    }
  }

  // ----- runs of creates over one broker set -----

  predicate Over(c: Command, brokers: set<BrokerID>) {
    c.ClusterInit? || (c.CreateTopic? && Distinct(c.brokers) && Elements(c.brokers) == brokers)
  }

  /** Every score of the create stays within 64 bits: partitions so far, and those to come once for each broker
      and once more. */
  predicate RoomFor(s: MetaState, c: Command)
    requires c.CreateTopic?
  {
    c.numPartitions <= 0 || |s.partitions| + (|c.brokers| + 1) * c.numPartitions < MAX_INT
  }

  /** Only creates over one set of brokers, in any order of listing, beside cluster initialisation; no live
      TopicID is reused, and there is room for every create when it comes. */
  ghost predicate OneBrokerSet(cmds: seq<Command>, brokers: set<BrokerID>) {
    && "" !in brokers && (forall i :: 0 <= i < |cmds| ==> Over(cmds[i], brokers))
    && FreshUpTo(cmds, |cmds|)
    && (forall i {:trigger cmds[i]} :: 0 <= i < |cmds| && cmds[i].CreateTopic? ==> RoomFor(At(EMPTY, cmds, i), cmds[i]))
  }

  lemma CountsFit(ps: map<PartitionKey, PartitionState>, brokers: seq<BrokerID>, n: int32)
    requires n > 0 && |ps| + (|brokers| + 1) * n < MAX_INT
    ensures Fits(brokers, n as nat, LeaderCounts(ps))
  {
    forall b | b in brokers
      ensures 0 <= Count(LeaderCounts(ps), b) && Count(LeaderCounts(ps), b) + (|brokers| + 1) * n < MAX_INT
    {
      CountIsLed(ps, b);
      Greedy.SmallerSet(LedKeys(ps, b), ps.Keys);
    }
  }

  lemma BalanceStep(cmds: seq<Command>, brokers: set<BrokerID>, j: nat)
    requires OneBrokerSet(cmds, brokers) && j < |cmds| && Agrees(At(EMPTY, cmds, j))
    requires Spread(brokers, LeaderCounts(At(EMPTY, cmds, j).partitions), 1)
    ensures Spread(brokers, LeaderCounts(At(EMPTY, cmds, j + 1).partitions), 1)
  {
    var s, c := At(EMPTY, cmds, j), cmds[j];
    assert Over(c, brokers);
    if c.CreateTopic? && c.name !in s.byName {
      assert FreshFor(s, c);
      if Allocates(c.brokers, c.numPartitions, c.replicationFactor) {
        CountsFit(s.partitions, c.brokers, c.numPartitions);
        CreateKeepsBalance(s, c, 1);
      } else {
        FreshHasNone(s, c.topicID);
        OfflineAddsNothing(s.partitions, c.topicID, c.numPartitions);
      }
    }
  }

  lemma OneBrokerSetAgrees(cmds: seq<Command>, brokers: set<BrokerID>, j: nat)
    requires OneBrokerSet(cmds, brokers) && j <= |cmds|
    ensures Agrees(At(EMPTY, cmds, j))
  {
    AgreementIff(cmds, |cmds|);
  }

  /** From an empty store, any number of creates over one broker set keeps every two brokers within one leader. */
  lemma {:induction false} RunsStayBalanced(cmds: seq<Command>, brokers: set<BrokerID>, j: nat)
    requires OneBrokerSet(cmds, brokers) && j <= |cmds|
    ensures Spread(brokers, LeaderCounts(At(EMPTY, cmds, j).partitions), 1)
  {
    if j > 0 {
      RunsStayBalanced(cmds, brokers, j - 1);
      OneBrokerSetAgrees(cmds, brokers, j - 1);
      BalanceStep(cmds, brokers, j - 1);
    }
  }

  // ----- when there is room -----

  lemma InsertSize<K, V>(m: map<K, V>, k: K, v: V)
    ensures |m[k := v]| <= |m| + 1
  {
    assert m[k := v].Keys == m.Keys + {k};
  }

  lemma {:induction false} WithPartitionsSize(ps: map<PartitionKey, PartitionState>, id: TopicID,
                                              rows: seq<seq<BrokerID>>, n: int32)
    ensures |WithPartitions(ps, id, rows, n)| <= |ps| + (if n <= 0 then 0 else n as int)
    decreases n
  {
    if n > 0 {
      WithPartitionsSize(ps, id, rows, n - 1);
      InsertSize(WithPartitions(ps, id, rows, n - 1), PartitionKey(id, n - 1), NewPartition(id, n - 1, rows));
    }
  }

  lemma StepSize(s: MetaState, c: Command)
    requires c.ClusterInit? || c.CreateTopic?
    ensures |Apply(s, c).partitions| <= |s.partitions| + 0x8000_0000
  {
    if c.CreateTopic? {
      WithPartitionsSize(s.partitions, c.topicID, RowsOf(s, c), c.numPartitions);
    }
  }

  lemma {:induction false} PartitionsBounded(cmds: seq<Command>, brokers: set<BrokerID>, j: nat)
    requires j <= |cmds| && forall i :: 0 <= i < |cmds| ==> Over(cmds[i], brokers)
    ensures |At(EMPTY, cmds, j).partitions| <= j * 0x8000_0000
  {
    if j > 0 {
      PartitionsBounded(cmds, brokers, j - 1);
      assert Over(cmds[j - 1], brokers);
      StepSize(At(EMPTY, cmds, j - 1), cmds[j - 1]);
    }
  }

  lemma ProductBound(a: nat, b: nat)
    requires a <= 0x8000_0000 && b <= 0x8000_0000
    ensures a * b <= 0x4000_0000_0000_0000
  {
    var d := 0x8000_0000 - b;
    assert a * 0x8000_0000 == a * (b + d) == a * b + a * d && a * d >= 0;
  }

  /** Fewer than 2^31 brokers and at most 2^30 commands always leave room. */
  lemma ShortListsHaveRoom(cmds: seq<Command>, brokers: set<BrokerID>, j: nat)
    requires |brokers| < 0x8000_0000 && |cmds| <= 0x4000_0000
    requires (forall i :: 0 <= i < |cmds| ==> Over(cmds[i], brokers))
    requires j < |cmds| && cmds[j].CreateTopic?
    ensures RoomFor(At(EMPTY, cmds, j), cmds[j])
  {
    assert Over(cmds[j], brokers);
    if cmds[j].numPartitions > 0 {
      PartitionsBounded(cmds, brokers, j);
      DistinctSize(cmds[j].brokers);
      ProductBound(|cmds[j].brokers| + 1, cmds[j].numPartitions);
    }
  }
}
