/** AssignReplicas and pickBest: the greedy, scored allocation of a topic's replicas. */
module Assignment {
  import opened MetaTypes
  import Greedy

  type Counts = map<BrokerID, int>

  /** Reading a missing key of a Go map of integers gives zero. */
  function Count(m: Counts, b: BrokerID): int { if b in m then m[b] else 0 }

  function Increment(m: Counts, b: BrokerID): Counts { m[b := Wrap64(Count(m, b) + 1)] }

  /** The score of a broker, in 64-bit arithmetic. */
  function Score(global: Counts, topic: Counts, b: BrokerID, alpha: int, beta: int): int64 {
    Wrap64(Count(global, b) * alpha + Count(topic, b) * beta)
  }

  // ----- choosing one broker -----

  /** `k` is where the first unassigned broker with the least score stands among the first `upTo`;
      -1 stands for none, which is also the answer when every candidate scores MAX_INT. */
  ghost predicate IsBest(brokers: seq<BrokerID>, upTo: nat, taken: set<BrokerID>,
                         global: Counts, topic: Counts, alpha: int, beta: int, k: int)
    requires upTo <= |brokers|
  {
    && -1 <= k < upTo
    && (k == -1 ==> forall i :: 0 <= i < upTo && brokers[i] !in taken ==>
      Score(global, topic, brokers[i], alpha, beta) == MAX_INT)
    && (k >= 0 ==>
          && brokers[k] !in taken
          && Score(global, topic, brokers[k], alpha, beta) < MAX_INT
          && (forall i :: 0 <= i < upTo && brokers[i] !in taken ==>
                Score(global, topic, brokers[k], alpha, beta) <= Score(global, topic, brokers[i], alpha, beta))
          && (forall i :: 0 <= i < k && brokers[i] !in taken ==>
                Score(global, topic, brokers[k], alpha, beta) < Score(global, topic, brokers[i], alpha, beta)))
  }

  function Best(brokers: seq<BrokerID>, upTo: nat, taken: set<BrokerID>,
                global: Counts, topic: Counts, alpha: int, beta: int): (k: int)
    requires upTo <= |brokers|
    ensures -1 <= k < upTo
    decreases upTo
  {
    if upTo == 0 then -1 else
      var k := Best(brokers, upTo - 1, taken, global, topic, alpha, beta);
      var bestScore := if k == -1 then MAX_INT else Score(global, topic, brokers[k], alpha, beta);
      if brokers[upTo - 1] !in taken && Score(global, topic, brokers[upTo - 1], alpha, beta) < bestScore
      then upTo - 1 else k
  }

  lemma {:induction false} BestIsBest(brokers: seq<BrokerID>, upTo: nat, taken: set<BrokerID>,
                                      global: Counts, topic: Counts, alpha: int, beta: int)
    requires upTo <= |brokers|
    ensures IsBest(brokers, upTo, taken, global, topic, alpha, beta,
      Best(brokers, upTo, taken, global, topic, alpha, beta))
    decreases upTo
  {
    if upTo > 0 {
      BestIsBest(brokers, upTo - 1, taken, global, topic, alpha, beta);
    }
  }

  /** The broker pickBest returns: the empty ID when there is none. */
  function Pick(brokers: seq<BrokerID>, taken: set<BrokerID>, global: Counts, topic: Counts): BrokerID {
    var k := Best(brokers, |brokers|, taken, global, topic, 1, |brokers|);
    if k == -1 then "" else brokers[k]
  }

  method PickBest(brokers: seq<BrokerID>, taken: set<BrokerID>, global: Counts, topic: Counts, alpha: int, beta: int)
    returns (best: BrokerID)
    ensures var k := Best(brokers, |brokers|, taken, global, topic, alpha, beta);
      best == if k == -1 then "" else brokers[k]
  {
    best := "";
    var bestScore := MAX_INT;
    ghost var k := -1;
    for i := 0 to |brokers|
      invariant k == Best(brokers, i, taken, global, topic, alpha, beta)
      invariant best == if k == -1 then "" else brokers[k]
      invariant bestScore == if k == -1 then MAX_INT else Score(global, topic, brokers[k], alpha, beta)
    {
      var b := brokers[i];
      if b in taken { continue; }
      var score := Score(global, topic, b, alpha, beta);
      if score < bestScore {
        bestScore := score;
        best := b;
        k := i;
      }
    }
  }

  // ----- the whole allocation -----

  /** The two running counters: leaders over all topics and leaders of this topic. */
  datatype Tally = Tally(global: Counts, topic: Counts)

  function LeaderFor(brokers: seq<BrokerID>, t: Tally): BrokerID { Pick(brokers, {}, t.global, t.topic) }

  /** The counters after the first `p` partitions. */
  function TallyAfter(brokers: seq<BrokerID>, p: nat, leaderCounts: Counts): Tally {
    if p == 0 then Tally(leaderCounts, map[]) else
      var t := TallyAfter(brokers, p - 1, leaderCounts);
      var b := LeaderFor(brokers, t);
      Tally(Increment(t.global, b), Increment(t.topic, b))
  }

  function LeaderOf(brokers: seq<BrokerID>, p: nat, leaderCounts: Counts): BrokerID {
    LeaderFor(brokers, TallyAfter(brokers, p, leaderCounts))
  }

  function Elements(s: seq<BrokerID>): set<BrokerID> { set b | b in s }

  /** A leader followed by `more` further brokers, each picked with the counters `t`. */
  function Followed(brokers: seq<BrokerID>, leader: BrokerID, more: nat, t: Tally): (r: seq<BrokerID>)
    ensures |r| == more + 1 && r[0] == leader
  {
    if more == 0 then [leader] else
      var r := Followed(brokers, leader, more - 1, t);
      r + [Pick(brokers, Elements(r), t.global, t.topic)]
  }

  function EffectiveRF(brokers: seq<BrokerID>, replicationFactor: int32): int {
    if replicationFactor > |brokers| then |brokers| else replicationFactor
  }

  predicate Allocates(brokers: seq<BrokerID>, numPartitions: int32, replicationFactor: int32) {
    |brokers| > 0 && numPartitions > 0 && replicationFactor > 0
  }

  /** The replicas of partition `p`; the leader counts as soon as it is chosen. */
  function RowFor(brokers: seq<BrokerID>, p: nat, effectiveRF: nat, leaderCounts: Counts): (r: seq<BrokerID>)
    ensures |r| == effectiveRF && (effectiveRF > 0 ==> r[0] == LeaderOf(brokers, p, leaderCounts))
  {
    if effectiveRF == 0 then [] else
      Followed(brokers, LeaderOf(brokers, p, leaderCounts), effectiveRF - 1, TallyAfter(brokers, p + 1, leaderCounts))
  }

  function RowsUpTo(brokers: seq<BrokerID>, p: nat, effectiveRF: nat, leaderCounts: Counts): (rows: seq<seq<BrokerID>>)
    ensures |rows| == p
  {
    if p == 0 then []
    else RowsUpTo(brokers, p - 1, effectiveRF, leaderCounts) + [RowFor(brokers, p - 1, effectiveRF, leaderCounts)]
  }

  lemma {:induction false} RowsAt(brokers: seq<BrokerID>, p: nat, effectiveRF: nat, leaderCounts: Counts, q: nat)
    requires q < p
    ensures RowsUpTo(brokers, p, effectiveRF, leaderCounts)[q] == RowFor(brokers, q, effectiveRF, leaderCounts)
    decreases p
  {
    var rows, last := RowsUpTo(brokers, p - 1, effectiveRF, leaderCounts), RowFor(brokers, p - 1, effectiveRF,
                               leaderCounts);
    assert RowsUpTo(brokers, p, effectiveRF, leaderCounts) == rows + [last];
    if q < p - 1 {
      RowsAt(brokers, p - 1, effectiveRF, leaderCounts, q);
      assert (rows + [last])[q] == rows[q];
    }
  }

  lemma RowsAre(brokers: seq<BrokerID>, p: nat, effectiveRF: nat, leaderCounts: Counts, rows: seq<seq<BrokerID>>)
    requires |rows| == p && forall q :: 0 <= q < p ==> rows[q] == RowFor(brokers, q, effectiveRF, leaderCounts)
    ensures rows == RowsUpTo(brokers, p, effectiveRF, leaderCounts)
  {
    forall q | 0 <= q < p ensures rows[q] == RowsUpTo(brokers, p, effectiveRF, leaderCounts)[q] {
      RowsAt(brokers, p, effectiveRF, leaderCounts, q);
    }
  }

  function Assign(brokers: seq<BrokerID>, numPartitions: int32, replicationFactor: int32,
    leaderCounts: Counts): seq<seq<BrokerID>> {
    if !Allocates(brokers, numPartitions, replicationFactor) then [] else
      var effectiveRF: nat := EffectiveRF(brokers, replicationFactor);
      RowsUpTo(brokers, numPartitions, effectiveRF, leaderCounts)
  }

  /** Row by row what the allocation is. */
  lemma AssignAt(brokers: seq<BrokerID>, numPartitions: int32, replicationFactor: int32, leaderCounts: Counts, p: nat)
    requires Allocates(brokers, numPartitions, replicationFactor) && p < numPartitions
    ensures var rows := Assign(brokers, numPartitions, replicationFactor, leaderCounts);
      && |rows| == numPartitions && |rows[p]| == EffectiveRF(brokers, replicationFactor)
      && rows[p] == RowFor(brokers, p, EffectiveRF(brokers, replicationFactor), leaderCounts)
      && rows[p][0] == LeaderOf(brokers, p, leaderCounts)
  {
    RowsAt(brokers, numPartitions, EffectiveRF(brokers, replicationFactor), leaderCounts, p);
  }

  lemma RowStep(brokers: seq<BrokerID>, p: nat, effectiveRF: nat, counts: Counts)
    requires effectiveRF > 0
    ensures var t := TallyAfter(brokers, p, counts);
      var leader := LeaderFor(brokers, t);
      var t' := Tally(Increment(t.global, leader), Increment(t.topic, leader));
      TallyAfter(brokers, p + 1, counts) == t'
        && RowFor(brokers, p, effectiveRF, counts) == Followed(brokers, leader, effectiveRF - 1, t')
  {
  }

  /** The inner loop of AssignReplicas: one row, and the counters with its leader counted. */
  method AssignRow(brokers: seq<BrokerID>, effectiveRF: int, global: Counts, topic: Counts)
    returns (replicas: seq<BrokerID>, globalCounts: Counts, topicLeaders: Counts)
    requires effectiveRF > 0
    ensures var leader := LeaderFor(brokers, Tally(global, topic));
      && globalCounts == Increment(global, leader) && topicLeaders == Increment(topic, leader)
      && replicas == Followed(brokers, leader, effectiveRF - 1, Tally(globalCounts, topicLeaders))
  {
    var alpha, beta := 1, |brokers|;
    globalCounts, topicLeaders := global, topic;
    var taken: set<BrokerID> := {};
    replicas := [];
    ghost var leader := LeaderFor(brokers, Tally(global, topic));
    ghost var counted := Tally(Increment(global, leader), Increment(topic, leader));
    for slot := 0 to effectiveRF
      invariant taken == Elements(replicas)
      invariant slot == 0 ==> replicas == [] && globalCounts == global && topicLeaders == topic
      invariant slot > 0 ==> replicas == Followed(brokers, leader, slot - 1, counted)
      invariant slot > 0 ==> globalCounts == counted.global && topicLeaders == counted.topic
    {
      var best := PickBest(brokers, taken, globalCounts, topicLeaders, alpha, beta);
      assert best == Pick(brokers, taken, globalCounts, topicLeaders);
      replicas := replicas + [best];
      taken := taken + {best};
      if slot == 0 {
        topicLeaders := Increment(topicLeaders, best);
        globalCounts := Increment(globalCounts, best);
      }
    }
  }

  method AssignReplicas(brokers: seq<BrokerID>, numPartitions: int32, replicationFactor: int32, leaderCounts: Counts)
    returns (result: seq<seq<BrokerID>>)
    ensures result == Assign(brokers, numPartitions, replicationFactor, leaderCounts)
  {
    if |brokers| == 0 || numPartitions <= 0 || replicationFactor <= 0 {
      return [];
    }
    var globalCounts := leaderCounts;
    var topicLeaders: Counts := map[];
    var effectiveRF: int := replicationFactor;
    if effectiveRF > |brokers| {
      effectiveRF := |brokers|;
    }
    result := [];
    for p := 0 to numPartitions
      invariant Tally(globalCounts, topicLeaders) == TallyAfter(brokers, p, leaderCounts)
      invariant |result| == p && forall q :: 0 <= q < p ==> result[q] == RowFor(brokers, q, effectiveRF, leaderCounts)
    {
      RowStep(brokers, p, effectiveRF, leaderCounts);
      var replicas;
      replicas, globalCounts, topicLeaders := AssignRow(brokers, effectiveRF, globalCounts, topicLeaders);
      result := result + [replicas];
    }
    RowsAre(brokers, numPartitions, effectiveRF, leaderCounts, result);
  }

  // ----- well-formedness under machine integers -----

  predicate Distinct(s: seq<BrokerID>) { forall i, j :: 0 <= i < j < |s| ==> s[i] != s[j] }

  /** Counts so far are not negative, and small enough that no score reaches MAX_INT. */
  ghost predicate Fits(brokers: seq<BrokerID>, partitions: nat, counts: Counts) {
    forall b :: b in brokers ==> 0 <= Count(counts, b) && Count(counts, b) + (|brokers| + 1) * partitions < MAX_INT
  }

  /** The counters as the arithmetic of unbounded integers has them. */
  ghost predicate Exact(brokers: seq<BrokerID>, p: nat, counts: Counts, t: Tally) {
    forall b :: b in brokers ==>
      0 <= Count(t.topic, b) <= p && Count(t.global, b) == Count(counts, b) + Count(t.topic, b)
  }

  lemma ScoreReduces(brokers: seq<BrokerID>, p: nat, partitions: nat, counts: Counts, t: Tally, b: BrokerID)
    requires Fits(brokers, partitions, counts) && Exact(brokers, p, counts, t) && p <= partitions && b in brokers
    ensures Score(t.global, t.topic, b, 1, |brokers|)
      == Count(counts, b) + (|brokers| + 1) * Count(t.topic, b) < MAX_INT
  {
    ScoreArithmetic(|brokers|, Count(t.topic, b), partitions, Count(counts, b));
  }

  lemma ScoreArithmetic(n: nat, x: nat, partitions: nat, c: nat)
    requires x <= partitions && c + (n + 1) * partitions < MAX_INT
    ensures (c + x) * 1 + x * n == c + (n + 1) * x
    ensures 0 <= c + (n + 1) * x < MAX_INT
  {
    assert (n + 1) * x == n * x + x;
    assert (n + 1) * partitions == (n + 1) * x + (n + 1) * (partitions - x);
    assert (n + 1) * (partitions - x) >= 0 && (n + 1) * x >= 0;
  }

  lemma PickIsCandidate(brokers: seq<BrokerID>, p: nat, partitions: nat, counts: Counts, t: Tally, taken: set<BrokerID>)
    requires Fits(brokers, partitions, counts) && Exact(brokers, p, counts, t) && p <= partitions
    requires exists b :: b in brokers && b !in taken
    ensures var best := Pick(brokers, taken, t.global, t.topic); best in brokers && best !in taken
  {
    var b :| b in brokers && b !in taken;
    var i :| 0 <= i < |brokers| && brokers[i] == b;
    ScoreReduces(brokers, p, partitions, counts, t, b);
    BestIsBest(brokers, |brokers|, taken, t.global, t.topic, 1, |brokers|);
  }

  lemma SmallIncrement(m: Counts, b: BrokerID)
    requires 0 <= Count(m, b) < MAX_INT
    ensures Increment(m, b) == m[b := Count(m, b) + 1]
  {
  }

  lemma {:induction false} TallyExact(brokers: seq<BrokerID>, p: nat, partitions: nat, counts: Counts)
    requires |brokers| > 0 && Fits(brokers, partitions, counts) && p <= partitions
    ensures Exact(brokers, p, counts, TallyAfter(brokers, p, counts))
    ensures p < partitions ==> LeaderOf(brokers, p, counts) in brokers
  {
    var t' := TallyAfter(brokers, p, counts);
    if p > 0 {
      TallyExact(brokers, p - 1, partitions, counts);
      var t := TallyAfter(brokers, p - 1, counts);
      TallyFits(brokers, p - 1, partitions, counts, t, LeaderFor(brokers, t));
    }
    assert Exact(brokers, p, counts, t');
    if p < partitions {
      assert brokers[0] in brokers && brokers[0] !in {};
      PickIsCandidate(brokers, p, partitions, counts, t', {});
    }
  }

  lemma TallyFits(brokers: seq<BrokerID>, p: nat, partitions: nat, counts: Counts, t: Tally, b: BrokerID)
    requires Fits(brokers, partitions, counts) && Exact(brokers, p, counts, t) && p < partitions && b in brokers
    ensures Increment(t.global, b) == t.global[b := Count(t.global, b) + 1]
    ensures Increment(t.topic, b) == t.topic[b := Count(t.topic, b) + 1]
    ensures Exact(brokers, p + 1, counts, Tally(Increment(t.global, b), Increment(t.topic, b)))
  {
    ScoreReduces(brokers, p, partitions, counts, t, b);
    assert (|brokers| + 1) * partitions == |brokers| * partitions + partitions && |brokers| * partitions >= 0;
    SmallIncrement(t.global, b);
    SmallIncrement(t.topic, b);
  }

  lemma {:induction false} DistinctSize(s: seq<BrokerID>)
    requires Distinct(s)
    ensures |Elements(s)| == |s|
  {
    if s != [] {
      var n := |s| - 1;
      DistinctSize(s[..n]);
      assert Elements(s) == Elements(s[..n]) + {s[n]};
    }
  }

  lemma {:induction false} FollowedWellFormed(brokers: seq<BrokerID>, leader: BrokerID, more: nat,
                                              p: nat, partitions: nat, counts: Counts, t: Tally)
    requires leader in brokers && more < |Elements(brokers)|
    requires Fits(brokers, partitions, counts) && Exact(brokers, p, counts, t) && p <= partitions
    ensures var r := Followed(brokers, leader, more, t); Distinct(r) && Elements(r) <= Elements(brokers)
  {
    if more > 0 {
      FollowedWellFormed(brokers, leader, more - 1, p, partitions, counts, t);
      var r := Followed(brokers, leader, more - 1, t);
      DistinctSize(r);
      if Elements(brokers) <= Elements(r) {
        Greedy.SmallerSet(Elements(brokers), Elements(r));
        assert false;
      }
      var b :| b in Elements(brokers) && b !in Elements(r);
      PickIsCandidate(brokers, p, partitions, counts, t, Elements(r));
    }
  }

  /** Different brokers, all of them listed. */
  ghost predicate WellFormedRow(brokers: seq<BrokerID>, row: seq<BrokerID>) {
    Distinct(row) && Elements(row) <= Elements(brokers)
  }

  lemma RowWellFormed(brokers: seq<BrokerID>, p: nat, numPartitions: int32, effectiveRF: nat, counts: Counts)
    requires |brokers| > 0 && p < numPartitions && 0 < effectiveRF <= |Elements(brokers)|
    requires Fits(brokers, numPartitions as nat, counts)
    ensures WellFormedRow(brokers, RowFor(brokers, p, effectiveRF, counts))
  {
    var leader, t' := LeaderOf(brokers, p, counts), TallyAfter(brokers, p + 1, counts);
    assert leader in brokers by { TallyExact(brokers, p, numPartitions, counts); }
    assert Exact(brokers, p + 1, counts, t') by { TallyExact(brokers, p + 1, numPartitions, counts); }
    FollowedWellFormed(brokers, leader, effectiveRF - 1, p + 1, numPartitions, counts, t');
  }

  /** One row a partition, each of min(replicationFactor, |brokers|) entries. The entries are different listed
      brokers, none of them the empty ID of a failed pick, exactly when the list names that many different
      brokers: repeated IDs count towards the cap but cannot be picked twice. */
  lemma AllocationWellFormed(brokers: seq<BrokerID>, numPartitions: int32, replicationFactor: int32, counts: Counts)
    requires Allocates(brokers, numPartitions, replicationFactor) && Fits(brokers, numPartitions as nat, counts)
    ensures var rows := Assign(brokers, numPartitions, replicationFactor, counts);
      var rf := if replicationFactor < |brokers| then replicationFactor else |brokers|;
      && |rows| == numPartitions && (forall p :: 0 <= p < |rows| ==> |rows[p]| == rf)
      && ((forall p :: 0 <= p < |rows| ==> WellFormedRow(brokers, rows[p])) <==> rf <= |Elements(brokers)|)
  {
    var rows, rf := Assign(brokers, numPartitions, replicationFactor, counts), EffectiveRF(brokers, replicationFactor);
    forall p | 0 <= p < |rows| ensures |rows[p]| == rf {
      AssignAt(brokers, numPartitions, replicationFactor, counts, p);
    }
    if rf <= |Elements(brokers)| {
      forall p | 0 <= p < |rows| ensures WellFormedRow(brokers, rows[p]) {
        AssignAt(brokers, numPartitions, replicationFactor, counts, p);
        RowWellFormed(brokers, p, numPartitions, rf, counts);
      }
    }
    if WellFormedRow(brokers, rows[0]) {
      DistinctSize(rows[0]);
      Greedy.SmallerSet(Elements(rows[0]), Elements(brokers));
    }
  }

  /** Different broker IDs are always enough. */
  lemma DistinctBrokersWellFormed(brokers: seq<BrokerID>, numPartitions: int32, replicationFactor: int32,
    counts: Counts)
    requires Allocates(brokers, numPartitions, replicationFactor) && Fits(brokers, numPartitions as nat, counts)
    requires Distinct(brokers)
    ensures forall p :: 0 <= p < numPartitions ==>
      WellFormedRow(brokers, Assign(brokers, numPartitions, replicationFactor, counts)[p])
  {
    AllocationWellFormed(brokers, numPartitions, replicationFactor, counts);
    DistinctSize(brokers);
  }
}
