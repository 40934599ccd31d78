/** What the allocation guarantees, stated on the rows AssignReplicas returns. */
module AssignmentTheorems {
  import opened MetaTypes
  import opened Assignment
  import Greedy

  /** How many of the first `p` rows broker `b` leads. */
  function Led(rows: seq<seq<BrokerID>>, p: nat, b: BrokerID): nat
    requires p <= |rows|
  {
    if p == 0 then 0 else Led(rows, p - 1, b) + (if |rows[p - 1]| > 0 && rows[p - 1][0] == b then 1 else 0)
  }

  function LedBy(brokers: seq<BrokerID>, rows: seq<seq<BrokerID>>, p: nat): (t: seq<nat>)
    requires p <= |rows|
  {
    seq(|brokers|, i requires 0 <= i < |brokers| => Led(rows, p, brokers[i]))
  }

  function TraceOf(brokers: seq<BrokerID>, rows: seq<seq<BrokerID>>): seq<seq<nat>> {
    seq(|rows| + 1, p requires 0 <= p <= |rows| => LedBy(brokers, rows, p))
  }

  function Base(brokers: seq<BrokerID>, counts: Counts): seq<int> {
    seq(|brokers|, i requires 0 <= i < |brokers| => Count(counts, brokers[i]))
  }

  /** What every theorem here asks of a call; all of it can be checked before the call. */
  ghost predicate Sound(brokers: seq<BrokerID>, numPartitions: int32, replicationFactor: int32, counts: Counts) {
    && Distinct(brokers) && Allocates(brokers, numPartitions, replicationFactor)
    && Fits(brokers, numPartitions as nat, counts)
  }

  // ----- the allocator runs the greedy process -----

  predicate RowLed(brokers: seq<BrokerID>, rows: seq<seq<BrokerID>>, counts: Counts, p: nat)
    requires p < |rows|
  {
    |rows[p]| > 0 && rows[p][0] == LeaderOf(brokers, p, counts)
  }

  /** Rows led by the brokers the allocator chooses, whatever follows the leaders. */
  ghost predicate LedGreedily(brokers: seq<BrokerID>, rows: seq<seq<BrokerID>>, counts: Counts) {
    && |brokers| > 0 && Fits(brokers, |rows|, counts)
    && forall p {:trigger RowLed(brokers, rows, counts, p)} :: 0 <= p < |rows| ==> RowLed(brokers, rows, counts, p)
  }

  ghost predicate Greedily(brokers: seq<BrokerID>, rows: seq<seq<BrokerID>>, counts: Counts) {
    Distinct(brokers) && LedGreedily(brokers, rows, counts)
  }

  lemma AssignIsGreedy(brokers: seq<BrokerID>, numPartitions: int32, replicationFactor: int32, counts: Counts)
    requires Sound(brokers, numPartitions, replicationFactor, counts)
    ensures var rows := Assign(brokers, numPartitions, replicationFactor, counts);
      |rows| == numPartitions && Greedily(brokers, rows, counts)
  {
    var rows := Assign(brokers, numPartitions, replicationFactor, counts);
    forall p | 0 <= p < |rows| ensures RowLed(brokers, rows, counts, p) {
      AssignAt(brokers, numPartitions, replicationFactor, counts, p);
    }
  }

  lemma TallyStep(brokers: seq<BrokerID>, rows: seq<seq<BrokerID>>, counts: Counts, p: nat)
    requires LedGreedily(brokers, rows, counts) && p < |rows|
    ensures var t, b := TallyAfter(brokers, p, counts), LeaderOf(brokers, p, counts);
      && |rows[p]| > 0 && rows[p][0] == b
      && TallyAfter(brokers, p + 1, counts)
        == Tally(t.global[b := Count(t.global, b) + 1], t.topic[b := Count(t.topic, b) + 1])
  {
    assert RowLed(brokers, rows, counts, p);
    TallyExact(brokers, p, |rows|, counts);
    var t := TallyAfter(brokers, p, counts);
    TallyFits(brokers, p, |rows|, counts, t, LeaderFor(brokers, t));
  }

  /** The leader of a row is a listed broker, and the counter over all topics goes up by one for it alone. */
  lemma GlobalStep(brokers: seq<BrokerID>, rows: seq<seq<BrokerID>>, counts: Counts, p: nat)
    requires Greedily(brokers, rows, counts) && p < |rows|
    ensures |rows[p]| > 0 && rows[p][0] in brokers
    ensures var t, b := TallyAfter(brokers, p, counts).global, rows[p][0];
      TallyAfter(brokers, p + 1, counts).global == t[b := Count(t, b) + 1]
  {
    TallyStep(brokers, rows, counts, p);
    TallyExact(brokers, p, |rows|, counts);
  }

  /** The allocator's counters are the rows led so far: of this topic, and of all topics on top of the initial counts.
      */
  lemma {:induction false} CountersAreRows(brokers: seq<BrokerID>, rows: seq<seq<BrokerID>>, counts: Counts, p: nat,
                                           b: BrokerID)
    requires LedGreedily(brokers, rows, counts) && p <= |rows|
    ensures Count(TallyAfter(brokers, p, counts).topic, b) == Led(rows, p, b)
    ensures Count(TallyAfter(brokers, p, counts).global, b) == Count(counts, b) + Led(rows, p, b)
  {
    if p == 0 {
      assert TallyAfter(brokers, p, counts) == Tally(counts, map[]);
    } else {
      CountersAreRows(brokers, rows, counts, p - 1, b);
      TallyStep(brokers, rows, counts, p - 1);
    }
  }

  lemma WeightIsScore(brokers: seq<BrokerID>, rows: seq<seq<BrokerID>>, counts: Counts, p: nat, t: Tally, i: nat)
    requires Greedily(brokers, rows, counts) && p < |rows| && i < |brokers| && t == TallyAfter(brokers, p, counts)
    ensures Greedy.Weight(Base(brokers, counts), LedBy(brokers, rows, p), i)
      == Score(t.global, t.topic, brokers[i], 1, |brokers|)
  {
    TallyExact(brokers, p, |rows|, counts);
    ScoreReduces(brokers, p, |rows|, counts, t, brokers[i]);
    CountersAreRows(brokers, rows, counts, p, brokers[i]);
    WeightAt(Base(brokers, counts), LedBy(brokers, rows, p), i);
  }

  lemma WeightAt(base: seq<int>, t: seq<nat>, i: nat)
    requires i < |base| == |t|
    ensures Greedy.Weight(base, t, i) == base[i] + (|base| + 1) * t[i]
  {
  }

  /** The leader of row `p` is the first broker of least weight. */
  lemma LeaderIsChosen(brokers: seq<BrokerID>, rows: seq<seq<BrokerID>>, counts: Counts, p: nat) returns (c: nat)
    requires Greedily(brokers, rows, counts) && p < |rows|
    ensures Greedy.Chosen(Base(brokers, counts), LedBy(brokers, rows, p), c)
    ensures brokers[c] == LeaderOf(brokers, p, counts)
  {
    var t := TallyAfter(brokers, p, counts);
    TallyExact(brokers, p, |rows|, counts);
    BestIsBest(brokers, |brokers|, {}, t.global, t.topic, 1, |brokers|);
    ScoreReduces(brokers, p, |rows|, counts, t, brokers[0]);
    c := Best(brokers, |brokers|, {}, t.global, t.topic, 1, |brokers|);
    forall i: nat | i < |brokers|
      ensures Greedy.Weight(Base(brokers, counts), LedBy(brokers, rows, p), i)
        == Score(t.global, t.topic, brokers[i], 1, |brokers|)
    {
      WeightIsScore(brokers, rows, counts, p, t, i);
    }
  }

  lemma LedByStep(brokers: seq<BrokerID>, rows: seq<seq<BrokerID>>, p: nat, c: nat)
    requires Distinct(brokers) && p < |rows| && c < |brokers| && |rows[p]| > 0 && rows[p][0] == brokers[c]
    ensures var t := LedBy(brokers, rows, p); LedBy(brokers, rows, p + 1) == t[c := t[c] + 1]
  {
    var t, t' := LedBy(brokers, rows, p), LedBy(brokers, rows, p + 1);
    forall i | 0 <= i < |brokers| ensures t'[i] == if i == c then t[c] + 1 else t[i] {
      assert i < c ==> brokers[i] != brokers[c];
      assert c < i ==> brokers[c] != brokers[i];
    }
  }

  lemma AllocatorStep(brokers: seq<BrokerID>, rows: seq<seq<BrokerID>>, counts: Counts, p: nat)
    requires Greedily(brokers, rows, counts) && p < |rows|
    ensures Greedy.Next(Base(brokers, counts), LedBy(brokers, rows, p), LedBy(brokers, rows, p + 1))
  {
    var c := LeaderIsChosen(brokers, rows, counts, p);
    assert RowLed(brokers, rows, counts, p);
    LedByStep(brokers, rows, p, c);
  }

  lemma TraceEntry(brokers: seq<BrokerID>, rows: seq<seq<BrokerID>>, k: nat)
    requires k <= |rows|
    ensures TraceOf(brokers, rows)[k] == LedBy(brokers, rows, k)
  {
  }

  lemma TraceStep(brokers: seq<BrokerID>, rows: seq<seq<BrokerID>>, counts: Counts, k: nat)
    requires Greedily(brokers, rows, counts) && k < |rows|
    ensures Greedy.Stepped(Base(brokers, counts), TraceOf(brokers, rows), k)
  {
    AllocatorStep(brokers, rows, counts, k);
    TraceEntry(brokers, rows, k);
    TraceEntry(brokers, rows, k + 1);
  }

  lemma GreedyTrace(brokers: seq<BrokerID>, rows: seq<seq<BrokerID>>, counts: Counts)
    requires Greedily(brokers, rows, counts)
    ensures Greedy.Trace(Base(brokers, counts), TraceOf(brokers, rows))
  {
    var base, ts := Base(brokers, counts), TraceOf(brokers, rows);
    assert LedBy(brokers, rows, 0) == seq(|base|, _ => 0);
    TraceEntry(brokers, rows, 0);
    forall k | 0 <= k < |ts| - 1 ensures Greedy.Stepped(base, ts, k) {
      TraceStep(brokers, rows, counts, k);
    }
  }

  lemma AllocatorTrace(brokers: seq<BrokerID>, numPartitions: int32, replicationFactor: int32, counts: Counts)
    requires Sound(brokers, numPartitions, replicationFactor, counts)
    ensures var rows := Assign(brokers, numPartitions, replicationFactor, counts);
      |rows| == numPartitions && Greedy.Trace(Base(brokers, counts), TraceOf(brokers, rows))
  {
    AssignIsGreedy(brokers, numPartitions, replicationFactor, counts);
    GreedyTrace(brokers, Assign(brokers, numPartitions, replicationFactor, counts), counts);
  }

  // ----- failure-domain isolation -----

  /** After every prefix of the partitions, no broker leads two more of them than another. */
  ghost predicate Isolating(brokers: seq<BrokerID>, rows: seq<seq<BrokerID>>) {
    forall p, b, c {:trigger Led(rows, p, b), Led(rows, p, c)} ::
      0 <= p <= |rows| && b in brokers && c in brokers ==> Led(rows, p, b) <= Led(rows, p, c) + 1
  }

  lemma IsolatingIsTraceIsolated(brokers: seq<BrokerID>, rows: seq<seq<BrokerID>>)
    ensures Isolating(brokers, rows) <==> Greedy.IsolatedThroughout(TraceOf(brokers, rows))
  {
    var ts := TraceOf(brokers, rows);
    if Isolating(brokers, rows) {
      forall k | 0 <= k < |ts| ensures Greedy.Isolated(ts[k]) {
        forall i, j | 0 <= i < |ts[k]| && 0 <= j < |ts[k]| ensures ts[k][i] <= ts[k][j] + 1 {
          assert ts[k][i] == Led(rows, k, brokers[i]) && ts[k][j] == Led(rows, k, brokers[j]);
        }
      }
    }
    if Greedy.IsolatedThroughout(ts) {
      forall p, b, c | 0 <= p <= |rows| && b in brokers && c in brokers ensures Led(rows, p, b) <= Led(rows, p, c) + 1 {
        var i :| 0 <= i < |brokers| && brokers[i] == b;
        var j :| 0 <= j < |brokers| && brokers[j] == c;
        assert Greedy.Isolated(ts[p]);
        assert ts[p][i] <= ts[p][j] + 1;
      }
    }
  }

  /** Isolation, exactly when for every broker at least min(numPartitions, |brokers|) brokers, itself included,
      come before its second leader: their initial counts, ties broken by list order, are below its own plus
      the number of brokers plus one. */
  lemma IsolationIff(brokers: seq<BrokerID>, numPartitions: int32, replicationFactor: int32, counts: Counts)
    requires Sound(brokers, numPartitions, replicationFactor, counts)
    ensures Isolating(brokers, Assign(brokers, numPartitions, replicationFactor, counts))
       <==> Greedy.Roomy(Base(brokers, counts), numPartitions as nat)
  {
    var rows := Assign(brokers, numPartitions, replicationFactor, counts);
    AllocatorTrace(brokers, numPartitions, replicationFactor, counts);
    Greedy.IsolatedIff(Base(brokers, counts), TraceOf(brokers, rows));
    IsolatingIsTraceIsolated(brokers, rows);
  }

  ghost predicate SpreadWithin(brokers: seq<BrokerID>, counts: Counts, spread: int) {
    forall b, c {:trigger Count(counts, b), Count(counts, c)} ::
      b in brokers && c in brokers ==> Count(counts, b) <= Count(counts, c) + spread
  }

  /** A spread of at most the number of brokers is enough. */
  lemma IsolationWithinSpread(brokers: seq<BrokerID>, numPartitions: int32, replicationFactor: int32, counts: Counts)
    requires Sound(brokers, numPartitions, replicationFactor, counts) && SpreadWithin(brokers, counts, |brokers|)
    ensures Isolating(brokers, Assign(brokers, numPartitions, replicationFactor, counts))
  {
    IsolationIff(brokers, numPartitions, replicationFactor, counts);
    var base := Base(brokers, counts);
    forall i, j | 0 <= i < |base| && 0 <= j < |base| ensures base[j] <= base[i] + |base| {
      assert Count(counts, brokers[j]) <= Count(counts, brokers[i]) + |brokers|;
    }
    Greedy.SpreadGivesRoom(base, numPartitions as nat);
  }

  /** One more is too much: with every other broker exactly |brokers| + 1 leaders above the first one,
      the first one gets two leaders of the topic while the others have none. */
  lemma SpreadIsTight(brokers: seq<BrokerID>, numPartitions: int32, replicationFactor: int32, counts: Counts)
    requires Sound(brokers, numPartitions, replicationFactor, counts) && |brokers| >= 2 && numPartitions >= 2
    requires forall i :: 0 < i < |brokers| ==> Count(counts, brokers[i]) == Count(counts, brokers[0]) + |brokers| + 1
    ensures !Isolating(brokers, Assign(brokers, numPartitions, replicationFactor, counts))
    ensures SpreadWithin(brokers, counts, |brokers| + 1)
  {
    IsolationIff(brokers, numPartitions, replicationFactor, counts);
    Greedy.NoRoom(Base(brokers, counts), numPartitions as nat);
  }

  // ----- balance over all topics -----

  /** Two brokers whose totals differed by at most |brokers| differ by no more afterwards, or by one. */
  lemma GlobalBalance(brokers: seq<BrokerID>, numPartitions: int32, replicationFactor: int32, counts: Counts,
                      spread: nat, b: BrokerID, c: BrokerID)
    requires Sound(brokers, numPartitions, replicationFactor, counts) && b in brokers && c in brokers
    requires spread <= |brokers| && SpreadWithin(brokers, counts, spread)
    ensures var rows := Assign(brokers, numPartitions, replicationFactor, counts);
      Count(counts, b) + Led(rows, |rows|, b) <= Count(counts, c) + Led(rows, |rows|, c)
        + (if spread > 1 then spread else 1)
  {
    var rows := Assign(brokers, numPartitions, replicationFactor, counts);
    var base, ts := Base(brokers, counts), TraceOf(brokers, rows);
    AllocatorTrace(brokers, numPartitions, replicationFactor, counts);
    assert SpreadWithin(brokers, counts, |brokers|);
    IsolationWithinSpread(brokers, numPartitions, replicationFactor, counts);
    IsolatingIsTraceIsolated(brokers, rows);
    var i :| 0 <= i < |brokers| && brokers[i] == b;
    var j :| 0 <= j < |brokers| && brokers[j] == c;
    Greedy.Balanced(base, ts, |rows|, i, j, spread);
  }

  // ----- greedy optimality -----

  function Occurrences(leaders: seq<BrokerID>, b: BrokerID): nat {
    if leaders == [] then 0
    else Occurrences(leaders[..|leaders| - 1], b) + (if leaders[|leaders| - 1] == b then 1 else 0)
  }

  function Tallied(brokers: seq<BrokerID>, leaders: seq<BrokerID>): (t: seq<nat>) {
    seq(|brokers|, i requires 0 <= i < |brokers| => Occurrences(leaders, brokers[i]))
  }

  lemma TalliedStep(brokers: seq<BrokerID>, leaders: seq<BrokerID>, c: nat)
    requires Distinct(brokers) && leaders != [] && c < |brokers| && brokers[c] == leaders[|leaders| - 1]
    ensures var t := Tallied(brokers, leaders[..|leaders| - 1]); Tallied(brokers, leaders) == t[c := t[c] + 1]
  {
    var t := Tallied(brokers, leaders[..|leaders| - 1]);
    forall i | 0 <= i < |brokers| ensures Tallied(brokers, leaders)[i] == t[c := t[c] + 1][i] {
      assert i < c ==> brokers[i] != brokers[c];
      assert c < i ==> brokers[c] != brokers[i];
    }
  }

  lemma {:induction false} TalliedSum(brokers: seq<BrokerID>, leaders: seq<BrokerID>)
    requires Distinct(brokers) && forall k :: 0 <= k < |leaders| ==> leaders[k] in brokers
    ensures Greedy.Sum(Tallied(brokers, leaders)) == |leaders|
  {
    if leaders == [] {
      assert Tallied(brokers, leaders) == seq(|brokers|, _ => 0);
      Greedy.SumZero(|brokers|);
    } else {
      var rest := leaders[..|leaders| - 1];
      TalliedSum(brokers, rest);
      var c :| 0 <= c < |brokers| && brokers[c] == leaders[|leaders| - 1];
      TalliedStep(brokers, leaders, c);
      Greedy.SumBumped(Tallied(brokers, rest), c);
    }
  }

  /** The score of `b` once it leads `led` partitions of the topic. */
  function FinalScore(brokers: seq<BrokerID>, counts: Counts, b: BrokerID, led: nat): int {
    (Count(counts, b) + led) + |brokers| * led
  }

  /** Whatever other leaders the partitions are given, some broker ends with a score at least as large as
      the largest one the allocator leaves. */
  lemma GreedyOptimal(brokers: seq<BrokerID>, numPartitions: int32, replicationFactor: int32, counts: Counts,
                      other: seq<BrokerID>, b: BrokerID) returns (c: BrokerID)
    requires Sound(brokers, numPartitions, replicationFactor, counts) && b in brokers
    requires |other| == numPartitions && forall k :: 0 <= k < |other| ==> other[k] in brokers
    ensures var rows := Assign(brokers, numPartitions, replicationFactor, counts);
      && c in brokers
      && FinalScore(brokers, counts, c, Occurrences(other, c)) >= FinalScore(brokers, counts, b, Led(rows, |rows|, b))
  {
    var rows := Assign(brokers, numPartitions, replicationFactor, counts);
    var base, ts, t := Base(brokers, counts), TraceOf(brokers, rows), Tallied(brokers, other);
    AllocatorTrace(brokers, numPartitions, replicationFactor, counts);
    TalliedSum(brokers, other);
    var i :| 0 <= i < |brokers| && brokers[i] == b;
    var j := Greedy.Optimal(base, ts, |rows|, t, i);
    c := brokers[j];
    WeightIsFinalScore(brokers, counts, ts[|rows|], i);
    WeightIsFinalScore(brokers, counts, t, j);
  }

  lemma WeightIsFinalScore(brokers: seq<BrokerID>, counts: Counts, t: seq<nat>, i: nat)
    requires |t| == |brokers| && i < |brokers|
    ensures Greedy.Weight(Base(brokers, counts), t, i) == FinalScore(brokers, counts, brokers[i], t[i])
  {
  }

  // ----- the final counters -----

  /** The allocator's own counters end as the initial ones plus the rows led, for every broker, listed or not. */
  lemma FinalCounters(brokers: seq<BrokerID>, numPartitions: int32, replicationFactor: int32, counts: Counts,
                      b: BrokerID)
    requires Sound(brokers, numPartitions, replicationFactor, counts)
    ensures var rows := Assign(brokers, numPartitions, replicationFactor, counts);
      Count(TallyAfter(brokers, numPartitions, counts).global, b) == Count(counts, b) + Led(rows, |rows|, b)
  {
    var rows := Assign(brokers, numPartitions, replicationFactor, counts);
    AssignIsGreedy(brokers, numPartitions, replicationFactor, counts);
    CountersAreRows(brokers, rows, counts, |rows|, b);
  }
}
