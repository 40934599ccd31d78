/** Every slot of every row: which broker AssignReplicas puts there, told by the rows alone. */
module Allocation {
  import opened MetaTypes
  import opened Assignment
  import opened AssignmentTheorems
  import Greedy

  type Rows = seq<seq<BrokerID>>

  /** What weighs on a broker when slot `s` of row `p` is filled: the partitions it led before, and n + 1 for each row
      of this topic that it leads so far, row `p` included once its leader is chosen. */
  function Load(brokers: seq<BrokerID>, counts: Counts, rows: Rows, p: nat, s: nat, b: BrokerID): int
    requires p < |rows|
  {
    Count(counts, b) + (|brokers| + 1) * Led(rows, if s == 0 then p else p + 1, b)
  }

  /** The `i`-th broker of the list is not in the row yet, nobody who is not weighs less, and nobody who stands earlier
      in the list weighs as little. */
  predicate LeastLoaded(brokers: seq<BrokerID>, counts: Counts, rows: Rows, p: nat, s: nat, i: nat)
    requires p < |rows| && s < |rows[p]|
  {
    var row := rows[p];
    && i < |brokers| && brokers[i] !in row[..s]
    && forall j :: 0 <= j < |brokers| && brokers[j] !in row[..s] ==>
      && Load(brokers, counts, rows, p, s, brokers[i]) <= Load(brokers, counts, rows, p, s, brokers[j])
      && (j < i ==> Load(brokers, counts, rows, p, s, brokers[i]) < Load(brokers, counts, rows, p, s, brokers[j]))
  }

  /** Slot `s` of row `p` holds such a broker. */
  ghost predicate WellFilled(brokers: seq<BrokerID>, counts: Counts, rows: Rows, p: nat, s: nat)
    requires p < |rows| && s < |rows[p]|
  {
    exists i: nat :: LeastLoaded(brokers, counts, rows, p, s, i) && rows[p][s] == brokers[i]
  }

  // ----- machine integers and empty answers -----

  /** 64-bit results are the mathematical ones up to full turns, within range. */
  lemma WrapsAround(x: int)
    ensures (x - Wrap64(x)) % 0x1_0000_0000_0000_0000 == 0
    ensures -0x8000_0000_0000_0000 <= x < 0x8000_0000_0000_0000 ==> Wrap64(x) == x
  {
    var turn := 0x1_0000_0000_0000_0000;
    if !(-0x8000_0000_0000_0000 <= x < 0x8000_0000_0000_0000) {
      var y := x + 0x8000_0000_0000_0000;
      assert x - Wrap64(x) == y - y % turn == (y / turn) * turn;
    }
  }

  /** There is nothing to allocate exactly without brokers, partitions or replicas. */
  lemma NothingAllocatedIff(brokers: seq<BrokerID>, numPartitions: int32, replicationFactor: int32, counts: Counts)
    ensures Assign(brokers, numPartitions, replicationFactor, counts) == [] <==>
      brokers == [] || numPartitions <= 0 || replicationFactor <= 0
  {
    if brokers != [] && numPartitions > 0 && replicationFactor > 0 {
      AssignAt(brokers, numPartitions, replicationFactor, counts, 0);
    }
  }

  // ----- the allocator fills every slot so -----

  lemma {:induction false} FollowedAt(brokers: seq<BrokerID>, leader: BrokerID, more: nat, t: Tally, s: nat)
    requires 1 <= s <= more
    ensures var r := Followed(brokers, leader, more, t); r[s] == Pick(brokers, Elements(r[..s]), t.global, t.topic)
    ensures Followed(brokers, leader, more, t)[..s] == Followed(brokers, leader, s - 1, t)
  {
    var r := Followed(brokers, leader, more - 1, t);
    if s == more {
      assert Followed(brokers, leader, more, t)[..s] == r;
    } else {
      FollowedAt(brokers, leader, more - 1, t, s);
      assert Followed(brokers, leader, more, t)[..s] == r[..s];
    }
  }

  /** The counters with which slot `s` of row `p` is filled. */
  function CountersFor(brokers: seq<BrokerID>, counts: Counts, p: nat, s: nat): Tally {
    TallyAfter(brokers, if s == 0 then p else p + 1, counts)
  }

  lemma SlotIsPicked(brokers: seq<BrokerID>, numPartitions: int32, replicationFactor: int32, counts: Counts, p: nat,
                     s: nat)
    requires Allocates(brokers, numPartitions, replicationFactor) && p < numPartitions
    requires s < EffectiveRF(brokers, replicationFactor)
    ensures var rows, t :=
      Assign(brokers, numPartitions, replicationFactor, counts), CountersFor(brokers, counts, p, s);
      && |rows| == numPartitions && |rows[p]| == EffectiveRF(brokers, replicationFactor)
      && rows[p][s] == Pick(brokers, Elements(rows[p][..s]), t.global, t.topic)
  {
    AssignAt(brokers, numPartitions, replicationFactor, counts, p);
    var row := Assign(brokers, numPartitions, replicationFactor, counts)[p];
    if s == 0 {
      assert Elements(row[..0]) == {};
    } else {
      FollowedAt(brokers, LeaderOf(brokers, p, counts), |row| - 1, TallyAfter(brokers, p + 1, counts), s);
    }
  }

  /** The 64-bit score of a broker is its load. */
  lemma ScoreIsLoad(brokers: seq<BrokerID>, counts: Counts, rows: Rows, p: nat, s: nat, b: BrokerID)
    requires LedGreedily(brokers, rows, counts) && p < |rows| && b in brokers
    ensures var t := CountersFor(brokers, counts, p, s);
      Score(t.global, t.topic, b, 1, |brokers|) == Load(brokers, counts, rows, p, s, b) < MAX_INT
  {
    var q, t := if s == 0 then p else p + 1, CountersFor(brokers, counts, p, s);
    TallyExact(brokers, q, |rows|, counts);
    ScoreReduces(brokers, q, |rows|, counts, t, b);
    CountersAreRows(brokers, rows, counts, q, b);
  }

  /** What is picked by score is least loaded, if anyone is left to pick. */
  lemma PickedIsLeastLoaded(brokers: seq<BrokerID>, counts: Counts, rows: Rows, p: nat, s: nat, b: BrokerID)
    requires LedGreedily(brokers, rows, counts) && p < |rows| && s < |rows[p]|
    requires b in brokers && b !in rows[p][..s]
    requires var t := CountersFor(brokers, counts, p, s);
      rows[p][s] == Pick(brokers, Elements(rows[p][..s]), t.global, t.topic)
    ensures WellFilled(brokers, counts, rows, p, s)
  {
    var t, row := CountersFor(brokers, counts, p, s), rows[p];
    BestIsBest(brokers, |brokers|, Elements(row[..s]), t.global, t.topic, 1, |brokers|);
    var k := Best(brokers, |brokers|, Elements(row[..s]), t.global, t.topic, 1, |brokers|);
    forall j | 0 <= j < |brokers|
      ensures Score(t.global, t.topic, brokers[j], 1, |brokers|)
        == Load(brokers, counts, rows, p, s, brokers[j]) < MAX_INT
    {
      ScoreIsLoad(brokers, counts, rows, p, s, brokers[j]);
    }
    var i :| 0 <= i < |brokers| && brokers[i] == b;
    assert brokers[i] !in Elements(row[..s]) && k >= 0;
    assert LeastLoaded(brokers, counts, rows, p, s, k);
  }

  /** Leaders and followers alike: each slot goes to the least loaded broker that is not in the row yet, the first in
      the list among equals, as long as the list names one. */
  lemma SlotsAreWellFilled(brokers: seq<BrokerID>, numPartitions: int32, replicationFactor: int32, counts: Counts,
                           p: nat, s: nat, b: BrokerID)
    requires Allocates(brokers, numPartitions, replicationFactor) && Fits(brokers, numPartitions as nat, counts)
    requires p < numPartitions && s < EffectiveRF(brokers, replicationFactor)
    requires var rows := Assign(brokers, numPartitions, replicationFactor, counts);
      |rows| == numPartitions && |rows[p]| == EffectiveRF(brokers, replicationFactor)
      && b in brokers && b !in rows[p][..s]
    ensures WellFilled(brokers, counts, Assign(brokers, numPartitions, replicationFactor, counts), p, s)
  {
    var rows := Assign(brokers, numPartitions, replicationFactor, counts);
    forall q | 0 <= q < |rows| ensures RowLed(brokers, rows, counts, q) {
      AssignAt(brokers, numPartitions, replicationFactor, counts, q);
    }
    SlotIsPicked(brokers, numPartitions, replicationFactor, counts, p, s);
    PickedIsLeastLoaded(brokers, counts, rows, p, s, b);
  }

  // ----- and nothing else does -----

  predicate Shape(rows: Rows, numPartitions: int, rf: int) {
    |rows| == numPartitions && forall p :: 0 <= p < |rows| ==> |rows[p]| == rf
  }

  ghost predicate AllWellFilled(brokers: seq<BrokerID>, counts: Counts, rows: Rows) {
    forall p, s {:trigger WellFilled(brokers, counts, rows, p, s)} ::
      0 <= p < |rows| && 0 <= s < |rows[p]| ==> WellFilled(brokers, counts, rows, p, s)
  }

  lemma {:induction false} LedAlike(x: Rows, y: Rows, p: nat, b: BrokerID)
    requires p <= |x| && p <= |y|
    requires forall q :: 0 <= q < p ==> |x[q]| > 0 && |y[q]| > 0 && x[q][0] == y[q][0]
    ensures Led(x, p, b) == Led(y, p, b)
  {
    if p > 0 {
      LedAlike(x, y, p - 1, b);
    }
  }

  lemma SameSlot(brokers: seq<BrokerID>, counts: Counts, x: Rows, y: Rows, p: nat, s: nat)
    requires p < |x| && p < |y| && s < |x[p]| && s < |y[p]|
    requires WellFilled(brokers, counts, x, p, s) && WellFilled(brokers, counts, y, p, s)
    requires forall q :: 0 <= q < p ==> |x[q]| > 0 && x[q] == y[q]
    requires x[p][..s] == y[p][..s]
    ensures x[p][s] == y[p][s]
  {
    forall b ensures Load(brokers, counts, x, p, s, b) == Load(brokers, counts, y, p, s, b) {
      assert s > 0 ==> x[p][..s][0] == x[p][0] && y[p][..s][0] == y[p][0];
      LedAlike(x, y, if s == 0 then p else p + 1, b);
    }
    var i: nat :| LeastLoaded(brokers, counts, x, p, s, i) && x[p][s] == brokers[i];
    var j: nat :| LeastLoaded(brokers, counts, y, p, s, j) && y[p][s] == brokers[j];
    assert brokers[j] !in x[p][..s] && brokers[i] !in y[p][..s];
  }

  lemma {:induction false} SameRow(brokers: seq<BrokerID>, counts: Counts, x: Rows, y: Rows, p: nat, s: nat)
    requires p < |x| && p < |y| && s <= |x[p]| == |y[p]|
    requires forall r :: 0 <= r < s ==> WellFilled(brokers, counts, x, p, r) && WellFilled(brokers, counts, y, p, r)
    requires forall q :: 0 <= q < p ==> |x[q]| > 0 && x[q] == y[q]
    ensures x[p][..s] == y[p][..s]
  {
    if s > 0 {
      SameRow(brokers, counts, x, y, p, s - 1);
      SameSlot(brokers, counts, x, y, p, s - 1);
      assert x[p][..s] == x[p][..s - 1] + [x[p][s - 1]] && y[p][..s] == y[p][..s - 1] + [y[p][s - 1]];
    }
  }

  lemma {:induction false} SameRows(brokers: seq<BrokerID>, counts: Counts, x: Rows, y: Rows, n: nat, rf: nat, p: nat)
    requires Shape(x, n, rf) && Shape(y, n, rf) && rf > 0 && p <= n
    requires AllWellFilled(brokers, counts, x) && AllWellFilled(brokers, counts, y)
    ensures forall q :: 0 <= q < p ==> x[q] == y[q]
  {
    if p > 0 {
      SameRows(brokers, counts, x, y, n, rf, p - 1);
      SameRow(brokers, counts, x, y, p - 1, rf);
      assert x[p - 1][..rf] == x[p - 1] && y[p - 1][..rf] == y[p - 1];
    }
  }

  lemma SomeoneLeft(brokers: seq<BrokerID>, row: seq<BrokerID>, s: nat) returns (b: BrokerID)
    requires s <= |row| && s < |Elements(brokers)|
    ensures b in brokers && b !in row[..s]
  {
    ElementsSize(row[..s]);
    if Elements(brokers) <= Elements(row[..s]) {
      Greedy.SmallerSet(Elements(brokers), Elements(row[..s]));
      assert false;
    }
    b :| b in Elements(brokers) && b !in Elements(row[..s]);
  }

  lemma {:induction false} ElementsSize(s: seq<BrokerID>)
    ensures |Elements(s)| <= |s|
  {
    if s != [] {
      var n := |s| - 1;
      ElementsSize(s[..n]);
      assert Elements(s) == Elements(s[..n]) + {s[n]};
    }
  }

  /** The rows are those AssignReplicas returns if and only if there is one for each partition, of min(replication
      factor, n) entries, and every slot holds the least loaded broker that is not in its row yet, the first in the list
      among equals. The list may repeat an ID as long as it names enough different ones. */
  lemma AllocationIff(brokers: seq<BrokerID>, numPartitions: int32, replicationFactor: int32,
    counts: Counts, rows: Rows)
    requires brokers != [] && numPartitions > 0 && replicationFactor > 0 && Fits(brokers, numPartitions as nat, counts)
    requires replicationFactor <= |Elements(brokers)| || Distinct(brokers)
    ensures rows == Assign(brokers, numPartitions, replicationFactor, counts) <==>
      && Shape(rows, numPartitions, if replicationFactor < |brokers| then replicationFactor else |brokers|)
      && AllWellFilled(brokers, counts, rows)
  {
    var given, rf := Assign(brokers, numPartitions, replicationFactor, counts), EffectiveRF(brokers, replicationFactor);
    AllocationWellFormed(brokers, numPartitions, replicationFactor, counts);
    if Distinct(brokers) {
      DistinctSize(brokers);
    } else {
      ElementsSize(brokers);
    }
    forall p, s | 0 <= p < |given| && 0 <= s < |given[p]| ensures WellFilled(brokers, counts, given, p, s) {
      var b := SomeoneLeft(brokers, given[p], s);
      SlotsAreWellFilled(brokers, numPartitions, replicationFactor, counts, p, s, b);
    }
    if Shape(rows, numPartitions, rf) && AllWellFilled(brokers, counts, rows) {
      SameRows(brokers, counts, rows, given, numPartitions, rf, numPartitions);
    }
  }

  /** The loads of a follower and of everyone it was preferred to. */
  lemma FollowersAreLeastLoaded(brokers: seq<BrokerID>, numPartitions: int32, replicationFactor: int32, counts: Counts,
                                p: nat, s: nat, j: nat)
    requires Allocates(brokers, numPartitions, replicationFactor) && Fits(brokers, numPartitions as nat, counts)
    requires Distinct(brokers) && p < numPartitions && 0 < s < EffectiveRF(brokers, replicationFactor) && j < |brokers|
    ensures var rows := Assign(brokers, numPartitions, replicationFactor, counts);
      && |rows| == numPartitions && |rows[p]| == EffectiveRF(brokers, replicationFactor)
      && (brokers[j] !in rows[p][..s] ==>
            exists i :: 0 <= i < |brokers| && brokers[i] == rows[p][s] &&
              var x, y := Count(counts, brokers[i]) + (|brokers| + 1) * Led(rows, p + 1, brokers[i]),
                          Count(counts, brokers[j]) + (|brokers| + 1) * Led(rows, p + 1, brokers[j]);
              x <= y && (j < i ==> x < y))
  {
    AssignAt(brokers, numPartitions, replicationFactor, counts, p);
    var rows := Assign(brokers, numPartitions, replicationFactor, counts);
    if brokers[j] !in rows[p][..s] {
      SlotsAreWellFilled(brokers, numPartitions, replicationFactor, counts, p, s, brokers[j]);
      var i: nat :| LeastLoaded(brokers, counts, rows, p, s, i) && rows[p][s] == brokers[i];
      assert brokers[i] == rows[p][s]
        && Load(brokers, counts, rows, p, s, brokers[i]) <= Load(brokers, counts, rows, p, s, brokers[j]);
    }
  }
}
