/** The arithmetic of the leader choice, apart from brokers and maps. A run of the allocator over `n` brokers
    is a trace: `ts[k][i]` is the number of this topic's first `k` partitions that broker `i` leads, and
    `base[i]` the number of partitions it led before the call. */
module Greedy {
  /** The score of broker `i`: what it leads in all, plus `n` times what it leads of this topic. */
  function Weight(base: seq<int>, t: seq<nat>, i: nat): int
    requires i < |base| == |t|
  {
    base[i] + (|base| + 1) * t[i]
  }

  /** `c` is the first broker in list order with the least score. */
  ghost predicate Chosen(base: seq<int>, t: seq<nat>, c: nat)
    requires |base| == |t|
  {
    && c < |base|
    && (forall i {:trigger Weight(base, t, i)} :: 0 <= i < |base| ==> Weight(base, t, c) <= Weight(base, t, i))
    && (forall i {:trigger Weight(base, t, i)} :: 0 <= i < c ==> Weight(base, t, c) < Weight(base, t, i))
  }

  ghost predicate Next(base: seq<int>, t: seq<nat>, t': seq<nat>) {
    |base| == |t| && exists c: nat :: Chosen(base, t, c) && t' == t[c := t[c] + 1]
  }

  ghost predicate Trace(base: seq<int>, ts: seq<seq<nat>>) {
    && |base| > 0 && |ts| > 0 && ts[0] == seq(|base|, _ => 0)
    && (forall k {:trigger ts[k]} :: 0 <= k < |ts| ==> |ts[k]| == |base|)
    && (forall k {:trigger Stepped(base, ts, k)} :: 0 <= k < |ts| - 1 ==> Stepped(base, ts, k))
  }

  ghost predicate Stepped(base: seq<int>, ts: seq<seq<nat>>, k: nat)
    requires k + 1 < |ts|
  {
    Next(base, ts[k], ts[k + 1])
  }

  lemma ChoiceOf(base: seq<int>, t: seq<nat>, t': seq<nat>) returns (c: nat)
    requires Next(base, t, t')
    ensures Chosen(base, t, c) && t' == t[c := t[c] + 1]
  {
    c :| Chosen(base, t, c) && t' == t[c := t[c] + 1];
  }

  lemma StepOf(base: seq<int>, ts: seq<seq<nat>>, k: nat) returns (c: nat)
    requires Trace(base, ts) && k + 1 < |ts|
    ensures |ts[k]| == |base| && Chosen(base, ts[k], c) && ts[k + 1] == ts[k][c := ts[k][c] + 1]
  {
    assert Stepped(base, ts, k);
    c := ChoiceOf(base, ts[k], ts[k + 1]);
  }

  // ----- failure-domain isolation -----

  /** No two brokers' leader counts differ by more than one. */
  ghost predicate Isolated(t: seq<nat>) {
    forall i, j :: 0 <= i < |t| && 0 <= j < |t| ==> t[i] <= t[j] + 1
  }

  ghost predicate IsolatedThroughout(ts: seq<seq<nat>>) {
    forall k :: 0 <= k < |ts| ==> Isolated(ts[k])
  }

  /** `j` gets its first leader of the topic before `i` gets its second. */
  predicate Before(base: seq<int>, j: nat, i: nat)
    requires i < |base| && j < |base|
  {
    base[j] < base[i] + |base| + 1 || (base[j] == base[i] + |base| + 1 && j < i)
  }

  function Ahead(base: seq<int>, i: nat): set<nat>
    requires i < |base|
  {
    set j: nat | j < |base| && Before(base, j, i)
  }

  function Min(a: nat, b: nat): nat { if a < b then a else b }

  /** For every broker, enough others (itself included) come before its second leader. */
  ghost predicate Roomy(base: seq<int>, partitions: nat) {
    forall i: nat {:trigger Ahead(base, i)} :: i < |base| ==> |Ahead(base, i)| >= Min(partitions, |base|)
  }

  function Positive(t: seq<nat>): set<nat> { set i: nat | i < |t| && t[i] > 0 }

  ghost predicate AtMostOne(t: seq<nat>) { forall i :: 0 <= i < |t| ==> t[i] <= 1 }

  function Below(n: nat): (r: set<nat>)
    ensures |r| == n && forall i: nat :: i in r <==> i < n
  {
    if n == 0 then {} else Below(n - 1) + {n - 1}
  }

  lemma SmallerSet<T>(a: set<T>, b: set<T>)
    requires a <= b
    ensures |a| <= |b|
    ensures |a| == |b| ==> a == b
  {
    assert b == a + (b - a);
  }

  lemma Missed(a: set<nat>, b: set<nat>) returns (x: nat)
    requires |a| < |b|
    ensures x in b && x !in a
  {
    if b <= a {
      SmallerSet(b, a);
      assert false;
    }
    x :| x in b && x !in a;
  }

  lemma PositiveGrows(t: seq<nat>, c: nat)
    requires c < |t| && t[c] == 0
    ensures |Positive(t[c := 1])| == |Positive(t)| + 1
  {
    assert Positive(t[c := 1]) == Positive(t) + {c};
  }

  /** While counts are still zero or one, `k` partitions have `k` different leaders. */
  lemma {:induction false} FirstRound(base: seq<int>, ts: seq<seq<nat>>, k: nat)
    requires Trace(base, ts) && k < |ts|
    requires forall l :: 0 <= l <= k ==> AtMostOne(ts[l])
    ensures |Positive(ts[k])| == k
  {
    if k == 0 {
      assert Positive(ts[0]) == {};
    } else {
      FirstRound(base, ts, k - 1);
      var c := StepOf(base, ts, k - 1);
      assert ts[k][c] <= 1;
      PositiveGrows(ts[k - 1], c);
    }
  }

  lemma IdleBroker(t: seq<nat>)
    requires |Positive(t)| < |t|
    ensures exists j :: 0 <= j < |t| && t[j] == 0
  {
    var j := Missed(Positive(t), Below(|t|));
    assert t[j] == 0;
  }

  /** Isolation keeps the first `n` partitions on different brokers. */
  lemma {:induction false} IsolatedFirstRound(base: seq<int>, ts: seq<seq<nat>>, k: nat)
    requires Trace(base, ts) && k < |ts| && k <= |base|
    requires forall l :: 0 <= l <= k ==> Isolated(ts[l])
    ensures forall l :: 0 <= l <= k ==> AtMostOne(ts[l])
  {
    if k > 0 {
      IsolatedFirstRound(base, ts, k - 1);
      FirstRound(base, ts, k - 1);
      IdleBroker(ts[k - 1]);
      var j :| 0 <= j < |base| && ts[k - 1][j] == 0;
      var c := StepOf(base, ts, k - 1);
      assert ts[k][c] <= ts[k][j] + 1;
    }
  }

  /** A broker takes its second leader only when nobody comes before it. */
  lemma SecondLeader(base: seq<int>, t: seq<nat>, c: nat, j: nat)
    requires |base| == |t| && Chosen(base, t, c) && j < |base| && t[c] == t[j] + 1
    ensures !Before(base, j, c)
  {
    assert Weight(base, t, c) == base[c] + (|base| + 1) * t[j] + (|base| + 1);
    assert Weight(base, t, j) == base[j] + (|base| + 1) * t[j];
  }

  lemma RoomyStep(base: seq<int>, ts: seq<seq<nat>>, k: nat)
    requires Trace(base, ts) && k + 1 < |ts| && Roomy(base, |ts| - 1)
    requires forall l :: 0 <= l <= k ==> Isolated(ts[l])
    ensures Isolated(ts[k + 1])
  {
    var c := StepOf(base, ts, k);
    var t := ts[k];
    if j :| 0 <= j < |base| && t[c] > t[j] {
      assert t[c] == t[j] + 1;
      SecondLeader(base, t, c, j);
      assert j !in Ahead(base, c);
      SmallerSet(Ahead(base, c), Below(|base|) - {j});
      if k < |base| {
        IsolatedFirstRound(base, ts, k);
        FirstRound(base, ts, k);
        var i := Missed(Positive(t), Ahead(base, c));
        SecondLeader(base, t, c, i);
      }
      assert false;
    }
    assert forall j :: 0 <= j < |base| ==> t[c] <= t[j];
  }

  lemma {:induction false} RoomyIsolates(base: seq<int>, ts: seq<seq<nat>>, k: nat)
    requires Trace(base, ts) && k < |ts| && Roomy(base, |ts| - 1)
    ensures forall l :: 0 <= l <= k ==> Isolated(ts[l])
  {
    if k > 0 {
      RoomyIsolates(base, ts, k - 1);
      RoomyStep(base, ts, k - 1);
    }
  }

  /** The moment a broker gets its first leader. */
  lemma {:induction false} FirstTime(base: seq<int>, ts: seq<seq<nat>>, k: nat, j: nat) returns (l: nat)
    requires Trace(base, ts) && k < |ts| && j < |base| && ts[k][j] > 0
    ensures l < k && ts[l][j] == 0 && Chosen(base, ts[l], j)
  {
    var c := StepOf(base, ts, k - 1);
    if ts[k - 1][j] == 0 {
      l := k - 1;
    } else {
      l := FirstTime(base, ts, k - 1, j);
    }
  }

  /** A broker takes its first leader before the second of a broker that has at most one. */
  lemma FirstLeader(base: seq<int>, t: seq<nat>, j: nat, i: nat)
    requires |base| == |t| && Chosen(base, t, j) && i < |base| && t[j] == 0 && t[i] <= 1
    ensures Before(base, j, i)
  {
    assert Weight(base, t, j) == base[j];
    assert Weight(base, t, i) <= base[i] + |base| + 1;
  }

  lemma IsolationNeedsRoom(base: seq<int>, ts: seq<seq<nat>>, i: nat)
    requires Trace(base, ts) && IsolatedThroughout(ts) && i < |base|
    ensures |Ahead(base, i)| >= Min(|ts| - 1, |base|)
  {
    var m := Min(|ts| - 1, |base|);
    if |Ahead(base, i)| < m {
      IsolatedFirstRound(base, ts, m);
      FirstRound(base, ts, m);
      var j := Missed(Ahead(base, i), Positive(ts[m]));
      var l := FirstTime(base, ts, m, j);
      FirstLeader(base, ts[l], j, i);
    }
  }

  /** Failure-domain isolation after every prefix of the partitions, exactly when there is room. */
  lemma IsolatedIff(base: seq<int>, ts: seq<seq<nat>>)
    requires Trace(base, ts)
    ensures IsolatedThroughout(ts) <==> Roomy(base, |ts| - 1)
  {
    if Roomy(base, |ts| - 1) {
      RoomyIsolates(base, ts, |ts| - 1);
    }
    if IsolatedThroughout(ts) {
      forall i: nat | i < |base| ensures |Ahead(base, i)| >= Min(|ts| - 1, |base|) {
        IsolationNeedsRoom(base, ts, i);
      }
    }
  }

  /** Counts that differ by at most the number of brokers leave room for any number of partitions. */
  lemma SpreadGivesRoom(base: seq<int>, partitions: nat)
    requires forall i, j :: 0 <= i < |base| && 0 <= j < |base| ==> base[j] <= base[i] + |base|
    ensures Roomy(base, partitions)
  {
    forall i: nat | i < |base| ensures |Ahead(base, i)| >= Min(partitions, |base|) {
      assert Ahead(base, i) == Below(|base|);
    }
  }

  /** No room for a second partition beside a first broker that is far below all others. */
  lemma NoRoom(base: seq<int>, partitions: nat)
    requires |base| >= 2 && partitions >= 2
    requires forall i :: 0 < i < |base| ==> base[i] == base[0] + |base| + 1
    ensures !Roomy(base, partitions)
  {
    assert Ahead(base, 0) == {0};
  }

  // ----- global balance -----

  /** A broker leads more of the topic than another only if it led no more before the call. */
  lemma {:induction false} LeadersStartLow(base: seq<int>, ts: seq<seq<nat>>, k: nat, i: nat, j: nat)
    requires Trace(base, ts) && k < |ts| && IsolatedThroughout(ts) && i < |base| && j < |base|
    ensures ts[k][i] > ts[k][j] ==> base[i] <= base[j]
  {
    if k > 0 {
      LeadersStartLow(base, ts, k - 1, i, j);
      var c := StepOf(base, ts, k - 1);
      var t := ts[k - 1];
      if ts[k][i] > ts[k][j] && t[i] <= t[j] {
        assert i == c && t[i] == t[j];
        assert Weight(base, t, i) <= Weight(base, t, j);
      }
    }
  }

  /** The new totals of two brokers differ by no more than the old ones did, or by one. */
  lemma Balanced(base: seq<int>, ts: seq<seq<nat>>, k: nat, i: nat, j: nat, spread: nat)
    requires Trace(base, ts) && k < |ts| && IsolatedThroughout(ts) && i < |base| && j < |base|
    requires base[i] <= base[j] + spread
    ensures |ts[k]| == |base|
    ensures base[i] + ts[k][i] <= base[j] + ts[k][j] + (if spread > 1 then spread else 1)
  {
    LeadersStartLow(base, ts, k, i, j);
    assert Isolated(ts[k]);
    assert ts[k][i] <= ts[k][j] + 1;
  }

  // ----- greedy optimality -----

  function Sum(t: seq<nat>): nat { if t == [] then 0 else t[|t| - 1] + Sum(t[..|t| - 1]) }

  lemma {:induction false} SumBumped(t: seq<nat>, c: nat)
    requires c < |t|
    ensures Sum(t[c := t[c] + 1]) == Sum(t) + 1
  {
    var n := |t| - 1;
    var t' := t[c := t[c] + 1];
    if c == n {
      assert t'[..n] == t[..n];
    } else {
      SumBumped(t[..n], c);
      assert t'[..n] == t[..n][c := t[..n][c] + 1];
    }
  }

  lemma {:induction false} SumZero(n: nat)
    ensures Sum(seq(n, _ => 0)) == 0
  {
    if n > 0 {
      SumZero(n - 1);
      assert seq<nat>(n, _ => 0)[..n - 1] == seq<nat>(n - 1, _ => 0);
    }
  }

  /** Every partition has one leader. */
  lemma {:induction false} TraceSum(base: seq<int>, ts: seq<seq<nat>>, k: nat)
    requires Trace(base, ts) && k < |ts|
    ensures Sum(ts[k]) == k
  {
    if k == 0 {
      SumZero(|base|);
    } else {
      TraceSum(base, ts, k - 1);
      var c := StepOf(base, ts, k - 1);
      SumBumped(ts[k - 1], c);
    }
  }

  lemma {:induction false} SumMonotone(t: seq<nat>, u: seq<nat>)
    requires |t| == |u| && forall i :: 0 <= i < |t| ==> u[i] <= t[i]
    ensures Sum(u) <= Sum(t)
    ensures (exists i :: 0 <= i < |t| && u[i] < t[i]) ==> Sum(u) < Sum(t)
  {
    if t != [] {
      SumMonotone(t[..|t| - 1], u[..|t| - 1]);
      if i :| 0 <= i < |t| - 1 && u[i] < t[i] {
        assert u[..|t| - 1][i] < t[..|t| - 1][i];
      }
    }
  }

  /** A broker that leads something of the topic is at most one step of the score above every other. */
  lemma {:induction false} Levelled(base: seq<int>, ts: seq<seq<nat>>, k: nat, b: nat, c: nat)
    requires Trace(base, ts) && k < |ts| && b < |base| && c < |base| && ts[k][b] > 0
    ensures |ts[k]| == |base| && Weight(base, ts[k], c) >= Weight(base, ts[k], b) - (|base| + 1)
  {
    var d := StepOf(base, ts, k - 1);
    var t, t' := ts[k - 1], ts[k];
    assert Weight(base, t', d) == Weight(base, t, d) + (|base| + 1);
    assert forall i :: 0 <= i < |base| && i != d ==> Weight(base, t', i) == Weight(base, t, i);
    if d == b {
      assert Weight(base, t, b) <= Weight(base, t, c);
    } else {
      Levelled(base, ts, k - 1, b, c);
    }
  }

  /** No other way of giving the same number of leaders to the same brokers has a smaller largest score. */
  lemma Optimal(base: seq<int>, ts: seq<seq<nat>>, k: nat, other: seq<nat>, b: nat) returns (c: nat)
    requires Trace(base, ts) && k < |ts| && |other| == |base| && Sum(other) == k && b < |base|
    ensures |ts[k]| == |base| && c < |base| && Weight(base, other, c) >= Weight(base, ts[k], b)
  {
    var t := ts[k];
    if other[b] >= t[b] {
      c := b;
      ScoreGrows(base, t, other, b);
    } else {
      TraceSum(base, ts, k);
      if forall i :: 0 <= i < |t| ==> other[i] <= t[i] {
        SumMonotone(t, other);
        assert false;
      }
      c :| 0 <= c < |t| && other[c] > t[c];
      Levelled(base, ts, k, b, c);
      ScoreGrows(base, t[c := t[c] + 1], other, c);
    }
  }

  lemma ScoreGrows(base: seq<int>, t: seq<nat>, u: seq<nat>, i: nat)
    requires |t| == |u| == |base| && i < |base| && t[i] <= u[i]
    ensures Weight(base, t, i) <= Weight(base, u, i)
  {
    assert (|base| + 1) * (u[i] - t[i]) >= 0;
    assert (|base| + 1) * u[i] == (|base| + 1) * t[i] + (|base| + 1) * (u[i] - t[i]);
  }
}
