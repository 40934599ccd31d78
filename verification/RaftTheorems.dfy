/** What the invariants give for whole runs, and where the hypotheses are exactly needed. */
module RaftTheorems {
  import opened RaftTypes
  import opened RaftNode
  import opened Cluster
  import opened Safety
  import Membership
  import LogMatching
  import Election
  import Replication
  import Requests
  import MembershipRuns
  import Keeping
  import SafetySteps

  // ----- safety across time -----

  /** In any step of the code, orderly or not, a node's applied entries only grow at the end. */
  lemma AppliedGrows(c: State, s: Step)
    requires Enabled(c, s)
    ensures Apply(c, s).nodes.Keys == c.nodes.Keys
    ensures forall a :: a in c.nodes ==> c.nodes[a].applied <= Apply(c, s).nodes[a].applied
  {
    StepTouchesOne(c, s);
    NodeAppliedGrows(c, s);
  }

  lemma NodeAppliedGrows(c: State, s: Step)
    requires Enabled(c, s)
    ensures s.a in Apply(c, s).nodes && c.nodes[s.a].applied <= Apply(c, s).nodes[s.a].applied
  {
    var n := c.nodes[s.a];
    if Small(s) {
      SmallStepFrame(c, s);
    } else if s.RecvAppend? {
      HandleAppendApplied(n, s.appendReq, s.pick);
    } else if s.RecvAppendReply? {
      HandleReplyApplied(n, s.appendReply.from, s.appendReply.req, s.appendReply.resp);
    }
  }

  lemma HandleAppendApplied(n: NodeState, req: AppendRequest, pick: NodeID)
    ensures n.applied <= HandleAppendEntries(n, req, pick).0.applied
  {
    if req.term >= n.term && PrevMatches(n.log, req) {
      var n2 := FollowLeader(n, req, pick).(log := AppendTo(n.log, req));
      if req.leaderCommit > n.commitIndex {
        ApplyCommittedFrame(n2.(commitIndex := if req.leaderCommit < LastIndex(n2.log) then req.leaderCommit
          else LastIndex(n2.log)));
      }
    }
  }

  lemma HandleReplyApplied(n: NodeState, from: Addr, req: AppendRequest, resp: AppendResponse)
    ensures n.applied <= HandleAppendReply(n, from, req, resp).applied
  {
    if resp.term <= n.term && resp.success {
      var n1 := Replication.Matched(n, from, req.End());
      ApplyCommittedFrame(n1.(commitIndex := BestCommit(n1, LastIndex(n1.log))));
    }
  }

  lemma {:induction false} AppliedGrowsOverRun(c: State, steps: seq<Step>, rule: (State, Step) -> bool, j: nat)
    requires Run(c, steps, rule) && j <= |steps|
    ensures Run(c, steps[..j], rule)
    ensures After(c, steps, rule).nodes.Keys == c.nodes.Keys == After(c, steps[..j], rule).nodes.Keys
    ensures forall a :: a in c.nodes ==>
      After(c, steps[..j], rule).nodes[a].applied <= After(c, steps, rule).nodes[a].applied
    decreases |steps|
  {
    if steps != [] {
      AppliedGrows(c, steps[0]);
      var d := Apply(c, steps[0]);
      if j == 0 {
        assert steps[..0] == [];
        AppliedGrowsOverRun(d, steps[1..], rule, 0);
        assert steps[1..][..0] == [];
      } else {
        AppliedGrowsOverRun(d, steps[1..], rule, j - 1);
        assert steps[..j][0] == steps[0] && steps[..j][1..] == steps[1..][..j - 1];
      }
    } else {
      assert steps[..j] == [];
    }
  }

  /** Whatever two nodes have applied at any two moments of an orderly run, one is a prefix of the other. */
  lemma StateMachineSafetyOverTime(conf: Config, steps: seq<Step>, j: nat, k: nat, a: Addr, b: Addr)
    requires ValidConfig(conf) && Run(Init(conf, Static), steps, Orderly)
    requires j <= |steps| && k <= |steps| && a in conf && b in conf
    ensures Run(Init(conf, Static), steps[..j], Orderly) && Run(Init(conf, Static), steps[..k], Orderly)
    ensures var x, y := After(Init(conf, Static), steps[..j], Orderly), After(Init(conf, Static), steps[..k], Orderly);
      && a in x.nodes && b in y.nodes
      && (x.nodes[a].applied <= y.nodes[b].applied || y.nodes[b].applied <= x.nodes[a].applied)
  {
    var c := Init(conf, Static);
    AppliedGrowsOverRun(c, steps, Orderly, j);
    AppliedGrowsOverRun(c, steps, Orderly, k);
    SafetySteps.StateMachineSafety(conf, After(c, steps, Orderly));
    var p, q := After(c, steps[..j], Orderly).nodes[a].applied, After(c, steps[..k], Orderly).nodes[b].applied;
    var d := After(c, steps, Orderly);
    PrefixesCompare(p, d.nodes[a].applied, q, d.nodes[b].applied);
  }

  lemma PrefixesCompare<T>(p: seq<T>, p': seq<T>, q: seq<T>, q': seq<T>)
    requires p <= p' && q <= q' && (p' <= q' || q' <= p')
    ensures p <= q || q <= p
  {
    var l := if p' <= q' then q' else p';
    assert p == l[..|p|] && q == l[..|q|];
    if |p| <= |q| {
      assert p == q[..|p|];
    } else {
      assert q == p[..|q|];
    }
  }

  /** Leader Completeness: whatever a majority of voters has acknowledged of a leader's own entries is in
      the log, with all that precedes it, of every leader of a later term. */
  lemma CommittedSurvivesElections(conf: Config, c: State, t: nat, i: nat, w: nat)
    requires SafetySteps.Reachable(conf, c)
    requires Committed(conf, c.hist, t, i) && w in c.hist.reigns.leaders && w > t
    ensures t in c.hist.reigns.termLog && LogMatching.Agree(c.hist.reigns.leaders[w].log, c.hist.reigns.termLog[t], i)
  {
    SafetySteps.ReachableInv(conf, c);
    LeaderCompleteness(conf, c, t, i, w);
    WinLog(c, w);
    KeptAgrees(c.hist.reigns.leaders[w].log, c.hist.reigns, t, i);
  }

  /** Acknowledgements are truthful: a follower in the leader's term agrees with the leader's log through
      the leader's matchIndex for it. */
  lemma StaticAcknowledgementsTruthful(conf: Config, c: State, a: Addr, f: Addr)
    requires SafetySteps.Reachable(conf, c) && a in c.nodes && f in c.nodes && f in conf && a != f
    requires c.nodes[a].role == Leader && c.nodes[f].term == c.nodes[a].term && Lookup(c.nodes[a].matchIndex, f) > 0
    ensures LogMatching.Agree(c.nodes[f].log, c.nodes[a].log, c.nodes[a].matchIndex[f])
  {
    SafetySteps.ReachableInv(conf, c);
    var n := c.nodes[a];
    assert MatchOK(conf, c, a) && LogMatching.NodeOK(n, c.hist.reigns);
    assert Acked(c.hist, f, n.term, n.matchIndex[f]);
    var k :| k in c.hist.acks && k.addr == f && k.term == n.term && k.end >= n.matchIndex[f];
    assert AckOK(c, k);
    Replication.ShorterAgree(c.nodes[f].log, n.log, k.end, n.matchIndex[f]);
  }

  /** Every commit index is backed by a real majority: the committed part of a log is part of the log of
      some leader through an entry of its own term that a majority of the voters acknowledged. */
  lemma CommitsAreBacked(conf: Config, c: State, a: Addr)
    requires SafetySteps.Reachable(conf, c) && a in c.nodes && c.nodes[a].commitIndex > 0
    ensures exists t: nat, i: nat, q ::
      && OwnEntry(c.hist.reigns, t, i) && Majority(conf, q) && AllAcked(c.hist, q, t, i)
      && c.nodes[a].commitIndex <= i && t <= c.nodes[a].term
      && LogMatching.Agree(c.nodes[a].log, c.hist.reigns.termLog[t], c.nodes[a].commitIndex)
  {
    SafetySteps.ReachableInv(conf, c);
    assert CommitOK(conf, c, a);
    CommitBacked(conf, c, a);
  }

  lemma CommitBacked(conf: Config, c: State, a: Addr)
    requires CommitOK(conf, c, a) && c.nodes[a].commitIndex > 0
    ensures exists t: nat, i: nat, q ::
      && OwnEntry(c.hist.reigns, t, i) && Majority(conf, q) && AllAcked(c.hist, q, t, i)
      && c.nodes[a].commitIndex <= i && t <= c.nodes[a].term
      && LogMatching.Agree(c.nodes[a].log, c.hist.reigns.termLog[t], c.nodes[a].commitIndex)
  {
    var n := c.nodes[a];
    var t: nat, i: nat :| Certified(conf, c.hist, n.log, n.commitIndex, t, i, n.term);
    var q :| Majority(conf, q) && AllAcked(c.hist, q, t, i);
  }

  // ----- what a leader sends -----

  /** A leader's nextIndex never points beyond the end of its log. */
  predicate NextOK(conf: Config, a: Addr, n: NodeState) {
    n.role == Leader ==> forall f :: f in conf && f != a ==> Lookup(n.nextIndex, f) <= |n.log|
  }

  ghost predicate NextInv(conf: Config, c: State) {
    forall a {:trigger NextOK(conf, a, c.nodes[a])} :: a in c.nodes ==> NextOK(conf, a, c.nodes[a])
  }

  lemma HandleReplyNext(conf: Config, a: Addr, n: NodeState, from: Addr, req: AppendRequest, resp: AppendResponse)
    requires NextOK(conf, a, n) && (resp.term <= n.term && resp.success ==> req.End() < |n.log|)
    ensures NextOK(conf, a, HandleAppendReply(n, from, req, resp))
  {
    if resp.term <= n.term && resp.success {
      var n1 := Replication.Matched(n, from, req.End());
      ApplyCommittedFrame(n1.(commitIndex := BestCommit(n1, LastIndex(n1.log))));
    }
  }

  lemma ReplyNext(conf: Config, c: State, a: Addr, reply: AppendReply)
    requires Inv(conf, c) && Orderly(c, RecvAppendReply(a, reply)) && NextOK(conf, a, c.nodes[a])
    ensures NextOK(conf, a, HandleAppendReply(c.nodes[a], reply.from, reply.req, reply.resp))
  {
    var n := c.nodes[a];
    if reply.resp.term <= n.term && reply.resp.success {
      assert AckedReply(c.hist, reply) && LogMatching.NodeOK(n, c.hist.reigns);
      assert AckOK(c, Ack(reply.from, n.term, reply.req.End()));
    }
    HandleReplyNext(conf, a, n, reply.from, reply.req, reply.resp);
  }

  lemma TakeLeadNext(conf: Config, c: State, a: Addr)
    requires Inv(conf, c) && a in c.nodes
    ensures NextOK(conf, a, BecomeLeader(c.nodes[a]))
  {
    assert Election.StaticNode(conf, a, c.nodes[a]);
    Election.MembersCount(conf, c.nodes[a].members, a);
    forall f | f in conf && f != a ensures Lookup(BecomeLeader(c.nodes[a]).nextIndex, f) <= |c.nodes[a].log| {
      assert f in Membership.PeerVoters(c.nodes[a].members, c.nodes[a].id);
    }
  }

  lemma StepNext(conf: Config, c: State, s: Step)
    requires Inv(conf, c) && NextInv(conf, c) && Orderly(c, s)
    ensures NextInv(conf, Apply(c, s))
  {
    StepTouchesOne(c, s);
    NodeNext(conf, c, s);
    var c' := Apply(c, s);
    forall b | b in c'.nodes ensures NextOK(conf, b, c'.nodes[b]) {
      assert b != s.a ==> NextOK(conf, b, c.nodes[b]);
    }
  }

  lemma SmallNext(conf: Config, c: State, s: Step)
    requires Enabled(c, s) && Small(s) && !s.Join? && NextOK(conf, s.a, c.nodes[s.a])
    ensures s.a in Apply(c, s).nodes && NextOK(conf, s.a, Apply(c, s).nodes[s.a])
  {
    SmallStepFrame(c, s);
  }

  /** Steps other than taking the lead and handling replies need no invariant for this. */
  lemma PlainNext(conf: Config, c: State, s: Step)
    requires Enabled(c, s) && NextOK(conf, s.a, c.nodes[s.a]) && c.nodes[s.a].mode == Static && !s.TakeLead?
    requires !s.RecvAppendReply?
    ensures s.a in Apply(c, s).nodes && NextOK(conf, s.a, Apply(c, s).nodes[s.a])
  {
    if s.RecvAppend? {
      LogMatching.HandleAppendEntriesFrame(c.nodes[s.a], s.appendReq, s.pick);
    } else if Small(s) {
      SmallNext(conf, c, s);
    }
  }

  lemma NodeNext(conf: Config, c: State, s: Step)
    requires Inv(conf, c) && NextInv(conf, c) && Orderly(c, s)
    ensures s.a in Apply(c, s).nodes && NextOK(conf, s.a, Apply(c, s).nodes[s.a])
  {
    assert NextOK(conf, s.a, c.nodes[s.a]) && Election.StaticNode(conf, s.a, c.nodes[s.a]);
    if s.RecvAppendReply? {
      ReplyNext(conf, c, s.a, s.appendReply);
    } else if s.TakeLead? {
      TakeLeadNext(conf, c, s.a);
    } else {
      PlainNext(conf, c, s);
    }
  }

  lemma {:induction false} RunNext(conf: Config, c: State, steps: seq<Step>)
    requires Inv(conf, c) && NextInv(conf, c) && Run(c, steps, Orderly)
    ensures var d := After(c, steps, Orderly); Inv(conf, d) && NextInv(conf, d)
    decreases |steps|
  {
    if steps != [] {
      SafetySteps.StepInv(conf, c, steps[0]);
      StepNext(conf, c, steps[0]);
      RunNext(conf, Apply(c, steps[0]), steps[1..]);
    }
  }

  lemma ReachableNext(conf: Config, c: State)
    requires SafetySteps.Reachable(conf, c)
    ensures Inv(conf, c) && NextInv(conf, c)
  {
    var steps :| Run(Init(conf, Static), steps, Orderly) && After(Init(conf, Static), steps, Orderly) == c;
    SafetySteps.InitInv(conf);
    RunNext(conf, Init(conf, Static), steps);
  }

  /** A request that a leader builds for another voter starts at an entry the leader has, carries
      everything from there to the end of its log, and announces a commit index within it. */
  lemma StaticRequestsReachTheEnd(conf: Config, c: State, a: Addr, f: Addr, beat: Beat)
    requires SafetySteps.Reachable(conf, c) && f in conf && f != a && Orderly(c, SendAppend(a, f, beat))
    ensures var n := c.nodes[a];
      var m := MakeAppendRequest(n, f, beat.term, beat.commit);
      && m.prevIndex < |n.log| && m.prevTerm == n.log[m.prevIndex].term
      && m.entries == n.log[m.prevIndex + 1..] && m.End() == LastIndex(n.log)
      && m.leaderCommit <= m.End()
  {
    ReachableNext(conf, c);
    RequestWithin(conf, c, a, f, beat);
  }

  lemma RequestWithin(conf: Config, c: State, a: Addr, f: Addr, beat: Beat)
    requires Inv(conf, c) && NextInv(conf, c) && f in conf && f != a && Orderly(c, SendAppend(a, f, beat))
    ensures var n := c.nodes[a];
      var m := MakeAppendRequest(n, f, beat.term, beat.commit);
      && m.prevIndex < |n.log| && m.prevTerm == n.log[m.prevIndex].term
      && m.entries == n.log[m.prevIndex + 1..] && m.End() == LastIndex(n.log)
      && m.leaderCommit <= m.End()
  {
    assert NextOK(conf, a, c.nodes[a]);
    SafetySteps.SendAppendSent(conf, c, a, f, beat);
    Requests.RequestShape(c.nodes[a], f, beat.term, beat.commit);
  }

  /** The condition under which a follower accepts a request. */
  ghost predicate Accepts(c: State, a: Addr, req: AppendRequest, pick: NodeID) {
    Orderly(c, RecvAppend(a, req, pick)) && req.term >= c.nodes[a].term && PrevMatches(c.nodes[a].log, req)
  }

  /** A follower that accepts a request ends up committed exactly through the greater of its old commit
      index and the leader's, which lies within the part just verified: its log agrees with the
      leader's through the end of the request, and what it had committed is untouched. */
  lemma StaticFollowerCommits(conf: Config, c: State, a: Addr, req: AppendRequest, pick: NodeID)
    requires SafetySteps.Reachable(conf, c) && Accepts(c, a, req, pick)
    ensures CommitsWithin(c, a, req, HandleAppendEntries(c.nodes[a], req, pick).0)
  {
    SafetySteps.ReachableInv(conf, c);
    AcceptedWithin(conf, c, a, req, pick);
  }

  /** Node `a` of `c`, now in state `n'`, has committed nothing of `req` that it did not verify. */
  predicate CommitsWithin(c: State, a: Addr, req: AppendRequest, n': NodeState)
    requires a in c.nodes
  {
    var n := c.nodes[a];
    && req.leaderCommit <= req.End()
    && n'.commitIndex == (if req.leaderCommit > n.commitIndex then req.leaderCommit else n.commitIndex)
    && req.term in c.hist.reigns.termLog && LogMatching.Agree(n'.log, c.hist.reigns.termLog[req.term], req.End())
    && LogMatching.Agree(n'.log, n.log, n.commitIndex)
  }

  lemma AcceptedWithin(conf: Config, c: State, a: Addr, req: AppendRequest, pick: NodeID)
    requires Inv(conf, c) && Accepts(c, a, req, pick)
    ensures CommitsWithin(c, a, req, HandleAppendEntries(c.nodes[a], req, pick).0)
  {
    Replication.AcceptedLog(c, a, req);
    SafetySteps.CommitSurvives(conf, c, a, req);
    assert SentOK(conf, c.hist, req);
    LogMatching.HandleAppendEntriesFrame(c.nodes[a], req, pick);
    Requests.AcceptedCommit(c.nodes[a], req, pick);
  }

  // ----- in-order handling is exactly what acknowledgements need -----

  /** A follower whose log agrees with its leader's through `end` still does after accepting a slice of
      that log if and only if the slice is empty or reaches `end`: the truncation is unconditional. */
  lemma TruncationKeepsIff(log: Entries, leaderLog: Entries, end: nat, m: AppendRequest)
    requires LogMatching.Agree(log, leaderLog, end)
    requires m.End() < |leaderLog| && m.prevTerm == leaderLog[m.prevIndex].term
    requires m.entries == leaderLog[m.prevIndex + 1..m.End() + 1] && PrevMatches(log, m)
    ensures LogMatching.Agree(AppendTo(log, m), leaderLog, end) <==> m.entries == [] || end <= m.End()
  {
    if m.entries != [] && end <= m.End() {
      var log' := AppendTo(log, m);
      assert |log'| == m.End() + 1;
      forall i | 0 <= i <= end ensures log'[i] == leaderLog[i] {
        if i <= m.prevIndex {
          assert log'[i] == log[i] && log[i] == log[..end + 1][i] && leaderLog[i] == leaderLog[..end + 1][i];
        }
      }
      assert log'[..end + 1] == leaderLog[..end + 1];
    }
  }

  // ----- what the leader commits -----

  /** All of `q` hold the node's log through `index`: the node itself, and the others as far as their
      matchIndex says. */
  ghost predicate AllHold(n: NodeState, q: set<NodeID>, index: nat) {
    forall id :: id in q && id in n.members ==> id == n.id || Lookup(n.matchIndex, n.members[id].addr) >= index
  }

  /** A majority of the voters do. */
  ghost predicate MajorityHolds(n: NodeState, index: nat) {
    exists q :: Membership.IsQuorum(q, n.members) && AllHold(n, q, index)
  }

  /** Counting oneself and the supporters is counting a majority of the voters. */
  lemma CommittableIff(n: NodeState, index: nat)
    requires Membership.KeyedByID(n.members) && n.id in Membership.VoterIDs(n.members)
    ensures Committable(n, index) <==> index < |n.log| && n.log[index].term == n.term && MajorityHolds(n, index)
  {
    var s := Supporters(n, index);
    var all := s + {n.id};
    assert |all| == |s| + 1;
    if 1 + |s| >= Membership.QuorumSize(n.members) {
      assert Membership.IsQuorum(all, n.members) && AllHold(n, all, index);
    }
    if MajorityHolds(n, index) {
      var q :| Membership.IsQuorum(q, n.members) && AllHold(n, q, index);
      assert q <= all;
      Membership.SubsetSize(q, all);
    }
  }

  /** The new commit index is the greatest index above the old one whose entry is of the current term and
      held by a majority of the voters, or the old one if there is none. */
  lemma AdvancesToGreatestMajority(n: NodeState)
    requires Membership.KeyedByID(n.members) && n.id in Membership.VoterIDs(n.members)
    ensures var k := MaybeAdvanceCommitIndex(n).commitIndex;
      && k >= n.commitIndex
      && (k > n.commitIndex ==> k < |n.log| && n.log[k].term == n.term && MajorityHolds(n, k))
      && forall i: nat :: i < |n.log| && n.log[i].term == n.term && MajorityHolds(n, i) ==> i <= k
  {
    var best := BestCommit(n, LastIndex(n.log));
    ApplyCommittedFrame(n.(commitIndex := best));
    CommittableIff(n, best);
    forall i: nat | i < |n.log| && n.log[i].term == n.term && MajorityHolds(n, i) ensures i <= best {
      CommittableIff(n, i);
    }
  }

  // ----- commits in a dynamic cluster -----

  /** All of `q` acknowledged the log of the leader `n` through `index` in its term, or are the leader. */
  ghost predicate AllAckedVoters(h: History, n: NodeState, q: set<NodeID>, index: nat) {
    forall id :: id in q && id in n.members ==> id == n.id || Acked(h, n.members[id].addr, n.term, index)
  }

  lemma HoldersAcked(h: History, n: NodeState, q: set<NodeID>, index: nat)
    requires Replication.MatchBacked(h, n) && n.role == Leader && AllHold(n, q, index) && index > 0
    ensures AllAckedVoters(h, n, q, index)
  {
    forall id | id in q && id in n.members ensures id == n.id || Acked(h, n.members[id].addr, n.term, index) {
      if id != n.id {
        var f := n.members[id].addr;
        assert Lookup(n.matchIndex, f) >= index;
        assert Acked(h, f, n.term, n.matchIndex[f]);
      }
    }
  }

  /** Static or dynamic: when a success reply lets a leader that is a voter advance its commit index, a quorum of
      the voters it knows have acknowledged its log through the new index in its term. */
  lemma AdvancesAreBacked(conf: Config, mode: Mode, peers: map<Addr, set<Addr>>, c: State, a: Addr, reply: AppendReply)
    requires Reaches(InitWith(conf, mode, peers), c, Replication.FreshReign)
    requires Replication.FreshReign(c, RecvAppendReply(a, reply)) && a in conf
    requires c.nodes[a].id in Membership.VoterIDs(c.nodes[a].members)
    ensures var n, k := c.nodes[a], HandleAppendReply(c.nodes[a], reply.from, reply.req, reply.resp).commitIndex;
      k > n.commitIndex ==> exists q :: Membership.IsQuorum(q, n.members) && AllAckedVoters(c.hist, n, q, k)
  {
    var n := c.nodes[a];
    var r := HandleAppendReply(n, reply.from, reply.req, reply.resp);
    if r.commitIndex > n.commitIndex {
      Replication.ReachedBacked(conf, mode, peers, c);
      MembershipRuns.MembersStayKeyed(conf, mode, peers, Replication.FreshReign, c, a);
      AdvanceBacked(c, a, reply);
    }
  }

  lemma MajorityAcked(h: History, n: NodeState, index: nat)
    requires Replication.MatchBacked(h, n) && n.role == Leader && MajorityHolds(n, index) && index > 0
    ensures exists q :: Membership.IsQuorum(q, n.members) && AllAckedVoters(h, n, q, index)
  {
    var q :| Membership.IsQuorum(q, n.members) && AllHold(n, q, index);
    HoldersAcked(h, n, q, index);
  }

  lemma AdvanceBacked(c: State, a: Addr, reply: AppendReply)
    requires Replication.AckInv(c) && Replication.AllBacked(c) && Replication.InReign(c, RecvAppendReply(a, reply))
    requires Membership.KeyedByID(c.nodes[a].members) && c.nodes[a].id in Membership.VoterIDs(c.nodes[a].members)
    requires HandleAppendReply(c.nodes[a], reply.from, reply.req, reply.resp).commitIndex > c.nodes[a].commitIndex
    ensures var n, k := c.nodes[a], HandleAppendReply(c.nodes[a], reply.from, reply.req, reply.resp).commitIndex;
      exists q :: Membership.IsQuorum(q, n.members) && AllAckedVoters(c.hist, n, q, k)
  {
    var n := c.nodes[a];
    var n1 := Replication.Matched(n, reply.from, reply.req.End());
    assert Replication.MatchBacked(c.hist, n);
    Keeping.SuccessAdvances(n, reply.from, reply.req, reply.resp);
    Replication.MatchedBacked(c, a, reply);
    AdvancesToGreatestMajority(n1);
    MajorityAcked(c.hist, n1, MaybeAdvanceCommitIndex(n1).commitIndex);
    SameVoters(c.hist, n, n1, MaybeAdvanceCommitIndex(n1).commitIndex);
  }

  lemma SameVoters(h: History, n: NodeState, n1: NodeState, index: nat)
    requires n1.members == n.members && n1.id == n.id && n1.term == n.term
    requires exists q :: Membership.IsQuorum(q, n1.members) && AllAckedVoters(h, n1, q, index)
    ensures exists q :: Membership.IsQuorum(q, n.members) && AllAckedVoters(h, n, q, index)
  {
    var q :| Membership.IsQuorum(q, n1.members) && AllAckedVoters(h, n1, q, index);
    assert AllAckedVoters(h, n, q, index);
  }

  // ----- observers -----

  /** Only the match indices of voters other than the node itself influence what it commits. */
  lemma {:induction false} ObserversDoNotCount(n: NodeState, match': map<Addr, nat>, index: nat)
    requires forall id :: id in n.members && n.members[id].kind == Voter && n.members[id].id != n.id ==>
      Lookup(match', n.members[id].addr) == Lookup(n.matchIndex, n.members[id].addr)
    ensures BestCommit(n.(matchIndex := match'), index) == BestCommit(n, index)
    decreases index
  {
    if index > n.commitIndex {
      assert Supporters(n.(matchIndex := match'), index) == Supporters(n, index);
      ObserversDoNotCount(n, match', index - 1);
    }
  }
}
