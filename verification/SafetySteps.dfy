/** Every orderly step of a static cluster keeps the invariant of module Safety. */
module SafetySteps {
  import opened RaftTypes
  import opened RaftNode
  import opened Cluster
  import opened Safety
  import opened Replication
  import opened Keeping
  import Membership
  import LogMatching
  import Election

  // ----- what carries over when history grows -----

  lemma CommittedGrows(conf: Config, h: History, h': History, t: nat, i: nat)
    requires h.acks <= h'.acks && LogMatching.Grows(h.reigns, h'.reigns) && Committed(conf, h, t, i)
    ensures Committed(conf, h', t, i)
  {
    assert h'.reigns.termLog[t][i] == h.reigns.termLog[t][i];
    var q :| Majority(conf, q) && AllAcked(h, q, t, i);
    forall v | v in q ensures Acked(h', v, t, i) {
      assert Acked(h, v, t, i);
    }
    assert AllAcked(h', q, t, i);
  }

  lemma CertifiedGrows(conf: Config, h: History, h': History, log: seq<LogEntry>, k: nat, t: nat, i: nat, last: nat,
                       last': nat)
    requires h.acks <= h'.acks && LogMatching.Grows(h.reigns, h'.reigns) && last <= last'
    requires Certified(conf, h, log, k, t, i, last)
    ensures Certified(conf, h', log, k, t, i, last')
  {
    CommittedGrows(conf, h, h', t, i);
    AgreeGrows(log, h.reigns, h'.reigns, t, k);
  }

  // ----- commit -----

  lemma CommitOKLater(conf: Config, c: State, c': State, b: Addr)
    requires CommitOK(conf, c, b) && b in c'.nodes
    requires c'.nodes[b].log == c.nodes[b].log && c'.nodes[b].commitIndex == c.nodes[b].commitIndex
    requires c'.nodes[b].term >= c.nodes[b].term
    requires c.hist.acks <= c'.hist.acks && LogMatching.Grows(c.hist.reigns, c'.hist.reigns)
    ensures CommitOK(conf, c', b)
  {
    var n, n' := c.nodes[b], c'.nodes[b];
    if n.commitIndex > 0 {
      var t: nat, i: nat :| Certified(conf, c.hist, n.log, n.commitIndex, t, i, n.term)
                            && (t < n.term || Acked(c.hist, b, t, n.commitIndex));
      CertifiedGrows(conf, c.hist, c'.hist, n.log, n.commitIndex, t, i, n.term, n'.term);
      assert t < n'.term || Acked(c'.hist, b, t, n.commitIndex);
    }
  }

  lemma MatchOKLater(conf: Config, c: State, c': State, b: Addr)
    requires MatchOK(conf, c, b) && b in c'.nodes
    requires c'.nodes[b].log == c.nodes[b].log && c'.nodes[b].matchIndex == c.nodes[b].matchIndex
    requires c'.nodes[b].role == Leader ==> c.nodes[b].role == Leader && c'.nodes[b].term == c.nodes[b].term
    requires c.hist.acks <= c'.hist.acks
    ensures MatchOK(conf, c', b)
  {
    var n' := c'.nodes[b];
    if n'.role == Leader {
      forall f | f in conf && f != b && Lookup(n'.matchIndex, f) > 0
        ensures Acked(c'.hist, f, n'.term, n'.matchIndex[f])
      {
        assert Acked(c.hist, f, n'.term, n'.matchIndex[f]);
      }
      forall i | 0 <= i < |n'.log| && n'.log[i].term == n'.term ensures Acked(c'.hist, b, n'.term, i) {
        assert Acked(c.hist, b, n'.term, i);
      }
    }
  }

  lemma SentLater(conf: Config, h: History, h': History, m: AppendRequest)
    requires SentOK(conf, h, m) && h.acks <= h'.acks && LogMatching.Grows(h.reigns, h'.reigns)
    ensures SentOK(conf, h', m)
  {
    if m.leaderCommit > 0 {
      var t: nat, i: nat :| Certified(conf, h, h.reigns.termLog[m.term], m.leaderCommit, t, i, m.term);
      var log, log' := h.reigns.termLog[m.term], h'.reigns.termLog[m.term];
      assert log'[..|log|] == log;
      assert log'[..m.leaderCommit + 1] == log[..m.leaderCommit + 1];
      assert Certified(conf, h, log', m.leaderCommit, t, i, m.term);
      CertifiedGrows(conf, h, h', log', m.leaderCommit, t, i, m.term, m.term);
    }
  }

  lemma CommitLater(conf: Config, c: State, c': State, a: Addr)
    requires CommitInv(conf, c) && AckInv(c') && Onward(c, c', a)
    requires MatchOK(conf, c', a) && CommitOK(conf, c', a) && AppliedOK(c'.nodes[a])
    requires c'.nodes[a].term > c.nodes[a].term || c'.nodes[a].commitIndex >= c.nodes[a].commitIndex
    requires forall m {:trigger SentOK(conf, c'.hist, m)} ::
      m in c'.appendReqs && m !in c.appendReqs ==> SentOK(conf, c'.hist, m)
    requires forall b, k {:trigger BeatOK(c', b, k)} :: (b, k) in c'.beats && (b, k) !in c.beats ==> BeatOK(c', b, k)
    ensures CommitInv(conf, c')
  {
    forall b | b in c'.nodes ensures MatchOK(conf, c', b) && CommitOK(conf, c', b) && AppliedOK(c'.nodes[b]) {
      if b != a {
        assert MatchOK(conf, c, b) && CommitOK(conf, c, b) && AppliedOK(c.nodes[b]);
        MatchOKLater(conf, c, c', b);
        CommitOKLater(conf, c, c', b);
      }
    }
    forall m | m in c'.appendReqs ensures SentOK(conf, c'.hist, m) {
      if m in c.appendReqs {
        assert SentOK(conf, c.hist, m);
        SentLater(conf, c.hist, c'.hist, m);
      }
    }
    forall b, k | (b, k) in c'.beats ensures BeatOK(c', b, k) {
      if (b, k) in c.beats {
        assert BeatOK(c, b, k);
      }
    }
  }

  // ----- steps that leave the node's log, matches and commits alone -----

  predicate CalmNode(n: NodeState, n': NodeState) {
    && n'.log == n.log && n'.commitIndex == n.commitIndex && n'.lastApplied == n.lastApplied && n'.applied == n.applied
    && n'.matchIndex == n.matchIndex && n'.term >= n.term
    && (n'.role == Leader ==> n.role == Leader && n'.term == n.term)
  }

  /** Calm steps build no request. */
  lemma CalmCommits(conf: Config, c: State, c': State, a: Addr)
    requires CommitInv(conf, c) && AckInv(c') && Onward(c, c', a) && CalmNode(c.nodes[a], c'.nodes[a])
    requires c'.appendReqs == c.appendReqs
    requires forall b, k {:trigger BeatOK(c', b, k)} :: (b, k) in c'.beats && (b, k) !in c.beats ==> BeatOK(c', b, k)
    ensures CommitInv(conf, c')
  {
    CalmOK(conf, c, c', a);
    CommitLater(conf, c, c', a);
  }

  lemma CalmOK(conf: Config, c: State, c': State, a: Addr)
    requires CommitInv(conf, c) && Onward(c, c', a) && CalmNode(c.nodes[a], c'.nodes[a])
    ensures MatchOK(conf, c', a) && CommitOK(conf, c', a) && AppliedOK(c'.nodes[a])
  {
    assert MatchOK(conf, c, a) && CommitOK(conf, c, a) && AppliedOK(c.nodes[a]);
    MatchOKLater(conf, c, c', a);
    CommitOKLater(conf, c, c', a);
  }

  // ----- elections -----

  lemma TakeLeadMatch(conf: Config, c: State, a: Addr)
    requires Inv(conf, c) && a in c.nodes && a in c.campaigns && c.nodes[a].term !in c.hist.reigns.leaders
    ensures MatchOK(conf, DoTakeLead(c, a), a)
  {
    var c', n := DoTakeLead(c, a), c.nodes[a];
    assert Election.StaticNode(conf, a, n) && LogMatching.NodeOK(n, c.hist.reigns);
    LeadsUnmatched(conf, a, n);
    NoOwnEntriesYet(n, c.hist.reigns);
  }

  lemma LeadsUnmatched(conf: Config, a: Addr, n: NodeState)
    requires Election.StaticNode(conf, a, n)
    ensures forall f :: f in conf && f != a ==> Lookup(BecomeLeader(n).matchIndex, f) == 0
  {
    Election.MembersCount(conf, n.members, a);
    forall f | f in conf && f != a ensures Lookup(BecomeLeader(n).matchIndex, f) == 0 {
      assert f in Membership.PeerVoters(n.members, n.id);
    }
  }

  lemma TakeLeadCommits(conf: Config, c: State, a: Addr)
    requires Inv(conf, c) && a in c.nodes && a in c.campaigns && c.nodes[a].term !in c.hist.reigns.leaders
    requires Onward(c, DoTakeLead(c, a), a) && AckInv(DoTakeLead(c, a))
    ensures CommitInv(conf, DoTakeLead(c, a))
  {
    var c' := DoTakeLead(c, a);
    TakeLeadMatch(conf, c, a);
    assert CommitOK(conf, c, a) && AppliedOK(c.nodes[a]);
    CommitOKLater(conf, c, c', a);
    CommitLater(conf, c, c', a);
  }

  // ----- replication -----

  lemma ProposeCommits(conf: Config, c: State, a: Addr, command: Command)
    requires Inv(conf, c) && a in c.nodes && c.nodes[a].role == Leader
    requires Onward(c, DoPropose(c, a, command), a) && AckInv(DoPropose(c, a, command))
    ensures CommitInv(conf, DoPropose(c, a, command))
  {
    ProposeCommit(conf, c, a, command);
    CommitLater(conf, c, DoPropose(c, a, command), a);
  }

  lemma ProposeMatch(conf: Config, c: State, a: Addr, command: Command)
    requires Inv(conf, c) && a in c.nodes && c.nodes[a].role == Leader
    ensures MatchOK(conf, DoPropose(c, a, command), a)
  {
    var c', n := DoPropose(c, a, command), c.nodes[a];
    var n' := c'.nodes[a];
    assert MatchOK(conf, c, a);
    forall f | f in conf && f != a && Lookup(n'.matchIndex, f) > 0
      ensures Acked(c'.hist, f, n'.term, n'.matchIndex[f])
    {
      assert Acked(c.hist, f, n'.term, n'.matchIndex[f]);
    }
    forall i | 0 <= i < |n'.log| && n'.log[i].term == n'.term ensures Acked(c'.hist, a, n'.term, i) {
      assert Ack(a, n.term, |n.log|) in c'.hist.acks;
    }
  }

  /** A log that only grew keeps its certificate and what was applied from it. */
  lemma LongerLogCommitted(conf: Config, c: State, c': State, a: Addr)
    requires CommitOK(conf, c, a) && AppliedOK(c.nodes[a]) && Onward(c, c', a)
    requires c.nodes[a].commitIndex < |c'.nodes[a].log|
    requires c'.nodes[a].log[..c.nodes[a].commitIndex + 1] == c.nodes[a].log[..c.nodes[a].commitIndex + 1]
    requires c'.nodes[a].commitIndex == c.nodes[a].commitIndex
    requires c'.nodes[a].applied == c.nodes[a].applied && c'.nodes[a].lastApplied == c.nodes[a].lastApplied
    ensures CommitOK(conf, c', a) && AppliedOK(c'.nodes[a])
  {
    var n, n' := c.nodes[a], c'.nodes[a];
    if n.commitIndex > 0 {
      var t: nat, i: nat :| Certified(conf, c.hist, n.log, n.commitIndex, t, i, n.term)
                            && (t < n.term || Acked(c.hist, a, t, n.commitIndex));
      assert Certified(conf, c.hist, n'.log, n.commitIndex, t, i, n.term);
      CertifiedGrows(conf, c.hist, c'.hist, n'.log, n.commitIndex, t, i, n.term, n'.term);
    }
    assert n'.log[1..n.commitIndex + 1] == n'.log[..n.commitIndex + 1][1..] == n.log[1..n.commitIndex + 1];
  }

  lemma ProposeCommit(conf: Config, c: State, a: Addr, command: Command)
    requires Inv(conf, c) && a in c.nodes && c.nodes[a].role == Leader && Onward(c, DoPropose(c, a, command), a)
    ensures var c' := DoPropose(c, a, command);
      MatchOK(conf, c', a) && CommitOK(conf, c', a) && AppliedOK(c'.nodes[a])
  {
    var c', n := DoPropose(c, a, command), c.nodes[a];
    ProposeMatch(conf, c, a, command);
    assert CommitOK(conf, c, a) && AppliedOK(n);
    assert c'.nodes[a].log[..n.commitIndex + 1] == n.log[..n.commitIndex + 1];
    LongerLogCommitted(conf, c, c', a);
  }

  /** A leader announces no more than it has committed, all within the log it sends. */
  lemma SendAppendSent(conf: Config, c: State, a: Addr, to: Addr, beat: Beat)
    requires Inv(conf, c) && a in c.nodes && (a, beat) in c.beats
    requires c.nodes[a].role == Leader && beat.term == c.nodes[a].term
    ensures SentOK(conf, c.hist, MakeAppendRequest(c.nodes[a], to, beat.term, beat.commit))
  {
    var n, m := c.nodes[a], MakeAppendRequest(c.nodes[a], to, beat.term, beat.commit);
    assert BeatOK(c, a, beat) && CommitOK(conf, c, a) && LogMatching.NodeOK(n, c.hist.reigns);
    if m.leaderCommit > 0 {
      var t: nat, i: nat :| Certified(conf, c.hist, n.log, n.commitIndex, t, i, n.term);
      CertifiedShorter(conf, c.hist, n.log, n.commitIndex, m.leaderCommit, t, i, n.term);
    }
  }

  lemma CertifiedShorter(conf: Config, h: History, log: seq<LogEntry>, k: nat, k': nat, t: nat, i: nat, last: nat)
    requires Certified(conf, h, log, k, t, i, last) && k' <= k
    ensures Certified(conf, h, log, k', t, i, last)
  {
    var tl := h.reigns.termLog[t];
    assert log[..k' + 1] == log[..k + 1][..k' + 1] == tl[..k + 1][..k' + 1] == tl[..k' + 1];
  }

  lemma SendAppendCommits(conf: Config, c: State, a: Addr, to: Addr, beat: Beat)
    requires Inv(conf, c) && a in c.nodes && (a, beat) in c.beats
    requires c.nodes[a].role == Leader && beat.term == c.nodes[a].term
    requires Onward(c, DoSendAppend(c, a, to, beat), a) && AckInv(DoSendAppend(c, a, to, beat))
    ensures CommitInv(conf, DoSendAppend(c, a, to, beat))
  {
    var c' := DoSendAppend(c, a, to, beat);
    CalmOK(conf, c, c', a);
    SendAppendSent(conf, c, a, to, beat);
    CommitLater(conf, c, c', a);
  }

  // ----- handling requests -----

  /** The facts every lemma about an accepted request starts from. */
  ghost predicate Accepting(conf: Config, c: State, a: Addr, req: AppendRequest) {
    Inv(conf, c) && Receiving(c, a, req)
  }

  lemma CommitWithinRequest(conf: Config, c: State, a: Addr, req: AppendRequest)
    requires Accepting(conf, c, a, req) && req.entries != [] && c.nodes[a].commitIndex > 0
    ensures req.term in c.hist.reigns.termLog && c.nodes[a].commitIndex <= req.End()
    ensures LogMatching.Agree(c.nodes[a].log, c.hist.reigns.termLog[req.term], c.nodes[a].commitIndex)
  {
    var n, k := c.nodes[a], c.nodes[a].commitIndex;
    AcceptedLog(c, a, req);
    assert CommitOK(conf, c, a);
    var t: nat, i: nat :| Certified(conf, c.hist, n.log, k, t, i, n.term) && (t < n.term || Acked(c.hist, a, t, k));
    CertifiedInTermLog(conf, c, n.log, k, t, i, n.term, req.term);
    if t == req.term {
      var ack :| ack in c.hist.acks && ack.addr == a && ack.term == t && ack.end >= k;
    }
  }

  /** What the node had committed survives the truncation. */
  lemma CommitSurvives(conf: Config, c: State, a: Addr, req: AppendRequest)
    requires Accepting(conf, c, a, req)
    ensures var n := c.nodes[a]; var log' := AppendTo(n.log, req);
      n.commitIndex < |n.log| && n.commitIndex < |log'| && log'[..n.commitIndex + 1] == n.log[..n.commitIndex + 1]
  {
    var n, r, k := c.nodes[a], c.hist.reigns, c.nodes[a].commitIndex;
    AcceptedLog(c, a, req);
    assert CommitOK(conf, c, a) && LogMatching.NodeOK(n, r);
    if req.entries != [] {
      var tl := r.termLog[req.term];
      if k == 0 {
        LogMatching.EntriesIndexed(n.log, r);
        assert LogMatching.TermLogOK(req.term, r.termLog, r.leaders);
        assert n.log[..1] == [SENTINEL] && tl[..req.End() + 1][..1] == [SENTINEL];
      } else {
        CommitWithinRequest(conf, c, a, req);
        assert tl[..req.End() + 1][..k + 1] == tl[..k + 1];
      }
    }
  }

  lemma AcceptCommits(conf: Config, c: State, a: Addr, req: AppendRequest, pick: NodeID)
    requires Accepting(conf, c, a, req)
    ensures var c' := DoRecvAppend(c, a, req, pick);
      && CommitOK(conf, c', a) && AppliedOK(c'.nodes[a]) && c'.nodes[a].commitIndex >= c.nodes[a].commitIndex
  {
    var c', n := DoRecvAppend(c, a, req, pick), c.nodes[a];
    var n2 := FollowLeader(n, req, pick).(log := AppendTo(n.log, req));
    var n' := c'.nodes[a];
    AcceptedLog(c, a, req);
    CommitSurvives(conf, c, a, req);
    LogMatching.HandleAppendEntriesFrame(n, req, pick);
    assert CommitOK(conf, c, a) && AppliedOK(n) && SentOK(conf, c.hist, req);
    assert n' == AdoptCommit(n2, req.leaderCommit);
    var mid := c.(nodes := c.nodes[a := n2]);
    LongerLogCommitted(conf, c, mid, a);
    AdoptCommitApplies(n2, req.leaderCommit);
    if req.leaderCommit > n.commitIndex {
      AdoptedCertified(conf, c, a, req, n'.log);
      var t: nat, i: nat :| Certified(conf, c.hist, n'.log, req.leaderCommit, t, i, req.term);
      CertifiedGrows(conf, c.hist, c'.hist, n'.log, req.leaderCommit, t, i, req.term, req.term);
      assert Ack(a, req.term, req.End()) in c'.hist.acks;
      assert t < n'.term || Acked(c'.hist, a, t, n'.commitIndex);
    } else {
      CommitOKLater(conf, mid, c', a);
    }
  }

  lemma AdoptedCertified(conf: Config, c: State, a: Addr, req: AppendRequest, log: Entries)
    requires SentOK(conf, c.hist, req) && req.leaderCommit > 0
    requires LogMatching.Agree(log, c.hist.reigns.termLog[req.term], req.End())
    ensures exists t: nat, i: nat :: Certified(conf, c.hist, log, req.leaderCommit, t, i, req.term)
  {
    var tl, k := c.hist.reigns.termLog[req.term], req.leaderCommit;
    var t: nat, i: nat :| Certified(conf, c.hist, tl, k, t, i, req.term);
    assert log[..k + 1] == log[..req.End() + 1][..k + 1] == tl[..req.End() + 1][..k + 1] == tl[..k + 1];
    assert Certified(conf, c.hist, log, k, t, i, req.term);
  }

  lemma RecvAppendCommits(conf: Config, c: State, a: Addr, req: AppendRequest, pick: NodeID)
    requires Inv(conf, c) && a in c.nodes && req in c.appendReqs && InTurn(c, a, req)
    requires Onward(c, DoRecvAppend(c, a, req, pick), a) && AckInv(DoRecvAppend(c, a, req, pick))
    ensures CommitInv(conf, DoRecvAppend(c, a, req, pick))
  {
    var c', n := DoRecvAppend(c, a, req, pick), c.nodes[a];
    if req.term >= n.term && PrevMatches(n.log, req) {
      LogMatching.HandleAppendEntriesFrame(n, req, pick);
      AcceptCommits(conf, c, a, req, pick);
      CommitLater(conf, c, c', a);
    } else {
      CalmCommits(conf, c, c', a);
    }
  }

  // ----- handling replies -----

  function SupporterAddrs(n: NodeState, index: nat): set<Addr> {
    set id | id in Supporters(n, index) :: n.members[id].addr
  }

  /** The addresses behind a commit: the leader and the voters whose matchIndex reaches the index. */
  function Backers(n: NodeState, index: nat): set<Addr> { {n.addr} + SupporterAddrs(n, index) }

  lemma SupporterAddrsCount(ms: Members, n: NodeState, index: nat)
    requires ms == n.members && Membership.UniqueAddrs(ms)
    ensures |SupporterAddrs(n, index)| == |Supporters(n, index)|
  {
    var ids := Supporters(n, index);
    var addrOf := id => if id in ms then ms[id].addr else "";
    var addrs := set id | id in ids :: addrOf(id);
    assert addrs == SupporterAddrs(n, index);
    Membership.InjectiveImageSize(ids, addrOf, addrs);
  }

  lemma SupportersElsewhere(conf: Config, a: Addr, n: NodeState, index: nat)
    requires Election.StaticNode(conf, a, n)
    ensures a !in SupporterAddrs(n, index) && SupporterAddrs(n, index) <= conf.Keys
  {
    Election.MembersUnique(conf, n.members, a);
    forall id | id in Supporters(n, index) ensures n.members[id].addr != a && n.members[id].addr in conf {
      assert Election.RecordOK(conf, n.members, id);
    }
  }

  lemma BackersCount(conf: Config, a: Addr, n: NodeState, index: nat)
    requires Election.StaticNode(conf, a, n)
    ensures |Backers(n, index)| == 1 + |Supporters(n, index)| && Backers(n, index) <= conf.Keys
    ensures forall f :: f in Backers(n, index) && f != a ==> Lookup(n.matchIndex, f) >= index
  {
    Election.MembersUnique(conf, n.members, a);
    SupporterAddrsCount(n.members, n, index);
    SupportersElsewhere(conf, a, n, index);
  }

  /** An index the leader finds committable really is held by a majority. */
  lemma CommittableIsCommitted(conf: Config, c: State, a: Addr, n: NodeState, index: nat)
    requires Inv(conf, c) && a in c.nodes && c.nodes[a].role == Leader
    requires n.log == c.nodes[a].log && n.term == c.nodes[a].term && Election.StaticNode(conf, a, n)
    requires forall f :: f in conf && f != a && Lookup(n.matchIndex, f) > 0 ==>
      Acked(c.hist, f, n.term, n.matchIndex[f])
    requires index > 0 && Committable(n, index)
    ensures Committed(conf, c.hist, n.term, index) && Acked(c.hist, a, n.term, index)
  {
    assert LogMatching.NodeOK(c.nodes[a], c.hist.reigns) && MatchOK(conf, c, a);
    BackersCount(conf, a, n, index);
    Election.MembersCount(conf, n.members, a);
    var q := Backers(n, index);
    forall f | f in q ensures Acked(c.hist, f, n.term, index) {
      if f != a {
        assert Acked(c.hist, f, n.term, n.matchIndex[f]);
      }
    }
    assert Majority(conf, q) && AllAcked(c.hist, q, n.term, index);
  }

  /** A leader's matches are backed by acknowledgements. */
  ghost predicate MatchesBacked(conf: Config, h: History, a: Addr, n: NodeState) {
    forall f :: f in conf && f != a && Lookup(n.matchIndex, f) > 0 ==> Acked(h, f, n.term, n.matchIndex[f])
  }

  lemma AdvanceCommits(conf: Config, c: State, a: Addr, n: NodeState, c': State)
    requires Inv(conf, c) && a in c.nodes && c.nodes[a].role == Leader
    requires n == c.nodes[a].(matchIndex := n.matchIndex, nextIndex := n.nextIndex) && MatchesBacked(conf, c.hist, a, n)
    requires c' == Put(c, MaybeAdvanceCommitIndex(n), a)
    ensures CommitOK(conf, c', a) && AppliedOK(c'.nodes[a]) && c'.nodes[a].commitIndex >= c.nodes[a].commitIndex
  {
    assert CommitOK(conf, c, a) && AppliedOK(c.nodes[a]);
    var best := BestCommit(n, LastIndex(n.log));
    if best > n.commitIndex {
      AdvanceTo(conf, c, a, n, best, c');
    } else {
      CommitOKLater(conf, c, c', a);
    }
  }

  lemma AdvanceTo(conf: Config, c: State, a: Addr, n: NodeState, best: nat, c': State)
    requires Inv(conf, c) && a in c.nodes && c.nodes[a].role == Leader
    requires n == c.nodes[a].(matchIndex := n.matchIndex, nextIndex := n.nextIndex) && MatchesBacked(conf, c.hist, a, n)
    requires best > n.commitIndex && Committable(n, best) && c' == Put(c, ApplyCommitted(n.(commitIndex := best)), a)
    ensures CommitOK(conf, c', a) && AppliedOK(c'.nodes[a]) && c'.nodes[a].commitIndex == best
  {
    assert Election.StaticNode(conf, a, c.nodes[a]) && AppliedOK(c.nodes[a]);
    assert LogMatching.NodeOK(c.nodes[a], c.hist.reigns);
    var n1 := n.(commitIndex := best);
    ApplyCommittedFrame(n1);
    ApplyCommittedApplies(n1);
    CommittableIsCommitted(conf, c, a, n, best);
    assert Certified(conf, c'.hist, c'.nodes[a].log, best, n.term, best, c'.nodes[a].term);
  }

  lemma AdvanceMatch(conf: Config, c: State, a: Addr, n: NodeState, c': State)
    requires Inv(conf, c) && a in c.nodes && c.nodes[a].role == Leader
    requires n == c.nodes[a].(matchIndex := n.matchIndex, nextIndex := n.nextIndex) && MatchesBacked(conf, c.hist, a, n)
    requires c' == Put(c, MaybeAdvanceCommitIndex(n), a)
    ensures MatchOK(conf, c', a) && c'.nodes[a].log == c.nodes[a].log && c'.nodes[a].term == c.nodes[a].term
  {
    var n' := c'.nodes[a];
    assert MatchOK(conf, c, a);
    ApplyCommittedFrame(n.(commitIndex := BestCommit(n, LastIndex(n.log))));
    assert n'.log == n.log && n'.term == n.term && n'.matchIndex == n.matchIndex;
    forall i | 0 <= i < |n'.log| && n'.log[i].term == n'.term ensures Acked(c'.hist, a, n'.term, i) {
      assert Acked(c.hist, a, n.term, i);
    }
  }

  lemma SuccessMatches(conf: Config, c: State, a: Addr, reply: AppendReply)
    requires Inv(conf, c) && a in c.nodes && c.nodes[a].role == Leader && reply in c.appendReplies
    requires reply.resp.success && c.nodes[a].term == reply.req.term
    ensures MatchesBacked(conf, c.hist, a, Matched(c.nodes[a], reply.from, reply.req.End()))
  {
    var n, n1 := c.nodes[a], Matched(c.nodes[a], reply.from, reply.req.End());
    assert MatchOK(conf, c, a) && AckedReply(c.hist, reply);
    forall f | f in conf && f != a && Lookup(n1.matchIndex, f) > 0 ensures Acked(c.hist, f, n1.term, n1.matchIndex[f]) {
      if f == reply.from {
        assert Ack(f, n.term, reply.req.End()) in c.hist.acks;
      }
    }
  }

  lemma SuccessCommits(conf: Config, c: State, a: Addr, reply: AppendReply)
    requires Inv(conf, c) && a in c.nodes && c.nodes[a].role == Leader && reply in c.appendReplies
    requires reply.resp.success && reply.resp.term <= c.nodes[a].term == reply.req.term
    requires var c' := Put(c, HandleAppendReply(c.nodes[a], reply.from, reply.req, reply.resp), a);
      Onward(c, c', a) && AckInv(c')
    ensures CommitInv(conf, Put(c, HandleAppendReply(c.nodes[a], reply.from, reply.req, reply.resp), a))
  {
    var n, n1 := c.nodes[a], Matched(c.nodes[a], reply.from, reply.req.End());
    var c' := Put(c, MaybeAdvanceCommitIndex(n1), a);
    SuccessMatches(conf, c, a, reply);
    SuccessAdvances(n, reply.from, reply.req, reply.resp);
    AdvanceCommits(conf, c, a, n1, c');
    AdvanceMatch(conf, c, a, n1, c');
    CommitLater(conf, c, c', a);
  }

  lemma ReplyCommits(conf: Config, c: State, a: Addr, reply: AppendReply)
    requires Inv(conf, c) && Orderly(c, RecvAppendReply(a, reply))
    requires var c' := Put(c, HandleAppendReply(c.nodes[a], reply.from, reply.req, reply.resp), a);
      Onward(c, c', a) && AckInv(c')
    ensures CommitInv(conf, Put(c, HandleAppendReply(c.nodes[a], reply.from, reply.req, reply.resp), a))
  {
    if reply.resp.success && reply.resp.term <= c.nodes[a].term {
      SuccessCommits(conf, c, a, reply);
    } else {
      CalmCommits(conf, c, Put(c, HandleAppendReply(c.nodes[a], reply.from, reply.req, reply.resp), a), a);
    }
  }

  // ----- all steps -----

  lemma SmallCommits(conf: Config, c: State, s: Step)
    requires Inv(conf, c) && Enabled(c, s) && Small(s) && !s.Join? && Onward(c, Apply(c, s), s.a) && AckInv(Apply(c, s))
    ensures CommitInv(conf, Apply(c, s))
  {
    SmallStepFrame(c, s);
    CalmCommits(conf, c, Apply(c, s), s.a);
  }

  lemma StepCommits(conf: Config, c: State, s: Step)
    requires Inv(conf, c) && Orderly(c, s) && LogMatching.SoleLeader(c, s)
    requires Onward(c, Apply(c, s), s.a) && AckInv(Apply(c, s))
    ensures CommitInv(conf, Apply(c, s))
  {
    assert Election.StaticNode(conf, s.a, c.nodes[s.a]);
    match s
    case TakeLead(a) => TakeLeadCommits(conf, c, a);
    case Propose(a, command) => ProposeCommits(conf, c, a, command);
    case SendAppend(a, to, beat) => SendAppendCommits(conf, c, a, to, beat);
    case RecvAppend(a, req, pick) => RecvAppendCommits(conf, c, a, req, pick);
    case RecvAppendReply(a, reply) => ReplyCommits(conf, c, a, reply);
    case Join(_, _, _) => assert false;
    case _ => SmallCommits(conf, c, s);
  }

  /** An orderly step of a static cluster is what Keeping asks for. */
  lemma OrderlyIsHonest(conf: Config, c: State, s: Step)
    requires Inv(conf, c) && Orderly(c, s)
    ensures Honest(conf, c, s)
  {
    assert Election.StaticNode(conf, s.a, c.nodes[s.a]);
    if s.a in c.campaigns {
      assert Election.CampaignOK(conf, c, s.a);
    }
    if s.TakeLead? {
      Election.QuorumMeansFree(conf, c, s.a);
    }
  }

  lemma StepInv(conf: Config, c: State, s: Step)
    requires Inv(conf, c) && Orderly(c, s)
    ensures Inv(conf, Apply(c, s))
  {
    OrderlyIsHonest(conf, c, s);
    StepKeeping(conf, c, s);
    Election.StaticStep(conf, c, s);
    Election.StepVotes(conf, c, s);
    StepCommits(conf, c, s);
  }

  lemma InitInv(conf: Config)
    requires ValidConfig(conf)
    ensures Inv(conf, Init(conf, Static))
  {
    InitKeeping(conf, Static, AllPeers(conf));
    Election.InitElection(conf);
    NothingYet(conf, Init(conf, Static));
  }

  /** Before anything has happened nothing is committed. */
  lemma NothingYet(conf: Config, c: State)
    requires c.beats == {} && c.appendReqs == {} && c.appendReplies == {}
    requires forall a {:trigger c.nodes[a]} :: a in c.nodes ==>
      var n := c.nodes[a];
      n.role == Follower && n.log == [SENTINEL] && n.commitIndex == n.lastApplied == 0 && n.applied == []
    ensures CommitInv(conf, c)
  {
    assert [SENTINEL][1..1] == [];
  }

  lemma {:induction false} RunInv(conf: Config, c: State, steps: seq<Step>)
    requires Inv(conf, c) && Run(c, steps, Orderly)
    ensures Inv(conf, After(c, steps, Orderly))
    decreases |steps|
  {
    if steps != [] {
      StepInv(conf, c, steps[0]);
      RunInv(conf, Apply(c, steps[0]), steps[1..]);
    }
  }

  /** `c` is a state that some orderly run of the static cluster `conf` passes through. */
  ghost predicate Reachable(conf: Config, c: State) {
    ValidConfig(conf) && exists steps ::
      Run(Init(conf, Static), steps, Orderly) && After(Init(conf, Static), steps, Orderly) == c
  }

  lemma ReachableInv(conf: Config, c: State)
    requires Reachable(conf, c)
    ensures Inv(conf, c)
  {
    var steps :| Run(Init(conf, Static), steps, Orderly) && After(Init(conf, Static), steps, Orderly) == c;
    InitInv(conf);
    RunInv(conf, Init(conf, Static), steps);
  }

  // ----- the theorem -----

  /** State Machine Safety: in every reachable state, any two nodes have applied the same entries in the
      same order as far as both have got, each exactly the committed part of its log, and nothing beyond
      the end of a log is committed. */
  lemma StateMachineSafety(conf: Config, c: State)
    requires Reachable(conf, c)
    ensures forall a, b :: a in c.nodes && b in c.nodes ==>
      c.nodes[a].applied <= c.nodes[b].applied || c.nodes[b].applied <= c.nodes[a].applied
    ensures forall a :: a in c.nodes ==>
      c.nodes[a].commitIndex < |c.nodes[a].log| && c.nodes[a].applied == c.nodes[a].log[1..c.nodes[a].commitIndex + 1]
  {
    ReachableInv(conf, c);
    forall a, b | a in c.nodes && b in c.nodes
      ensures c.nodes[a].applied <= c.nodes[b].applied || c.nodes[b].applied <= c.nodes[a].applied
    {
      AppliedAgree(conf, c, a, b);
    }
    assert forall a :: a in c.nodes ==> AppliedOK(c.nodes[a]);
  }
}
