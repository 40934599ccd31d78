/** Acknowledgements and the leader's view of them, for static and dynamic clusters alike: what matchIndex and
    nextIndex are worth, and what a request announces. */
module Replication {
  import opened RaftTypes
  import opened RaftNode
  import opened Cluster
  import opened Safety
  import Membership
  import LogMatching

  // ----- hypotheses -----

  /** What the code leaves to chance: one leader a term, who alone appends and sends; success replies handled by
      the leader they were meant for, in its term ... */
  ghost predicate RepliesInReign(c: State, s: Step) {
    LogMatching.SoleLeader(c, s) &&
    var n := c.nodes[s.a];
    s.RecvAppendReply? && s.appendReply.resp.success && s.appendReply.resp.term <= n.term
    ==> n.role == Leader && n.term == s.appendReply.req.term
  }

  /** ... and requests of a term accepted in the order they were built. */
  ghost predicate InReign(c: State, s: Step) {
    RepliesInReign(c, s) && (s.RecvAppend? ==> InTurn(c, s.a, s.appendReq))
  }

  /** becomeLeader resets matchIndex and nextIndex of the other voters only. Nothing is left over of an earlier
      reign's acknowledgements by anybody else ... */
  ghost predicate NoStaleMatch(n: NodeState) {
    forall f :: f !in Membership.PeerVoters(n.members, n.id) ==> Lookup(n.matchIndex, f) == 0
  }

  /** ... and nothing that points beyond the log. */
  ghost predicate NoStaleNext(n: NodeState) {
    forall f :: f !in Membership.PeerVoters(n.members, n.id) ==> Lookup(n.nextIndex, f) <= |n.log|
  }

  // ----- what carries over when history grows -----

  /** Only node `a` changed, its term did not go back, and nothing recorded was lost. */
  ghost predicate Onward(c: State, c': State, a: Addr) {
    && a in c.nodes && a in c'.nodes && c'.nodes == c.nodes[a := c'.nodes[a]]
    && c'.nodes[a].term >= c.nodes[a].term
    && LogMatching.HistoryOK(c.hist.reigns) && LogMatching.HistoryOK(c'.hist.reigns)
    && LogMatching.Grows(c.hist.reigns, c'.hist.reigns)
    && c.hist.acks <= c'.hist.acks
    && (forall k :: k in c.hist.ballots ==> k in c'.hist.ballots && c'.hist.ballots[k] == c.hist.ballots[k])
  }

  lemma AgreeGrows(log: seq<LogEntry>, r: Reigns, r': Reigns, t: nat, i: nat)
    requires LogMatching.Grows(r, r') && t in r.termLog && LogMatching.Agree(log, r.termLog[t], i)
    ensures t in r'.termLog && LogMatching.Agree(log, r'.termLog[t], i)
  {
    assert r'.termLog[t][..|r.termLog[t]|] == r.termLog[t];
    assert r'.termLog[t][..i + 1] == r.termLog[t][..i + 1];
  }

  lemma AcksLater(c: State, c': State, a: Addr)
    requires AcksInv(c) && Onward(c, c', a)
    requires forall k {:trigger AckOK(c', k)} :: k in c'.hist.acks && (k.addr == a || k !in c.hist.acks) ==>
      AckOK(c', k)
    ensures AcksInv(c')
  {
    forall k | k in c'.hist.acks ensures AckOK(c', k) {
      if k in c.hist.acks && k.addr != a {
        assert AckOK(c, k);
        if k.term == c.nodes[k.addr].term {
          AgreeGrows(c.nodes[k.addr].log, c.hist.reigns, c'.hist.reigns, k.term, k.end);
        }
      }
    }
  }

  // ----- accepting a request -----

  /** The facts every lemma about an accepted request starts from. */
  ghost predicate Receiving(c: State, a: Addr, req: AppendRequest) {
    && LogMatching.Inv(c) && AcksInv(c) && a in c.nodes && req in c.appendReqs && NotOvertaken(c.hist, a, req)
    && req.term >= c.nodes[a].term && PrevMatches(c.nodes[a].log, req)
  }

  /** The log after an accepted request agrees with the leader's through the end of the request, and is
      exactly that much of it, covering the leader's log at election, if it changed at all. */
  lemma AcceptedLog(c: State, a: Addr, req: AppendRequest)
    requires Receiving(c, a, req)
    ensures req.term in c.hist.reigns.leaders && req.term in c.hist.reigns.termLog
    ensures var log', tl := AppendTo(c.nodes[a].log, req), c.hist.reigns.termLog[req.term];
      && LogMatching.Agree(log', tl, req.End())
      && (req.entries == [] ==> log' == c.nodes[a].log)
      && (req.entries != [] ==> log' == tl[..req.End() + 1])
      && |c.hist.reigns.leaders[req.term].log| <= req.End() + 1
      && c.hist.reigns.leaders[req.term].log <= tl
  {
    var n := c.nodes[a];
    assert LogMatching.NodeOK(n, c.hist.reigns) && LogMatching.RequestOK(req, c.hist.reigns);
    if LogMatching.IsProbe(req) {
      LogMatching.ProbeFails(n, c.hist.reigns, req);
    }
    LogMatching.AcceptedAgrees(n.log, c.hist.reigns, req);
    assert LogMatching.TermLogOK(req.term, c.hist.reigns.termLog, c.hist.reigns.leaders);
  }

  lemma AcceptKeepsAcks(c: State, a: Addr, req: AppendRequest, pick: NodeID)
    requires Receiving(c, a, req)
    ensures AcksInv(DoRecvAppend(c, a, req, pick))
  {
    var c', n, tl := DoRecvAppend(c, a, req, pick), c.nodes[a], c.hist.reigns.termLog;
    AcceptedLog(c, a, req);
    LogMatching.HandleAppendEntriesFrame(n, req, pick);
    forall k | k in c'.hist.acks && (k.addr == a || k !in c.hist.acks) ensures AckOK(c', k) {
      if k in c.hist.acks {
        assert AckOK(c, k);
        if k.term == req.term && req.entries != [] {
          assert tl[req.term][..req.End() + 1][..k.end + 1] == tl[req.term][..k.end + 1];
        }
      }
    }
    AcksLater(c, c', a);
  }

  // ----- every acknowledgement stays true within its term -----

  /** What every step in its reign keeps: acknowledgements are true, and success replies stand for one. */
  ghost predicate AckInv(c: State) {
    && LogMatching.Inv(c) && AcksInv(c)
    && (forall r {:trigger AckedReply(c.hist, r)} :: r in c.appendReplies ==> AckedReply(c.hist, r))
  }

  lemma RepliesLater(c: State, c': State)
    requires AckInv(c) && c.hist.acks <= c'.hist.acks
    requires forall r {:trigger AckedReply(c'.hist, r)} :: r in c'.appendReplies && r !in c.appendReplies ==>
      AckedReply(c'.hist, r)
    ensures forall r {:trigger AckedReply(c'.hist, r)} :: r in c'.appendReplies ==> AckedReply(c'.hist, r)
  {
    forall r | r in c'.appendReplies ensures AckedReply(c'.hist, r) {
      assert r in c.appendReplies ==> AckedReply(c.hist, r);
    }
  }

  /** A step of `a` that keeps its log. */
  lemma SameLogAcks(c: State, c': State, a: Addr)
    requires AcksInv(c) && Onward(c, c', a) && c'.nodes[a].log == c.nodes[a].log && c'.hist.acks == c.hist.acks
    ensures AcksInv(c')
  {
    forall k | k in c'.hist.acks && k.addr == a ensures AckOK(c', k) {
      assert AckOK(c, k);
      if k.term == c'.nodes[a].term {
        AgreeGrows(c.nodes[a].log, c.hist.reigns, c'.hist.reigns, k.term, k.end);
      }
    }
    AcksLater(c, c', a);
  }

  lemma ProposeAcks(c: State, a: Addr, command: Command)
    requires LogMatching.Inv(c) && AcksInv(c) && a in c.nodes && c.nodes[a].role == Leader
    requires Onward(c, DoPropose(c, a, command), a)
    ensures AcksInv(DoPropose(c, a, command))
  {
    var c', n := DoPropose(c, a, command), c.nodes[a];
    assert LogMatching.NodeOK(n, c.hist.reigns);
    forall k | k in c'.hist.acks && (k.addr == a || k !in c.hist.acks) ensures AckOK(c', k) {
      if k in c.hist.acks {
        assert AckOK(c, k);
        if k.term == n.term {
          assert c'.nodes[a].log[..k.end + 1] == n.log[..k.end + 1];
        }
      }
    }
    AcksLater(c, c', a);
  }

  lemma TakeLeadOnward(c: State, a: Addr)
    requires LogMatching.Inv(c) && LogMatching.SoleLeader(c, TakeLead(a))
    ensures Onward(c, DoTakeLead(c, a), a)
  {
    var n := c.nodes[a];
    assert LogMatching.NodeOK(n, c.hist.reigns);
    LogMatching.EnthroneOK(c.hist.reigns, n.term, Win(a, n.log, c.campaigns[a].granted + {a}));
  }

  lemma ProposeOnward(c: State, a: Addr, command: Command)
    requires LogMatching.Inv(c) && LogMatching.SoleLeader(c, Propose(a, command))
    ensures Onward(c, DoPropose(c, a, command), a)
  {
    var n := c.nodes[a];
    assert LogMatching.NodeOK(n, c.hist.reigns);
    LogMatching.ExtendOK(c.hist.reigns, n.term, LogEntry(|n.log|, n.term, command));
  }

  lemma SmallOnward(c: State, s: Step)
    requires LogMatching.HistoryOK(c.hist.reigns) && Enabled(c, s) && Small(s)
    ensures Onward(c, Apply(c, s), s.a)
  {
    SmallStepFrame(c, s);
  }

  /** A step leaves the history of reigns alone, or extends it. */
  lemma StepOnward(c: State, s: Step)
    requires LogMatching.Inv(c) && LogMatching.SoleLeader(c, s)
    ensures Onward(c, Apply(c, s), s.a)
  {
    match s
    case TakeLead(a) => TakeLeadOnward(c, a);
    case Propose(a, command) => ProposeOnward(c, a, command);
    case SendAppend(_, _, _) =>
    case RecvAppend(a, req, pick) => LogMatching.HandleAppendEntriesFrame(c.nodes[a], req, pick);
    case RecvAppendReply(a, reply) =>
      LogMatching.HandleAppendReplyFrame(c.nodes[a], reply.from, reply.req, reply.resp);
    case _ => SmallOnward(c, s);
  }

  lemma RecvAppendAcks(c: State, a: Addr, req: AppendRequest, pick: NodeID)
    requires AckInv(c) && InReign(c, RecvAppend(a, req, pick)) && Onward(c, DoRecvAppend(c, a, req, pick), a)
    ensures AcksInv(DoRecvAppend(c, a, req, pick))
  {
    LogMatching.HandleAppendEntriesFrame(c.nodes[a], req, pick);
    if req.term >= c.nodes[a].term && PrevMatches(c.nodes[a].log, req) {
      AcceptKeepsAcks(c, a, req, pick);
    } else {
      SameLogAcks(c, DoRecvAppend(c, a, req, pick), a);
    }
  }

  lemma StepAcks(c: State, s: Step)
    requires AckInv(c) && InReign(c, s)
    ensures AckInv(Apply(c, s))
  {
    var n, a := c.nodes[s.a], s.a;
    LogMatching.StepKeeps(c, s);
    StepOnward(c, s);
    if s.RecvAppend? {
      RecvAppendAcks(c, a, s.appendReq, s.pick);
    } else if s.Propose? {
      ProposeAcks(c, a, s.command);
    } else {
      QuietAcks(c, s);
    }
    NewReplies(c, s);
    RepliesLater(c, Apply(c, s));
  }

  lemma QuietAcks(c: State, s: Step)
    requires AckInv(c) && LogMatching.SoleLeader(c, s) && !s.RecvAppend? && !s.Propose? && Onward(c, Apply(c, s), s.a)
    ensures AcksInv(Apply(c, s))
  {
    if s.RecvAppendReply? {
      LogMatching.HandleAppendReplyFrame(c.nodes[s.a], s.appendReply.from, s.appendReply.req, s.appendReply.resp);
    } else if Small(s) {
      SmallStepFrame(c, s);
    }
    SameLogAcks(c, Apply(c, s), s.a);
  }

  lemma NewReplies(c: State, s: Step)
    requires Enabled(c, s)
    ensures var c' := Apply(c, s);
      forall r {:trigger AckedReply(c'.hist, r)} :: r in c'.appendReplies && r !in c.appendReplies ==>
        AckedReply(c'.hist, r)
  {
    if Small(s) {
      SmallStepFrame(c, s);
    }
  }

  // ----- matchIndex -----

  /** Every positive matchIndex of a leader stands for an acknowledgement of its own term. */
  ghost predicate MatchBacked(h: History, n: NodeState) {
    n.role == Leader ==> forall f {:trigger Lookup(n.matchIndex, f)} :: Lookup(n.matchIndex, f) > 0 ==>
      Acked(h, f, n.term, n.matchIndex[f])
  }

  ghost predicate AllBacked(c: State) {
    forall a {:trigger MatchBacked(c.hist, c.nodes[a])} :: a in c.nodes ==> MatchBacked(c.hist, c.nodes[a])
  }

  lemma BackedLater(h: History, h': History, n: NodeState, n': NodeState)
    requires MatchBacked(h, n) && h.acks <= h'.acks
    requires n'.role == Leader ==> n.role == Leader && n'.term == n.term && n'.matchIndex == n.matchIndex
    ensures MatchBacked(h', n')
  {
    if n'.role == Leader {
      forall f | Lookup(n'.matchIndex, f) > 0 ensures Acked(h', f, n'.term, n'.matchIndex[f]) {
        assert Acked(h, f, n.term, n.matchIndex[f]);
      }
    }
  }

  lemma OthersBacked(c: State, c': State, a: Addr)
    requires AllBacked(c) && a in c.nodes && a in c'.nodes && c'.nodes == c.nodes[a := c'.nodes[a]]
    requires c.hist.acks <= c'.hist.acks
    ensures AllBacked(c') <==> MatchBacked(c'.hist, c'.nodes[a])
  {
    forall b | b in c'.nodes && b != a ensures MatchBacked(c'.hist, c'.nodes[b]) {
      assert MatchBacked(c.hist, c.nodes[b]);
      BackedLater(c.hist, c'.hist, c.nodes[b], c'.nodes[b]);
    }
  }

  /** A leader that takes over has nothing acknowledged in its term yet: its matchIndex is backed exactly when
      nothing is left over for anyone but the voters it resets. */
  lemma TakeLeadBackedIff(c: State, a: Addr)
    requires AckInv(c) && LogMatching.SoleLeader(c, TakeLead(a))
    ensures MatchBacked(DoTakeLead(c, a).hist, BecomeLeader(c.nodes[a])) <==> NoStaleMatch(c.nodes[a])
  {
    var c', n, n' := DoTakeLead(c, a), c.nodes[a], BecomeLeader(c.nodes[a]);
    var peers := Membership.PeerVoters(n.members, n.id);
    forall f ensures Lookup(n'.matchIndex, f) == if f in peers then 0 else Lookup(n.matchIndex, f) {
    }
    NothingAcked(c, n.term);
    if !NoStaleMatch(n) {
      var f :| f !in peers && Lookup(n.matchIndex, f) != 0;
      assert Lookup(n'.matchIndex, f) > 0 && !Acked(c'.hist, f, n.term, n'.matchIndex[f]);
    }
  }

  lemma NothingAcked(c: State, t: nat)
    requires AcksInv(c) && t !in c.hist.reigns.leaders
    ensures forall k :: k in c.hist.acks ==> k.term != t
  {
    forall k | k in c.hist.acks ensures k.term != t {
      assert AckOK(c, k);
    }
  }

  lemma ReplyBacked(c: State, a: Addr, reply: AppendReply)
    requires AckInv(c) && InReign(c, RecvAppendReply(a, reply)) && MatchBacked(c.hist, c.nodes[a])
    ensures MatchBacked(c.hist, HandleAppendReply(c.nodes[a], reply.from, reply.req, reply.resp))
  {
    var n, from := c.nodes[a], reply.from;
    LogMatching.HandleAppendReplyFrame(n, from, reply.req, reply.resp);
    if reply.resp.term <= n.term && reply.resp.success {
      MatchedBacked(c, a, reply);
      var n1 := Matched(n, from, reply.req.End());
      ApplyCommittedFrame(n1.(commitIndex := BestCommit(n1, LastIndex(n1.log))));
      BackedLater(c.hist, c.hist, n1, HandleAppendReply(n, from, reply.req, reply.resp));
    } else {
      BackedLater(c.hist, c.hist, n, HandleAppendReply(n, from, reply.req, reply.resp));
    }
  }

  /** The node after a success reply, before it looks for something to commit. */
  function Matched(n: NodeState, from: Addr, end: nat): NodeState {
    n.(matchIndex := n.matchIndex[from := end], nextIndex := n.nextIndex[from := end + 1])
  }

  lemma MatchedBacked(c: State, a: Addr, reply: AppendReply)
    requires AckInv(c) && a in c.nodes && reply in c.appendReplies && reply.resp.success
    requires MatchBacked(c.hist, c.nodes[a])
    requires c.nodes[a].role == Leader && c.nodes[a].term == reply.req.term
    ensures MatchBacked(c.hist, Matched(c.nodes[a], reply.from, reply.req.End()))
  {
    var n, n1 := c.nodes[a], Matched(c.nodes[a], reply.from, reply.req.End());
    assert AckedReply(c.hist, reply);
    forall f | Lookup(n1.matchIndex, f) > 0 ensures Acked(c.hist, f, n1.term, n1.matchIndex[f]) {
      if f == reply.from {
        assert Ack(f, n.term, reply.req.End()) in c.hist.acks;
      } else {
        assert Lookup(n.matchIndex, f) > 0;
      }
    }
  }

  lemma JoinBacked(h: History, n: NodeState, id: NodeID, addr: Addr)
    requires MatchBacked(h, n)
    ensures MatchBacked(h, AdmitObserver(n, id, addr))
  {
    var n' := AdmitObserver(n, id, addr);
    if n.role == Leader {
      forall f | Lookup(n'.matchIndex, f) > 0 ensures Acked(h, f, n.term, n'.matchIndex[f]) {
        assert Lookup(n.matchIndex, f) > 0;
      }
    }
  }

  /** In its reign every step but becomeLeader keeps the leaders' matchIndex backed, and becomeLeader does
      exactly when nothing is stale. */
  lemma StepBackedIff(c: State, s: Step)
    requires AckInv(c) && AllBacked(c) && InReign(c, s)
    ensures AllBacked(Apply(c, s)) <==> (s.TakeLead? ==> NoStaleMatch(c.nodes[s.a]))
  {
    var n, a := c.nodes[s.a], s.a;
    assert MatchBacked(c.hist, n);
    StepOnward(c, s);
    OthersBacked(c, Apply(c, s), a);
    if s.TakeLead? {
      TakeLeadBackedIff(c, a);
    } else {
      NodeBacked(c, s);
    }
  }

  lemma NodeBacked(c: State, s: Step)
    requires AckInv(c) && InReign(c, s) && MatchBacked(c.hist, c.nodes[s.a]) && !s.TakeLead?
    requires Onward(c, Apply(c, s), s.a)
    ensures MatchBacked(Apply(c, s).hist, Apply(c, s).nodes[s.a])
  {
    var n := c.nodes[s.a];
    if s.RecvAppendReply? {
      ReplyBacked(c, s.a, s.appendReply);
    } else if s.Join? {
      JoinBacked(c.hist, n, s.newID, s.newAddr);
    } else {
      if s.RecvAppend? {
        LogMatching.HandleAppendEntriesFrame(n, s.appendReq, s.pick);
      } else if Small(s) {
        SmallStepFrame(c, s);
      }
      BackedLater(c.hist, Apply(c, s).hist, n, Apply(c, s).nodes[s.a]);
    }
  }

  // ----- over runs -----

  ghost predicate BackedThroughout(c: State, steps: seq<Step>)
    requires Run(c, steps, InReign)
    decreases |steps|
  {
    AllBacked(c) && (steps != [] ==> BackedThroughout(Apply(c, steps[0]), steps[1..]))
  }

  ghost predicate FreshThroughout(c: State, steps: seq<Step>)
    requires Run(c, steps, InReign)
    decreases |steps|
  {
    steps != [] ==>
      (steps[0].TakeLead? ==> NoStaleMatch(c.nodes[steps[0].a])) && FreshThroughout(Apply(c, steps[0]), steps[1..])
  }

  lemma {:induction false} RunBackedIff(c: State, steps: seq<Step>)
    requires AckInv(c) && AllBacked(c) && Run(c, steps, InReign)
    ensures BackedThroughout(c, steps) <==> FreshThroughout(c, steps)
    decreases |steps|
  {
    if steps != [] {
      StepAcks(c, steps[0]);
      StepBackedIff(c, steps[0]);
      if AllBacked(Apply(c, steps[0])) {
        RunBackedIff(Apply(c, steps[0]), steps[1..]);
      }
    }
  }

  lemma InitAcks(conf: Config, mode: Mode, peers: map<Addr, set<Addr>>)
    ensures AckInv(InitWith(conf, mode, peers)) && AllBacked(InitWith(conf, mode, peers))
  {
    LogMatching.InitInv(conf, mode, peers);
  }

  /** Static or dynamic, from any peer lists: in every state of a run in its reigns each leader's matchIndex
      stands for acknowledgements of its term, if and only if no becomeLeader of the run finds a stale one. */
  lemma MatchIsBackedIff(conf: Config, mode: Mode, peers: map<Addr, set<Addr>>, steps: seq<Step>)
    requires Run(InitWith(conf, mode, peers), steps, InReign)
    ensures BackedThroughout(InitWith(conf, mode, peers), steps)
      <==> FreshThroughout(InitWith(conf, mode, peers), steps)
  {
    InitAcks(conf, mode, peers);
    RunBackedIff(InitWith(conf, mode, peers), steps);
  }

  /** The rule that follows: becomeLeader finds nothing stale. */
  ghost predicate FreshReign(c: State, s: Step) {
    InReign(c, s) && (s.TakeLead? ==> NoStaleMatch(c.nodes[s.a]))
  }

  lemma {:induction false} RunBacked(c: State, steps: seq<Step>)
    requires AckInv(c) && AllBacked(c) && Run(c, steps, FreshReign)
    ensures AckInv(After(c, steps, FreshReign)) && AllBacked(After(c, steps, FreshReign))
    decreases |steps|
  {
    if steps != [] {
      StepAcks(c, steps[0]);
      StepBackedIff(c, steps[0]);
      RunBacked(Apply(c, steps[0]), steps[1..]);
    }
  }

  lemma ReachedBacked(conf: Config, mode: Mode, peers: map<Addr, set<Addr>>, c: State)
    requires Reaches(InitWith(conf, mode, peers), c, FreshReign)
    ensures AckInv(c) && AllBacked(c)
  {
    var c0 := InitWith(conf, mode, peers);
    var steps :| Run(c0, steps, FreshReign) && After(c0, steps, FreshReign) == c;
    InitAcks(conf, mode, peers);
    RunBacked(c0, steps);
  }

  /** Acknowledgements are truthful, voters and observers alike: whoever is in the leader's term agrees with the
      leader's log through the leader's matchIndex for it. */
  lemma AcknowledgementsTruthful(conf: Config, mode: Mode, peers: map<Addr, set<Addr>>, c: State, a: Addr, f: Addr)
    requires Reaches(InitWith(conf, mode, peers), c, FreshReign) && a in c.nodes && f in c.nodes
    requires c.nodes[a].role == Leader && c.nodes[f].term == c.nodes[a].term && Lookup(c.nodes[a].matchIndex, f) > 0
    ensures LogMatching.Agree(c.nodes[f].log, c.nodes[a].log, c.nodes[a].matchIndex[f])
  {
    ReachedBacked(conf, mode, peers, c);
    BackedAgrees(c, a, f);
  }

  lemma BackedAgrees(c: State, a: Addr, f: Addr)
    requires AckInv(c) && a in c.nodes && f in c.nodes && MatchBacked(c.hist, c.nodes[a])
    requires c.nodes[a].role == Leader && c.nodes[f].term == c.nodes[a].term && Lookup(c.nodes[a].matchIndex, f) > 0
    ensures LogMatching.Agree(c.nodes[f].log, c.nodes[a].log, c.nodes[a].matchIndex[f])
  {
    var n := c.nodes[a];
    assert LogMatching.NodeOK(n, c.hist.reigns) && Acked(c.hist, f, n.term, n.matchIndex[f]);
    var k :| k in c.hist.acks && k.addr == f && k.term == n.term && k.end >= n.matchIndex[f];
    assert AckOK(c, k);
    ShorterAgree(c.nodes[f].log, n.log, k.end, n.matchIndex[f]);
  }

  lemma ShorterAgree(x: seq<LogEntry>, y: seq<LogEntry>, j: nat, i: nat)
    requires LogMatching.Agree(x, y, j) && i <= j
    ensures LogMatching.Agree(x, y, i)
  {
    assert x[..i + 1] == x[..j + 1][..i + 1];
    assert y[..i + 1] == y[..j + 1][..i + 1];
  }
}
