/** Where a node sends those who ask for the leader: to whom it last followed, or to itself. */
module Redirects {
  import opened RaftTypes
  import opened RaftNode
  import opened Cluster
  import LogMatching
  import Replication

  /** The node takes the sender of a request for its leader, now or from then on. */
  predicate Follows(c: State, s: Step) {
    s.RecvAppend? && s.a in c.nodes && s.appendReq.term >= c.nodes[s.a].term
  }

  /** What a node answers with when it is asked for the leader. */
  datatype Hint = Hint(id: NodeID, addr: Addr)

  function HintOf(n: NodeState): Hint { Hint(n.leaderID, n.leaderAddr) }

  lemma ReplyHint(n: NodeState, from: Addr, req: AppendRequest, resp: AppendResponse)
    ensures HintOf(HandleAppendReply(n, from, req, resp)) == HintOf(n)
  {
    if resp.term <= n.term && resp.success {
      var n1 := Replication.Matched(n, from, req.End());
      ApplyCommittedFrame(n1.(commitIndex := BestCommit(n1, LastIndex(n1.log))));
    }
  }

  lemma RequestHint(n: NodeState, req: AppendRequest, pick: NodeID)
    ensures HintOf(HandleAppendEntries(n, req, pick).0)
      == if req.term >= n.term then Hint(req.leaderID, req.leaderAddr) else HintOf(n)
  {
    var n1 := FollowLeader(n, req, pick);
    if req.term >= n.term && PrevMatches(n.log, req) {
      LogMatching.AdoptCommitFrame(n1.(log := AppendTo(n.log, req)), req.leaderCommit);
    }
  }

  lemma SmallHint(c: State, s: Step)
    requires Enabled(c, s) && Small(s)
    ensures s.a in Apply(c, s).nodes && HintOf(Apply(c, s).nodes[s.a]) == HintOf(c.nodes[s.a])
  {
    match s
    case RecvVote(a, req) =>
    case _ =>
  }

  /** In any step of the code: taking the lead a node names itself, handling a request that is not stale it names the
      sender, and nothing else changes whom it names, nor whom the others do. */
  lemma WhoIsNamed(c: State, s: Step)
    requires Enabled(c, s)
    ensures Apply(c, s).nodes.Keys == c.nodes.Keys
    ensures forall b :: b in c.nodes && b != s.a ==> HintOf(Apply(c, s).nodes[b]) == HintOf(c.nodes[b])
    ensures HintOf(Apply(c, s).nodes[s.a]) ==
      if s.TakeLead? then Hint(c.nodes[s.a].id, c.nodes[s.a].addr)
      else if Follows(c, s) then Hint(s.appendReq.leaderID, s.appendReq.leaderAddr)
      else HintOf(c.nodes[s.a])
  {
    StepTouchesOne(c, s);
    if s.RecvAppend? {
      RequestHint(c.nodes[s.a], s.appendReq, s.pick);
    } else if s.RecvAppendReply? {
      ReplyHint(c.nodes[s.a], s.appendReply.from, s.appendReply.req, s.appendReply.resp);
    } else if Small(s) {
      SmallHint(c, s);
    }
  }

  // ----- whoever is named has been elected -----

  /** The node at `h.addr` goes by `h.id` and was the leader of `t`. */
  predicate LedIn(c: State, h: Hint, t: nat) {
    && t in c.hist.reigns.leaders && c.hist.reigns.leaders[t].addr == h.addr
    && h.addr in c.nodes && c.nodes[h.addr].id == h.id
  }

  ghost predicate HintOK(c: State, n: NodeState) {
    && (HintOf(n) == Hint("", "") || exists t: nat :: t <= n.term && LedIn(c, HintOf(n), t))
    && (n.role == Leader ==> HintOf(n) == Hint(n.id, n.addr))
  }

  ghost predicate HintInv(c: State) {
    && LogMatching.Inv(c)
    && (forall m {:trigger LedIn(c, Hint(m.leaderID, m.leaderAddr), m.term)} ::
          m in c.appendReqs ==> LedIn(c, Hint(m.leaderID, m.leaderAddr), m.term))
    && (forall a {:trigger HintOK(c, c.nodes[a])} :: a in c.nodes ==> HintOK(c, c.nodes[a]))
  }

  /** Who has led stays so, and nobody changes its name. */
  ghost predicate Onwards(c: State, c': State) {
    && c'.nodes.Keys == c.nodes.Keys && (forall a :: a in c.nodes ==> c'.nodes[a].id == c.nodes[a].id)
    && LogMatching.Grows(c.hist.reigns, c'.hist.reigns)
  }

  lemma LedStays(c: State, c': State, h: Hint, t: nat)
    requires Onwards(c, c') && LedIn(c, h, t)
    ensures LedIn(c', h, t)
  {
  }

  lemma HintStays(c: State, c': State, n: NodeState, n': NodeState)
    requires Onwards(c, c') && HintOK(c, n) && HintOf(n') == HintOf(n) && n'.term >= n.term
    requires n'.role == Leader ==> n.role == Leader && n'.id == n.id && n'.addr == n.addr
    ensures HintOK(c', n')
  {
    if HintOf(n) != Hint("", "") {
      var t: nat :| t <= n.term && LedIn(c, HintOf(n), t);
      LedStays(c, c', HintOf(n), t);
    }
  }

  lemma StepNames(c: State, s: Step)
    requires Enabled(c, s)
    ensures s.a in Apply(c, s).nodes && Apply(c, s).nodes[s.a].id == c.nodes[s.a].id
    ensures Apply(c, s).nodes[s.a].addr == c.nodes[s.a].addr && Apply(c, s).nodes[s.a].term >= c.nodes[s.a].term
    ensures Follows(c, s) ==> Apply(c, s).nodes[s.a].term == s.appendReq.term && Apply(c, s).nodes[s.a].role == Follower
    ensures Apply(c, s).nodes[s.a].role == Leader ==> s.TakeLead? || c.nodes[s.a].role == Leader
  {
    if s.RecvAppend? {
      LogMatching.HandleAppendEntriesFrame(c.nodes[s.a], s.appendReq, s.pick);
    } else if s.RecvAppendReply? {
      LogMatching.HandleAppendReplyFrame(c.nodes[s.a], s.appendReply.from, s.appendReply.req, s.appendReply.resp);
    } else if Small(s) {
      SmallStepFrame(c, s);
    }
  }

  lemma StepOnwards(c: State, s: Step)
    requires LogMatching.Inv(c) && LogMatching.SoleLeader(c, s)
    ensures Onwards(c, Apply(c, s))
  {
    StepTouchesOne(c, s);
    StepNames(c, s);
    Replication.StepOnward(c, s);
  }

  lemma LeadNode(c: State, a: Addr)
    requires HintInv(c) && LogMatching.SoleLeader(c, TakeLead(a))
    ensures HintOK(DoTakeLead(c, a), BecomeLeader(c.nodes[a]))
  {
    assert LogMatching.NodeOK(c.nodes[a], c.hist.reigns) && c.nodes[a].addr == a;
    assert LedIn(DoTakeLead(c, a), HintOf(BecomeLeader(c.nodes[a])), c.nodes[a].term);
  }

  lemma FollowNode(c: State, s: Step)
    requires HintInv(c) && Enabled(c, s) && Follows(c, s) && Onwards(c, Apply(c, s))
    ensures HintOK(Apply(c, s), Apply(c, s).nodes[s.a])
  {
    var h := Hint(s.appendReq.leaderID, s.appendReq.leaderAddr);
    WhoIsNamed(c, s);
    StepNames(c, s);
    assert LedIn(c, h, s.appendReq.term);
    LedStays(c, Apply(c, s), h, s.appendReq.term);
  }

  lemma StepNode(c: State, s: Step)
    requires HintInv(c) && LogMatching.SoleLeader(c, s) && Onwards(c, Apply(c, s))
    ensures HintOK(Apply(c, s), Apply(c, s).nodes[s.a])
  {
    if s.TakeLead? {
      LeadNode(c, s.a);
    } else if Follows(c, s) {
      FollowNode(c, s);
    } else {
      WhoIsNamed(c, s);
      StepNames(c, s);
      assert HintOK(c, c.nodes[s.a]);
      HintStays(c, Apply(c, s), c.nodes[s.a], Apply(c, s).nodes[s.a]);
    }
  }

  lemma StepRequests(c: State, s: Step)
    requires HintInv(c) && LogMatching.SoleLeader(c, s) && Onwards(c, Apply(c, s))
    ensures var c' := Apply(c, s);
      forall m {:trigger LedIn(c', Hint(m.leaderID, m.leaderAddr), m.term)} ::
        m in c'.appendReqs ==> LedIn(c', Hint(m.leaderID, m.leaderAddr), m.term)
  {
    var c' := Apply(c, s);
    forall m | m in c'.appendReqs ensures LedIn(c', Hint(m.leaderID, m.leaderAddr), m.term) {
      if m in c.appendReqs {
        assert LedIn(c, Hint(m.leaderID, m.leaderAddr), m.term);
        LedStays(c, c', Hint(m.leaderID, m.leaderAddr), m.term);
      } else {
        NewRequest(c, s, m);
      }
    }
  }

  lemma NewRequest(c: State, s: Step, m: AppendRequest)
    requires LogMatching.Inv(c) && LogMatching.SoleLeader(c, s) && Onwards(c, Apply(c, s))
    requires m in Apply(c, s).appendReqs && m !in c.appendReqs
    ensures LedIn(Apply(c, s), Hint(m.leaderID, m.leaderAddr), m.term)
  {
    if Small(s) {
      SmallStepFrame(c, s);
    }
    assert LogMatching.NodeOK(c.nodes[s.a], c.hist.reigns) && c.nodes[s.a].addr == s.a;
  }

  lemma OthersHints(c: State, s: Step)
    requires HintInv(c) && Enabled(c, s) && Onwards(c, Apply(c, s)) && HintOK(Apply(c, s), Apply(c, s).nodes[s.a])
    ensures var c' := Apply(c, s); forall b {:trigger HintOK(c', c'.nodes[b])} :: b in c'.nodes ==>
      HintOK(c', c'.nodes[b])
  {
    var c' := Apply(c, s);
    StepTouchesOne(c, s);
    forall b | b in c'.nodes ensures HintOK(c', c'.nodes[b]) {
      if b != s.a {
        assert HintOK(c, c.nodes[b]) && c'.nodes[b] == c.nodes[b];
        HintStays(c, c', c.nodes[b], c'.nodes[b]);
      }
    }
  }

  lemma StepHints(c: State, s: Step)
    requires HintInv(c) && LogMatching.SoleLeader(c, s)
    ensures HintInv(Apply(c, s))
  {
    LogMatching.StepKeeps(c, s);
    StepOnwards(c, s);
    StepNode(c, s);
    StepRequests(c, s);
    OthersHints(c, s);
  }

  lemma {:induction false} RunHints(c: State, steps: seq<Step>)
    requires HintInv(c) && Run(c, steps, LogMatching.SoleLeader)
    ensures HintInv(After(c, steps, LogMatching.SoleLeader))
    decreases |steps|
  {
    if steps != [] {
      StepHints(c, steps[0]);
      RunHints(Apply(c, steps[0]), steps[1..]);
    }
  }

  lemma ReachedHints(conf: Config, mode: Mode, peers: map<Addr, set<Addr>>, c: State)
    requires Reaches(InitWith(conf, mode, peers), c, LogMatching.SoleLeader)
    ensures HintInv(c)
  {
    var c0 := InitWith(conf, mode, peers);
    var steps :| Run(c0, steps, LogMatching.SoleLeader) && After(c0, steps, LogMatching.SoleLeader) == c;
    LogMatching.InitInv(conf, mode, peers);
    RunHints(c0, steps);
  }

  /** Static or dynamic, from any peer lists: whomever a node names as the leader has been elected, in a term no later
      than the node's own, and goes by the ID and address named; a node that leads names itself. */
  lemma RedirectsNameALeader(conf: Config, mode: Mode, peers: map<Addr, set<Addr>>, c: State, a: Addr)
    requires Reaches(InitWith(conf, mode, peers), c, LogMatching.SoleLeader) && a in c.nodes
    ensures HintOf(c.nodes[a]) != Hint("", "") ==> exists t: nat ::
      t <= c.nodes[a].term && LedIn(c, HintOf(c.nodes[a]), t)
    ensures c.nodes[a].role == Leader ==> HintOf(c.nodes[a]) == Hint(c.nodes[a].id, a)
  {
    ReachedHints(conf, mode, peers, c);
    assert HintOK(c, c.nodes[a]) && LogMatching.NodeOK(c.nodes[a], c.hist.reigns);
  }
}
