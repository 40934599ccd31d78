/** Election Safety (section 5.2 of the Raft paper) for a fixed voter set: at most one node ever leads
    in a term, as long as runCandidate's caller takes the lead only in the term it campaigned for.
    Nothing else is assumed: requests may be sent by nodes that no longer lead, replies may be stale,
    and logs may shrink. */
module Election {
  import opened RaftTypes
  import opened RaftNode
  import opened Cluster
  import opened Membership
  import LogMatching

  /** The one hypothesis: becomeLeader runs only if the node is still in the term whose votes it counted. */
  ghost predicate CurrentCampaign(c: State, s: Step) {
    Enabled(c, s) && (s.TakeLead? ==> c.nodes[s.a].term == c.campaigns[s.a].term)
  }

  // ----- a fixed voter set, known by IDs or by placeholder addresses -----

  /** Member `id` is a voter at a configured address, under its real ID or under that address. */
  predicate RecordOK(conf: Config, ms: Members, id: NodeID) {
    && id in ms && ms[id].id == id && ms[id].kind == Voter
    && ms[id].addr in conf && (id == ms[id].addr || id == conf[ms[id].addr])
  }

  predicate KnownAs(ms: Members, id: NodeID, a: Addr) { id in ms && ms[id].addr == a }

  /** Address `a` has a member, and only one. */
  predicate SlotOK(conf: Config, ms: Members, a: Addr) {
    && a in conf
    && (KnownAs(ms, a, a) || KnownAs(ms, conf[a], a))
    && (KnownAs(ms, a, a) && KnownAs(ms, conf[a], a) ==> a == conf[a])
  }

  /** Every configured address has exactly one member, a voter; the one at `self` goes by its real ID. */
  ghost predicate MembersOK(conf: Config, ms: Members, self: Addr) {
    && (forall id {:trigger RecordOK(conf, ms, id)} :: id in ms ==> RecordOK(conf, ms, id))
    && (forall a {:trigger SlotOK(conf, ms, a)} :: a in conf ==> SlotOK(conf, ms, a))
    && self in conf && KnownAs(ms, conf[self], self)
  }

  predicate NoMembership(log: seq<LogEntry>) {
    forall i :: 0 <= i < |log| ==> !log[i].command.Membership?
  }

  ghost predicate StaticNode(conf: Config, a: Addr, n: NodeState) {
    a in conf && n.id == conf[a] && n.addr == a && n.mode == Static && MembersOK(conf, n.members, a)
      && NoMembership(n.log)
  }

  predicate StaticRequest(conf: Config, m: AppendRequest) {
    NoMembership(m.entries) && m.leaderAddr in conf && m.leaderID == conf[m.leaderAddr]
  }

  ghost predicate StaticInv(conf: Config, c: State) {
    && c.nodes.Keys == conf.Keys
    && (forall a {:trigger StaticNode(conf, a, c.nodes[a])} :: a in c.nodes ==> StaticNode(conf, a, c.nodes[a]))
    && (forall m {:trigger StaticRequest(conf, m)} :: m in c.appendReqs ==> StaticRequest(conf, m))
  }

  lemma MembersUnique(conf: Config, ms: Members, self: Addr)
    requires MembersOK(conf, ms, self)
    ensures UniqueAddrs(ms) && VoterIDs(ms) == ms.Keys
  {
    forall i, j | i in ms && j in ms && ms[i].addr == ms[j].addr ensures i == j {
      assert RecordOK(conf, ms, i) && RecordOK(conf, ms, j) && SlotOK(conf, ms, ms[i].addr);
    }
    forall i | i in ms ensures i in VoterIDs(ms) {
      assert RecordOK(conf, ms, i);
    }
  }

  /** The quorum size and the peers a node computes are those of the configuration. */
  lemma MembersCount(conf: Config, ms: Members, self: Addr)
    requires MembersOK(conf, ms, self)
    ensures QuorumSize(ms) == |conf.Keys| / 2 + 1
    ensures PeerVoters(ms, conf[self]) == conf.Keys - {self}
  {
    MembersUnique(conf, ms, self);
    var addrOf := id => if id in ms then ms[id].addr else "";
    var addrs := set id | id in ms.Keys :: addrOf(id);
    forall a | a in conf ensures a in addrs {
      assert SlotOK(conf, ms, a);
      assert addrOf(if KnownAs(ms, a, a) then a else conf[a]) == a;
    }
    forall id | id in ms ensures addrOf(id) in conf {
      assert RecordOK(conf, ms, id);
    }
    assert conf.Keys == addrs;
    InjectiveImageSize(ms.Keys, addrOf, conf.Keys);
    forall a | a in conf.Keys - {self} ensures a in PeerVoters(ms, conf[self]) {
      assert SlotOK(conf, ms, a);
      var id := if KnownAs(ms, a, a) then a else conf[a];
      assert id in VoterIDs(ms) && ms[id].addr == a;
    }
    assert self in conf && SlotOK(conf, ms, self);
  }

  /** Learning the real ID of a configured address renames its placeholder and nothing else. */
  lemma UpdateIDKeepsMembers(conf: Config, ms: Members, self: Addr, addr: Addr, pick: NodeID)
    requires ValidConfig(conf) && MembersOK(conf, ms, self) && addr in conf
    ensures MembersOK(conf, UpdateID(ms, addr, conf[addr], pick), self)
  {
    var ms' := UpdateID(ms, addr, conf[addr], pick);
    if Renamable(ms, addr, conf[addr], pick) {
      assert RecordOK(conf, ms, pick) && pick == addr && SlotOK(conf, ms, addr) && SlotOK(conf, ms, self);
      forall id | id in ms' ensures RecordOK(conf, ms', id) {
        assert id in ms ==> RecordOK(conf, ms, id);
      }
      forall a | a in conf ensures SlotOK(conf, ms', a) {
        assert SlotOK(conf, ms, a);
        assert conf[addr] in ms ==> RecordOK(conf, ms, conf[addr]);
      }
    }
  }

  /** Without membership entries, applying changes neither the members nor the role. */
  lemma {:induction false} ApplyCommittedStatic(n: NodeState)
    requires NoMembership(n.log)
    ensures ApplyCommitted(n).members == n.members && ApplyCommitted(n).role == n.role
    decreases n.commitIndex - n.lastApplied
  {
    if n.lastApplied < n.commitIndex {
      ApplyCommittedStatic(ApplyEntry(n.(lastApplied := n.lastApplied + 1)));
    }
  }

  lemma NewNodeStatic(conf: Config, a: Addr)
    requires ValidConfig(conf) && a in conf
    ensures StaticNode(conf, a, NewNode(conf[a], a, Static, conf.Keys - {a}))
  {
    var ms := NewNode(conf[a], a, Static, conf.Keys - {a}).members;
    forall id | id in ms ensures RecordOK(conf, ms, id) {
    }
    forall b | b in conf ensures SlotOK(conf, ms, b) {
    }
    assert KnownAs(ms, conf[a], a);
  }

  lemma RecvAppendStatic(conf: Config, a: Addr, n: NodeState, req: AppendRequest, pick: NodeID)
    requires ValidConfig(conf) && StaticNode(conf, a, n) && StaticRequest(conf, req)
    ensures StaticNode(conf, a, HandleAppendEntries(n, req, pick).0)
  {
    LogMatching.HandleAppendEntriesFrame(n, req, pick);
    if req.term >= n.term {
      UpdateIDKeepsMembers(conf, n.members, a, req.leaderAddr, pick);
      var n1 := FollowLeader(n, req, pick);
      assert MembersOK(conf, n1.members, a);
      if PrevMatches(n1.log, req) {
        var n2 := n1.(log := AppendTo(n1.log, req));
        assert NoMembership(n2.log);
        if req.leaderCommit > n2.commitIndex {
          ApplyCommittedStatic(n2.(commitIndex := if req.leaderCommit < LastIndex(n2.log) then req.leaderCommit
            else LastIndex(n2.log)));
        }
      }
    }
  }

  lemma HandleAppendReplyStatic(n: NodeState, from: Addr, req: AppendRequest, resp: AppendResponse)
    requires NoMembership(n.log)
    ensures var r := HandleAppendReply(n, from, req, resp);
      r.members == n.members && (resp.term <= n.term ==> r.role == n.role)
  {
    if resp.term <= n.term && resp.success {
      var n1 := n.(matchIndex := n.matchIndex[from := req.End()], nextIndex := n.nextIndex[from := req.End() + 1]);
      ApplyCommittedStatic(n1.(commitIndex := BestCommit(n1, LastIndex(n1.log))));
    }
  }

  lemma StaticFrame(conf: Config, c: State, c': State, a: Addr)
    requires StaticInv(conf, c) && a in c.nodes && a in c'.nodes
    requires c'.nodes == c.nodes[a := c'.nodes[a]] && StaticNode(conf, a, c'.nodes[a])
    requires forall m :: m in c'.appendReqs ==> m in c.appendReqs || StaticRequest(conf, m)
    ensures StaticInv(conf, c')
  {
  }

  lemma StaticReply(conf: Config, c: State, a: Addr, reply: AppendReply)
    requires StaticInv(conf, c) && a in c.nodes
    ensures StaticInv(conf, Put(c, HandleAppendReply(c.nodes[a], reply.from, reply.req, reply.resp), a))
  {
    var n := c.nodes[a];
    assert StaticNode(conf, a, n);
    HandleAppendReplyStatic(n, reply.from, reply.req, reply.resp);
    LogMatching.HandleAppendReplyFrame(n, reply.from, reply.req, reply.resp);
    StaticFrame(conf, c, Put(c, HandleAppendReply(n, reply.from, reply.req, reply.resp), a), a);
  }

  lemma StaticRecvAppend(conf: Config, c: State, a: Addr, req: AppendRequest, pick: NodeID)
    requires ValidConfig(conf) && StaticInv(conf, c) && a in c.nodes && req in c.appendReqs
    ensures StaticInv(conf, DoRecvAppend(c, a, req, pick))
  {
    assert StaticNode(conf, a, c.nodes[a]);
    RecvAppendStatic(conf, a, c.nodes[a], req, pick);
    StaticFrame(conf, c, DoRecvAppend(c, a, req, pick), a);
  }

  lemma StaticSend(conf: Config, c: State, a: Addr, to: Addr, beat: Beat)
    requires StaticInv(conf, c) && a in c.nodes
    ensures StaticInv(conf, DoSendAppend(c, a, to, beat))
  {
    assert StaticNode(conf, a, c.nodes[a]);
    assert StaticRequest(conf, MakeAppendRequest(c.nodes[a], to, beat.term, beat.commit));
    StaticFrame(conf, c, DoSendAppend(c, a, to, beat), a);
  }

  /** In static mode the voter set never changes, whatever the interleaving. */
  lemma StaticStep(conf: Config, c: State, s: Step)
    requires ValidConfig(conf) && StaticInv(conf, c) && Enabled(c, s)
    ensures StaticInv(conf, Apply(c, s))
  {
    var n, a := c.nodes[s.a], s.a;
    assert StaticNode(conf, a, n);
    match s
    case RecvAppend(_, req, pick) => StaticRecvAppend(conf, c, a, req, pick);
    case RecvAppendReply(_, reply) => StaticReply(conf, c, a, reply);
    case SendAppend(_, to, beat) => StaticSend(conf, c, a, to, beat);
    case TakeLead(_) => StaticFrame(conf, c, DoTakeLead(c, a), a);
    case Propose(_, command) => StaticFrame(conf, c, DoPropose(c, a, command), a);
    case Join(_, _, _) => assert false;
    case _ =>
      SmallStepFrame(c, s);
      StaticFrame(conf, c, Apply(c, s), a);
  }

  // ----- votes -----

  /** The address at which `id` is configured. */
  ghost function Owner(conf: Config, id: NodeID): (a: Addr)
    requires id in conf.Values
    ensures a in conf && conf[a] == id
  {
    var a :| a in conf && conf[a] == id; a
  }

  /** A candidacy that really happened: `t` is no later than its node's term and running campaign. */
  ghost predicate Claim(conf: Config, c: State, id: NodeID, t: nat) {
    && id in conf.Values
    && var a := Owner(conf, id);
       a in c.nodes && t <= c.nodes[a].term && (a in c.campaigns ==> t <= c.campaigns[a].term)
  }

  ghost predicate BallotOK(conf: Config, c: State, v: Addr, t: nat)
    requires (v, t) in c.hist.ballots
  {
    var b := c.hist.ballots[(v, t)];
    && v in c.nodes && t <= c.nodes[v].term
    && (t == c.nodes[v].term ==> c.nodes[v].votedFor == b.candidate)
    && Claim(conf, c, b.candidate, t)
  }

  /** `v` voted for `id` in `t`. */
  predicate VotedFor(h: History, v: Addr, t: nat, id: NodeID) {
    (v, t) in h.ballots && h.ballots[(v, t)].candidate == id
  }

  predicate ReplyOK(h: History, r: VoteReply) {
    r.resp.granted ==> VotedFor(h, r.from, r.req.term, r.req.candidateID)
  }

  predicate BackedBy(conf: Config, h: History, voters: set<Addr>, t: nat, id: NodeID) {
    voters <= conf.Keys && forall v :: v in voters ==> VotedFor(h, v, t, id)
  }

  ghost predicate CampaignOK(conf: Config, c: State, a: Addr)
    requires a in c.campaigns
  {
    var k := c.campaigns[a];
    && a in c.nodes && a in conf && 0 < k.term <= c.nodes[a].term
    && k.needed == |conf.Keys| / 2 + 1 && k.peers == conf.Keys - {a}
    && a !in k.granted && BackedBy(conf, c.hist, k.granted + {a}, k.term, conf[a])
  }

  /** Whoever campaigns has won no term as late as the one it campaigns in. */
  ghost predicate NotYetWon(c: State, a: Addr)
    requires a in c.campaigns
  {
    forall t :: t in c.hist.reigns.leaders && c.hist.reigns.leaders[t].addr == a ==> t < c.campaigns[a].term
  }

  ghost predicate ReignOK(conf: Config, c: State, t: nat)
    requires t in c.hist.reigns.leaders
  {
    var w := c.hist.reigns.leaders[t];
    && w.addr in conf && w.addr in c.nodes && t <= c.nodes[w.addr].term
    && |w.voters| >= |conf.Keys| / 2 + 1 && BackedBy(conf, c.hist, w.voters, t, conf[w.addr])
  }

  /** Ballots, requests for votes and replies are in order. */
  ghost predicate CastInv(conf: Config, c: State) {
    && (forall v, t {:trigger BallotOK(conf, c, v, t)} :: (v, t) in c.hist.ballots ==> BallotOK(conf, c, v, t))
    && (forall m {:trigger Claim(conf, c, m.candidateID, m.term)} ::
          m in c.voteReqs ==> Claim(conf, c, m.candidateID, m.term))
    && (forall r {:trigger ReplyOK(c.hist, r)} :: r in c.voteReplies ==> ReplyOK(c.hist, r))
  }

  /** All campaigns are in order. */
  ghost predicate Counts(conf: Config, c: State) {
    forall a {:trigger CampaignOK(conf, c, a)} :: a in c.campaigns ==> CampaignOK(conf, c, a)
  }

  /** What every step of the code keeps with a fixed voter set: so are the counts of votes. */
  ghost predicate BallotInv(conf: Config, c: State) { CastInv(conf, c) && Counts(conf, c) }

  /** What needs becomeLeader to be guarded: leaders were voted for in the term they lead. */
  ghost predicate ReignInv(conf: Config, c: State) {
    && (forall a {:trigger NotYetWon(c, a)} :: a in c.campaigns ==> NotYetWon(c, a))
    && (forall t {:trigger ReignOK(conf, c, t)} :: t in c.hist.reigns.leaders ==> ReignOK(conf, c, t))
    && (forall t, a :: (t, a) in c.hist.wins ==> t in c.hist.reigns.leaders && c.hist.reigns.leaders[t].addr == a)
  }

  ghost predicate VotesInv(conf: Config, c: State) { BallotInv(conf, c) && ReignInv(conf, c) }

  /** Two quorums of votes in one term are votes for the same candidate. */
  lemma OneWinnerPerTerm(conf: Config, h: History, t: nat, q: set<Addr>, x: NodeID, r: set<Addr>, y: NodeID)
    requires BackedBy(conf, h, q, t, x) && |q| >= |conf.Keys| / 2 + 1
    requires BackedBy(conf, h, r, t, y) && |r| >= |conf.Keys| / 2 + 1
    ensures x == y
  {
    Overlap(q, r, conf.Keys);
    var v :| v in q && v in r;
    assert VotedFor(h, v, t, x) && VotedFor(h, v, t, y);
  }

  /** A running campaign that has its quorum cannot be for a term that already has a leader. */
  lemma QuorumMeansFree(conf: Config, c: State, a: Addr)
    requires ValidConfig(conf) && VotesInv(conf, c) && a in c.campaigns
    requires 1 + |c.campaigns[a].granted| >= c.campaigns[a].needed
    ensures c.campaigns[a].term !in c.hist.reigns.leaders
  {
    var k := c.campaigns[a];
    assert CampaignOK(conf, c, a);
    if k.term in c.hist.reigns.leaders {
      var w := c.hist.reigns.leaders[k.term];
      assert ReignOK(conf, c, k.term) && NotYetWon(c, a);
      assert |k.granted + {a}| == |k.granted| + 1;
      OneWinnerPerTerm(conf, c.hist, k.term, k.granted + {a}, conf[a], w.voters, conf[w.addr]);
      assert false;
    }
  }

  // ----- each step keeps the vote invariant -----

  /** Time has passed: terms have not gone back, a vote has not been changed within its term, campaigns
      are no older, and what was voted and won is still recorded. */
  ghost predicate Later(c: State, c': State) {
    && c'.nodes.Keys == c.nodes.Keys
    && (forall a :: a in c.nodes ==>
          && c'.nodes[a].term >= c.nodes[a].term
          && (c'.nodes[a].term == c.nodes[a].term ==>
            c'.nodes[a].votedFor == c.nodes[a].votedFor || c.nodes[a].votedFor == ""))
    && (forall a :: a in c'.campaigns && a in c.nodes ==>
          if a in c.campaigns then c'.campaigns[a].term >= c.campaigns[a].term
            else c'.campaigns[a].term >= c.nodes[a].term)
    && (forall k :: k in c.hist.ballots ==> k in c'.hist.ballots && c'.hist.ballots[k] == c.hist.ballots[k])
    && LeadersStay(c, c')
  }

  lemma OwnerOf(conf: Config, a: Addr)
    requires ValidConfig(conf) && a in conf
    ensures Owner(conf, conf[a]) == a
  {
  }

  lemma ClaimLater(conf: Config, c: State, c': State, id: NodeID, t: nat)
    requires Later(c, c') && Claim(conf, c, id, t)
    ensures Claim(conf, c', id, t)
  {
  }

  lemma BallotLater(conf: Config, c: State, c': State, v: Addr, t: nat)
    requires ValidConfig(conf) && Later(c, c') && (v, t) in c.hist.ballots && BallotOK(conf, c, v, t)
    ensures (v, t) in c'.hist.ballots && BallotOK(conf, c', v, t)
  {
    ClaimLater(conf, c, c', c.hist.ballots[(v, t)].candidate, t);
  }

  lemma BackedLater(conf: Config, c: State, c': State, voters: set<Addr>, t: nat, id: NodeID)
    requires Later(c, c') && BackedBy(conf, c.hist, voters, t, id)
    ensures BackedBy(conf, c'.hist, voters, t, id)
  {
    forall v | v in voters ensures VotedFor(c'.hist, v, t, id) {
      assert VotedFor(c.hist, v, t, id);
    }
  }

  lemma CampaignLater(conf: Config, c: State, c': State, a: Addr)
    requires Later(c, c') && a in c.campaigns && CampaignOK(conf, c, a)
    requires a in c'.campaigns && c'.campaigns[a] == c.campaigns[a]
    ensures CampaignOK(conf, c', a)
  {
    BackedLater(conf, c, c', c.campaigns[a].granted + {a}, c.campaigns[a].term, conf[a]);
  }

  /** Everything recorded before is still in order later. */
  lemma AllLater(conf: Config, c: State, c': State)
    requires ValidConfig(conf) && CastInv(conf, c) && Later(c, c')
    ensures forall v, t {:trigger BallotOK(conf, c', v, t)} ::
      (v, t) in c.hist.ballots ==> (v, t) in c'.hist.ballots && BallotOK(conf, c', v, t)
    ensures forall m {:trigger Claim(conf, c', m.candidateID, m.term)} ::
      m in c.voteReqs ==> Claim(conf, c', m.candidateID, m.term)
    ensures forall r {:trigger ReplyOK(c'.hist, r)} :: r in c.voteReplies ==> ReplyOK(c'.hist, r)
  {
    forall v, t | (v, t) in c.hist.ballots ensures (v, t) in c'.hist.ballots && BallotOK(conf, c', v, t) {
      assert BallotOK(conf, c, v, t);
      BallotLater(conf, c, c', v, t);
    }
    forall m | m in c.voteReqs ensures Claim(conf, c', m.candidateID, m.term) {
      assert Claim(conf, c, m.candidateID, m.term);
      ClaimLater(conf, c, c', m.candidateID, m.term);
    }
    forall r | r in c.voteReplies ensures ReplyOK(c'.hist, r) {
      assert ReplyOK(c.hist, r);
    }
  }

  lemma ReignsLater(conf: Config, c: State, c': State)
    requires ReignInv(conf, c) && Later(c, c')
    ensures forall t {:trigger ReignOK(conf, c', t)} :: t in c.hist.reigns.leaders ==>
      t in c'.hist.reigns.leaders && ReignOK(conf, c', t)
  {
    forall t | t in c.hist.reigns.leaders ensures t in c'.hist.reigns.leaders && ReignOK(conf, c', t) {
      var w := c.hist.reigns.leaders[t];
      assert ReignOK(conf, c, t);
      BackedLater(conf, c, c', w.voters, t, conf[w.addr]);
    }
  }

  lemma CampaignsLater(conf: Config, c: State, c': State)
    requires BallotInv(conf, c) && Later(c, c')
    ensures forall a {:trigger CampaignOK(conf, c', a)} ::
      a in c.campaigns && a in c'.campaigns && c'.campaigns[a] == c.campaigns[a] ==> CampaignOK(conf, c', a)
  {
    forall a | a in c.campaigns && a in c'.campaigns && c'.campaigns[a] == c.campaigns[a]
      ensures CampaignOK(conf, c', a)
    {
      assert CampaignOK(conf, c, a);
      CampaignLater(conf, c, c', a);
    }
  }

  /** Steps that leave votes, requests for votes and other nodes alone. */
  lemma QuietCast(conf: Config, c: State, c': State, a: Addr)
    requires ValidConfig(conf) && CastInv(conf, c)
    requires a in c.nodes && a in c'.nodes && c'.nodes == c.nodes[a := c'.nodes[a]]
    requires c'.nodes[a].term >= c.nodes[a].term
    requires c'.nodes[a].term == c.nodes[a].term ==> c'.nodes[a].votedFor == c.nodes[a].votedFor
    requires SameCounts(c, c', a)
    requires c'.voteReqs == c.voteReqs && c'.voteReplies == c.voteReplies && c'.hist.ballots == c.hist.ballots
    requires LeadersStay(c, c')
    ensures Later(c, c') && CastInv(conf, c')
  {
    AllLater(conf, c, c');
  }

  /** The campaigns are those of before, or `a` has ended its own. */
  predicate SameCounts(c: State, c': State, a: Addr) {
    c'.campaigns == c.campaigns || c'.campaigns == c.campaigns - {a}
  }

  /** The first leader of a term is recorded for good. */
  predicate LeadersStay(c: State, c': State) {
    forall t :: t in c.hist.reigns.leaders ==>
      t in c'.hist.reigns.leaders && c'.hist.reigns.leaders[t] == c.hist.reigns.leaders[t]
  }

  /** The invariant holds later if what was added since is in order. */
  lemma Assemble(conf: Config, c: State, c': State)
    requires ValidConfig(conf) && CastInv(conf, c) && Later(c, c')
    requires forall v, t {:trigger BallotOK(conf, c', v, t)} ::
      (v, t) in c'.hist.ballots && (v, t) !in c.hist.ballots ==> BallotOK(conf, c', v, t)
    requires forall m {:trigger Claim(conf, c', m.candidateID, m.term)} ::
      m in c'.voteReqs && m !in c.voteReqs ==> Claim(conf, c', m.candidateID, m.term)
    requires forall r {:trigger ReplyOK(c'.hist, r)} :: r in c'.voteReplies && r !in c.voteReplies ==>
      ReplyOK(c'.hist, r)
    ensures CastInv(conf, c')
  {
    AllLater(conf, c, c');
  }

  lemma StartCampaignLater(conf: Config, c: State, a: Addr)
    requires CastInv(conf, c) && a in c.nodes && a !in c.campaigns
    ensures Later(c, DoStartCampaign(c, a)) && (a, c.nodes[a].term + 1) !in c.hist.ballots
  {
    assert forall x {:trigger BallotOK(conf, c, a, x)} :: (a, x) in c.hist.ballots ==> BallotOK(conf, c, a, x);
    assert (a, c.nodes[a].term + 1) in c.hist.ballots ==> BallotOK(conf, c, a, c.nodes[a].term + 1);
  }

  lemma NewBallotOK(conf: Config, c: State, a: Addr)
    requires ValidConfig(conf) && CastInv(conf, c) && a in conf && a in c.nodes && c.nodes[a].id == conf[a]
    requires a !in c.campaigns
    ensures BallotOK(conf, DoStartCampaign(c, a), a, c.nodes[a].term + 1)
    ensures VotedFor(DoStartCampaign(c, a).hist, a, c.nodes[a].term + 1, conf[a])
  {
    OwnerOf(conf, a);
    StartCampaignLater(conf, c, a);
  }

  lemma StartCampaignCast(conf: Config, c: State, a: Addr)
    requires ValidConfig(conf) && CastInv(conf, c) && a in conf && a in c.nodes && c.nodes[a].id == conf[a]
    requires a !in c.campaigns
    ensures CastInv(conf, DoStartCampaign(c, a))
  {
    StartCampaignLater(conf, c, a);
    NewBallotOK(conf, c, a);
    Assemble(conf, c, DoStartCampaign(c, a));
  }

  lemma SendVoteCast(conf: Config, c: State, a: Addr)
    requires ValidConfig(conf) && CastInv(conf, c) && a in conf && a in c.nodes && c.nodes[a].id == conf[a]
    requires a in c.campaigns && c.campaigns[a].term <= c.nodes[a].term
    ensures CastInv(conf, c.(voteReqs := c.voteReqs + {MakeVoteRequest(c.nodes[a], c.campaigns[a].term)}))
  {
    var m := MakeVoteRequest(c.nodes[a], c.campaigns[a].term);
    var c' := c.(voteReqs := c.voteReqs + {m});
    OwnerOf(conf, a);
    assert Claim(conf, c', m.candidateID, m.term);
    Assemble(conf, c, c');
  }

  lemma RecvVoteLater(c: State, a: Addr, req: VoteRequest)
    requires a in c.nodes
    ensures Later(c, DoRecvVote(c, a, req))
  {
  }

  lemma GrantedBallot(conf: Config, c: State, a: Addr, req: VoteRequest)
    requires ValidConfig(conf) && CastInv(conf, c) && a in c.nodes && req in c.voteReqs
    requires HandleVoteRequest(c.nodes[a], req).1.granted
    ensures var c' := DoRecvVote(c, a, req);
      VotedFor(c'.hist, a, req.term, req.candidateID) && BallotOK(conf, c', a, req.term)
  {
    assert Claim(conf, c, req.candidateID, req.term);
    RecvVoteLater(c, a, req);
    ClaimLater(conf, c, DoRecvVote(c, a, req), req.candidateID, req.term);
    if (a, req.term) in c.hist.ballots {
      assert BallotOK(conf, c, a, req.term);
    }
  }

  lemma RecvVoteCast(conf: Config, c: State, a: Addr, req: VoteRequest)
    requires ValidConfig(conf) && CastInv(conf, c) && a in c.nodes && req in c.voteReqs
    ensures CastInv(conf, DoRecvVote(c, a, req))
  {
    RecvVoteLater(c, a, req);
    if HandleVoteRequest(c.nodes[a], req).1.granted {
      GrantedBallot(conf, c, a, req);
    }
    Assemble(conf, c, DoRecvVote(c, a, req));
  }

  lemma CountVoteLater(conf: Config, c: State, s: Step)
    requires ValidConfig(conf) && CastInv(conf, c) && Enabled(c, s) && s.CountVote?
    ensures Later(c, Apply(c, s)) && CastInv(conf, Apply(c, s))
  {
    Assemble(conf, c, Apply(c, s));
  }

  /** Steps that cast, ask for and count no vote. */
  predicate Voteless(s: Step) { !s.StartCampaign? && !s.SendVote? && !s.RecvVote? && !s.CountVote? }

  lemma VotelessCast(conf: Config, c: State, s: Step)
    requires ValidConfig(conf) && CastInv(conf, c) && Enabled(c, s) && Voteless(s)
    ensures Later(c, Apply(c, s)) && CastInv(conf, Apply(c, s)) && SameCounts(c, Apply(c, s), s.a)
  {
    if s.RecvAppend? {
      LogMatching.HandleAppendEntriesFrame(c.nodes[s.a], s.appendReq, s.pick);
    } else if s.RecvAppendReply? {
      LogMatching.HandleAppendReplyFrame(c.nodes[s.a], s.appendReply.from, s.appendReply.req, s.appendReply.resp);
    }
    QuietCast(conf, c, Apply(c, s), s.a);
  }

  /** Whatever the voter sets: every step keeps ballots, requests for votes and replies in order. */
  lemma StepCast(conf: Config, c: State, s: Step)
    requires ValidConfig(conf) && CastInv(conf, c) && Enabled(c, s) && s.a in conf && c.nodes[s.a].id == conf[s.a]
    requires s.a in c.campaigns ==> c.campaigns[s.a].term <= c.nodes[s.a].term
    ensures CastInv(conf, Apply(c, s))
  {
    match s
    case StartCampaign(a) => StartCampaignCast(conf, c, a);
    case SendVote(a) => SendVoteCast(conf, c, a);
    case RecvVote(a, req) => RecvVoteCast(conf, c, a, req);
    case CountVote(_, _) => CountVoteLater(conf, c, s);
    case _ => VotelessCast(conf, c, s);
  }

  // ----- the counts, with a fixed voter set -----

  lemma NewCampaignOK(conf: Config, c: State, a: Addr)
    requires ValidConfig(conf) && StaticInv(conf, c) && BallotInv(conf, c)
    requires a in c.nodes && a !in c.campaigns
    ensures CampaignOK(conf, DoStartCampaign(c, a), a)
  {
    assert StaticNode(conf, a, c.nodes[a]);
    MembersCount(conf, c.nodes[a].members, a);
    NewBallotOK(conf, c, a);
    assert {} + {a} == {a};
  }

  lemma CountVoteOK(conf: Config, c: State, a: Addr, reply: VoteReply)
    requires BallotInv(conf, c) && a in c.campaigns && a in conf && a in c.nodes && c.nodes[a].id == conf[a]
    requires Enabled(c, CountVote(a, reply))
    ensures CampaignOK(conf, Apply(c, CountVote(a, reply)), a)
  {
    var k, c' := c.campaigns[a], Apply(c, CountVote(a, reply));
    assert CampaignOK(conf, c, a) && ReplyOK(c.hist, reply);
    assert k.granted + {reply.from} + {a} == (k.granted + {a}) + {reply.from};
    assert BackedBy(conf, c'.hist, (k.granted + {a}) + {reply.from}, k.term, conf[a]);
  }

  lemma StartCampaignCounts(conf: Config, c: State, a: Addr)
    requires ValidConfig(conf) && StaticInv(conf, c) && BallotInv(conf, c) && a in c.nodes && a !in c.campaigns
    ensures Counts(conf, DoStartCampaign(c, a))
  {
    StartCampaignLater(conf, c, a);
    NewCampaignOK(conf, c, a);
    CampaignsLater(conf, c, DoStartCampaign(c, a));
  }

  lemma RecvVoteCounts(conf: Config, c: State, a: Addr, req: VoteRequest)
    requires BallotInv(conf, c) && a in c.nodes
    ensures Counts(conf, DoRecvVote(c, a, req))
  {
    RecvVoteLater(c, a, req);
    CampaignsLater(conf, c, DoRecvVote(c, a, req));
  }

  lemma CountVoteCounts(conf: Config, c: State, s: Step)
    requires ValidConfig(conf) && StaticInv(conf, c) && BallotInv(conf, c) && Enabled(c, s) && s.CountVote?
    ensures Counts(conf, Apply(c, s))
  {
    assert StaticNode(conf, s.a, c.nodes[s.a]);
    CountVoteLater(conf, c, s);
    CountVoteOK(conf, c, s.a, s.voteReply);
    CampaignsLater(conf, c, Apply(c, s));
  }

  lemma StepCounts(conf: Config, c: State, s: Step)
    requires ValidConfig(conf) && StaticInv(conf, c) && BallotInv(conf, c) && Enabled(c, s)
    ensures Counts(conf, Apply(c, s))
  {
    match s
    case StartCampaign(a) => StartCampaignCounts(conf, c, a);
    case SendVote(_) => CampaignsLater(conf, c, Apply(c, s));
    case RecvVote(a, req) => RecvVoteCounts(conf, c, a, req);
    case CountVote(_, _) => CountVoteCounts(conf, c, s);
    case _ =>
      VotelessCast(conf, c, s);
      CampaignsLater(conf, c, Apply(c, s));
  }

  lemma StepBallots(conf: Config, c: State, s: Step)
    requires ValidConfig(conf) && StaticInv(conf, c) && BallotInv(conf, c) && Enabled(c, s)
    ensures BallotInv(conf, Apply(c, s))
  {
    assert StaticNode(conf, s.a, c.nodes[s.a]);
    if s.a in c.campaigns {
      assert CampaignOK(conf, c, s.a);
    }
    StepCast(conf, c, s);
    StepCounts(conf, c, s);
  }

  // ----- each step taken in the campaign's own term keeps the reigns -----

  lemma OwnReignsEarlier(conf: Config, c: State, a: Addr)
    requires ReignInv(conf, c) && a in c.nodes
    ensures forall u :: u in c.hist.reigns.leaders && c.hist.reigns.leaders[u].addr == a ==> u <= c.nodes[a].term
  {
    forall u | u in c.hist.reigns.leaders && c.hist.reigns.leaders[u].addr == a ensures u <= c.nodes[a].term {
      assert ReignOK(conf, c, u);
    }
  }

  /** Steps that take no lead. */
  lemma QuietReigns(conf: Config, c: State, c': State)
    requires ReignInv(conf, c) && Later(c, c')
    requires c'.hist.reigns.leaders == c.hist.reigns.leaders && c'.hist.wins == c.hist.wins
    requires forall a :: a in c'.campaigns ==>
      if a in c.campaigns then c'.campaigns[a].term == c.campaigns[a].term
      else a in c.nodes && c'.campaigns[a].term > c.nodes[a].term
    ensures ReignInv(conf, c')
  {
    ReignsLater(conf, c, c');
    forall a | a in c'.campaigns ensures NotYetWon(c', a) {
      if a in c.campaigns {
        assert NotYetWon(c, a);
      } else {
        OwnReignsEarlier(conf, c, a);
      }
    }
  }

  /** Steps of `a` that take no lead and touch no vote. */
  lemma CalmReigns(conf: Config, c: State, c': State, a: Addr)
    requires ReignInv(conf, c)
    requires a in c.nodes && a in c'.nodes && c'.nodes == c.nodes[a := c'.nodes[a]]
    requires c'.nodes[a].term >= c.nodes[a].term
    requires c'.nodes[a].term == c.nodes[a].term ==> c'.nodes[a].votedFor == c.nodes[a].votedFor
    requires c'.campaigns == c.campaigns || c'.campaigns == c.campaigns - {a}
    requires c'.hist.ballots == c.hist.ballots
    requires c'.hist.reigns.leaders == c.hist.reigns.leaders && c'.hist.wins == c.hist.wins
    ensures ReignInv(conf, c')
  {
    QuietReigns(conf, c, c');
  }

  lemma NewReignOK(conf: Config, c: State, a: Addr)
    requires ValidConfig(conf) && VotesInv(conf, c) && a in c.nodes && a in c.campaigns
    requires 1 + |c.campaigns[a].granted| >= c.campaigns[a].needed && c.nodes[a].term == c.campaigns[a].term
    ensures c.nodes[a].term !in c.hist.reigns.leaders
    ensures Later(c, DoTakeLead(c, a)) && ReignOK(conf, DoTakeLead(c, a), c.nodes[a].term)
  {
    var k := c.campaigns[a];
    assert CampaignOK(conf, c, a);
    QuorumMeansFree(conf, c, a);
    assert |k.granted + {a}| == |k.granted| + 1;
    BackedLater(conf, c, DoTakeLead(c, a), k.granted + {a}, k.term, conf[a]);
  }

  lemma TakeLeadReigns(conf: Config, c: State, a: Addr)
    requires ValidConfig(conf) && VotesInv(conf, c) && a in c.nodes && a in c.campaigns
    requires 1 + |c.campaigns[a].granted| >= c.campaigns[a].needed && c.nodes[a].term == c.campaigns[a].term
    ensures ReignInv(conf, DoTakeLead(c, a))
  {
    var c' := DoTakeLead(c, a);
    NewReignOK(conf, c, a);
    ReignsLater(conf, c, c');
    forall b | b in c'.campaigns ensures NotYetWon(c', b) {
      assert NotYetWon(c, b);
    }
  }

  lemma CampaignStepReigns(conf: Config, c: State, a: Addr)
    requires VotesInv(conf, c) && a in c.nodes && a !in c.campaigns
    ensures ReignInv(conf, DoStartCampaign(c, a))
  {
    StartCampaignLater(conf, c, a);
    QuietReigns(conf, c, DoStartCampaign(c, a));
  }

  lemma VoteStepReigns(conf: Config, c: State, a: Addr, req: VoteRequest)
    requires ReignInv(conf, c) && a in c.nodes
    ensures ReignInv(conf, DoRecvVote(c, a, req))
  {
    RecvVoteLater(c, a, req);
    QuietReigns(conf, c, DoRecvVote(c, a, req));
  }

  lemma StepReigns(conf: Config, c: State, s: Step)
    requires ValidConfig(conf) && VotesInv(conf, c) && CurrentCampaign(c, s)
    ensures ReignInv(conf, Apply(c, s))
  {
    var n, a := c.nodes[s.a], s.a;
    match s
    case StartCampaign(_) => CampaignStepReigns(conf, c, a);
    case RecvVote(_, req) => VoteStepReigns(conf, c, a, req);
    case CountVote(_, reply) => QuietReigns(conf, c, Apply(c, s));
    case TakeLead(_) => TakeLeadReigns(conf, c, a);
    case RecvAppend(_, req, pick) =>
      LogMatching.HandleAppendEntriesFrame(n, req, pick);
      CalmReigns(conf, c, DoRecvAppend(c, a, req, pick), a);
    case RecvAppendReply(_, reply) =>
      LogMatching.HandleAppendReplyFrame(n, reply.from, reply.req, reply.resp);
      CalmReigns(conf, c, Apply(c, s), a);
    case SendAppend(_, to, beat) => CalmReigns(conf, c, DoSendAppend(c, a, to, beat), a);
    case Propose(_, command) => CalmReigns(conf, c, DoPropose(c, a, command), a);
    case _ => CalmReigns(conf, c, Apply(c, s), a);
  }

  lemma StepVotes(conf: Config, c: State, s: Step)
    requires ValidConfig(conf) && StaticInv(conf, c) && VotesInv(conf, c) && CurrentCampaign(c, s)
    ensures VotesInv(conf, Apply(c, s))
  {
    StepBallots(conf, c, s);
    StepReigns(conf, c, s);
  }

  // ----- the theorem -----

  lemma InitElection(conf: Config)
    requires ValidConfig(conf)
    ensures StaticInv(conf, Init(conf, Static)) && VotesInv(conf, Init(conf, Static))
  {
    forall a | a in conf ensures StaticNode(conf, a, NewNode(conf[a], a, Static, conf.Keys - {a})) {
      NewNodeStatic(conf, a);
    }
  }

  lemma {:induction false} RunElection(conf: Config, c: State, steps: seq<Step>)
    requires ValidConfig(conf) && StaticInv(conf, c) && VotesInv(conf, c) && Run(c, steps, CurrentCampaign)
    ensures var d := After(c, steps, CurrentCampaign); StaticInv(conf, d) && VotesInv(conf, d)
    decreases |steps|
  {
    if steps != [] {
      StaticStep(conf, c, steps[0]);
      StepVotes(conf, c, steps[0]);
      RunElection(conf, Apply(c, steps[0]), steps[1..]);
    }
  }

  lemma {:induction false} RunBallots(conf: Config, c: State, steps: seq<Step>)
    requires ValidConfig(conf) && StaticInv(conf, c) && BallotInv(conf, c) && Run(c, steps, AnyStep)
    ensures var d := After(c, steps, AnyStep); StaticInv(conf, d) && BallotInv(conf, d)
    decreases |steps|
  {
    if steps != [] {
      StaticStep(conf, c, steps[0]);
      StepBallots(conf, c, steps[0]);
      RunBallots(conf, Apply(c, steps[0]), steps[1..]);
    }
  }

  lemma ReachedBallots(conf: Config, c: State)
    requires ValidConfig(conf) && Reaches(Init(conf, Static), c, AnyStep)
    ensures StaticInv(conf, c) && BallotInv(conf, c)
  {
    var steps :| Run(Init(conf, Static), steps, AnyStep) && After(Init(conf, Static), steps, AnyStep) == c;
    InitElection(conf);
    RunBallots(conf, Init(conf, Static), steps);
  }

  /** In every state the code as it stands can reach: no node has granted two candidates in one term. */
  lemma OneVotePerTerm(conf: Config, c: State)
    requires ValidConfig(conf) && Reaches(Init(conf, Static), c, AnyStep)
    ensures forall r, r' ::
      (r in c.voteReplies && r' in c.voteReplies && r.resp.granted && r'.resp.granted
       && r.from == r'.from && r.req.term == r'.req.term)
      ==> r.req.candidateID == r'.req.candidateID
  {
    ReachedBallots(conf, c);
    forall r, r' | r in c.voteReplies && r' in c.voteReplies && r.resp.granted && r'.resp.granted
                   && r.from == r'.from && r.req.term == r'.req.term
      ensures r.req.candidateID == r'.req.candidateID
    {
      assert ReplyOK(c.hist, r) && ReplyOK(c.hist, r');
    }
  }

  /** `a` is counting votes for `t` and has its quorum. */
  predicate Elected(c: State, a: Addr, t: nat) {
    a in c.campaigns && c.campaigns[a].term == t && 1 + |c.campaigns[a].granted| >= c.campaigns[a].needed
  }

  lemma ElectedBacked(conf: Config, c: State, a: Addr, t: nat)
    requires BallotInv(conf, c) && Elected(c, a, t)
    ensures a in conf && Backed(conf, c.hist, t, conf[a])
  {
    var k := c.campaigns[a];
    assert CampaignOK(conf, c, a);
    assert |k.granted + {a}| == |k.granted| + 1;
    assert BackedBy(conf, c.hist, k.granted + {a}, t, conf[a]);
  }

  lemma BackedOnce(conf: Config, h: History, t: nat, x: NodeID, y: NodeID)
    requires Backed(conf, h, t, x) && Backed(conf, h, t, y)
    ensures x == y
  {
    var q: set<Addr> :| |q| >= |conf.Keys| / 2 + 1 && BackedBy(conf, h, q, t, x);
    var r: set<Addr> :| |r| >= |conf.Keys| / 2 + 1 && BackedBy(conf, h, r, t, y);
    OneWinnerPerTerm(conf, h, t, q, x, r, y);
  }

  /** Over every run of the code as it stands: at most one candidate a term counts a quorum of votes, at the
      same moment or at two different ones. */
  lemma OneQuorumPerTerm(conf: Config, c: State, d: State, a: Addr, b: Addr, t: nat)
    requires ValidConfig(conf) && Reaches(Init(conf, Static), c, AnyStep) && Reaches(c, d, AnyStep)
    requires Elected(c, a, t) && Elected(d, b, t)
    ensures a == b
  {
    ReachedBallots(conf, c);
    var more :| Run(c, more, AnyStep) && After(c, more, AnyStep) == d;
    RunBallots(conf, c, more);
    RunLater(c, more);
    ElectedBacked(conf, c, a, t);
    ElectedBacked(conf, d, b, t);
    BackedStays(conf, c.hist, d.hist, t, conf[a]);
    BackedOnce(conf, d.hist, t, conf[a], conf[b]);
  }

  predicate BallotsStay(h: History, h': History) {
    forall k :: k in h.ballots ==> k in h'.ballots && h'.ballots[k] == h.ballots[k]
  }

  lemma BackedStays(conf: Config, h: History, h': History, t: nat, id: NodeID)
    requires BallotsStay(h, h') && Backed(conf, h, t, id)
    ensures Backed(conf, h', t, id)
  {
    var q: set<Addr> :| |q| >= |conf.Keys| / 2 + 1 && BackedBy(conf, h, q, t, id);
    forall v | v in q ensures VotedFor(h', v, t, id) {
      assert VotedFor(h, v, t, id);
    }
    assert BackedBy(conf, h', q, t, id);
  }

  lemma {:induction false} RunLater(c: State, steps: seq<Step>)
    requires Run(c, steps, AnyStep)
    ensures BallotsStay(c.hist, After(c, steps, AnyStep).hist)
    decreases |steps|
  {
    if steps != [] {
      BallotsStayStep(c, steps[0]);
      RunLater(Apply(c, steps[0]), steps[1..]);
    }
  }

  lemma BallotsStayStep(c: State, s: Step)
    requires Enabled(c, s)
    ensures BallotsStay(c.hist, Apply(c, s).hist)
  {
    match s
    case StartCampaign(a) =>
    case RecvVote(a, req) =>
    case _ =>
  }

  /** With becomeLeader guarded: whenever two nodes have ever become leader in the same term, they are the
      same node. */
  lemma ElectionSafety(conf: Config, steps: seq<Step>)
    requires ValidConfig(conf) && Run(Init(conf, Static), steps, CurrentCampaign)
    ensures var c := After(Init(conf, Static), steps, CurrentCampaign);
      forall t, a, b :: (t, a) in c.hist.wins && (t, b) in c.hist.wins ==> a == b
  {
    InitElection(conf);
    RunElection(conf, Init(conf, Static), steps);
  }

  /** In every state the code as it stands can reach: whenever becomeLeader can run, the lead it takes is backed
      by a quorum of votes in the node's own term if and only if that is still the term it campaigned for. */
  lemma LeadIsBackedIff(conf: Config, c: State, a: Addr)
    requires ValidConfig(conf) && Reaches(Init(conf, Static), c, AnyStep) && Enabled(c, TakeLead(a))
    ensures a in conf && (Backed(conf, c.hist, c.nodes[a].term, conf[a]) <==> c.nodes[a].term == c.campaigns[a].term)
  {
    ReachedBallots(conf, c);
    CampaignBackedIff(conf, c, a);
  }

  lemma CampaignBackedIff(conf: Config, c: State, a: Addr)
    requires ValidConfig(conf) && BallotInv(conf, c) && a in c.nodes && Enabled(c, TakeLead(a))
    ensures a in conf && (Backed(conf, c.hist, c.nodes[a].term, conf[a]) <==> c.nodes[a].term == c.campaigns[a].term)
  {
    assert CampaignOK(conf, c, a);
    if c.nodes[a].term == c.campaigns[a].term {
      ElectedBacked(conf, c, a, c.nodes[a].term);
    } else {
      NoVotesYet(conf, c, a, c.nodes[a].term);
    }
  }

  /** A quorum of the voters voted for `id` in `t`. */
  ghost predicate Backed(conf: Config, h: History, t: nat, id: NodeID) {
    exists q: set<Addr> :: |q| >= |conf.Keys| / 2 + 1 && BackedBy(conf, h, q, t, id)
  }

  lemma NoVotesYet(conf: Config, c: State, a: Addr, t: nat)
    requires ValidConfig(conf) && BallotInv(conf, c) && a in conf && a in c.nodes && a in c.campaigns
    requires t > c.campaigns[a].term
    ensures !Backed(conf, c.hist, t, conf[a])
  {
    forall q: set<Addr> | |q| >= |conf.Keys| / 2 + 1 ensures !BackedBy(conf, c.hist, q, t, conf[a]) {
      var v :| v in q;
      OwnerOf(conf, a);
      assert VotedFor(c.hist, v, t, conf[a]) ==> BallotOK(conf, c, v, t);
    }
  }
}
