/** Runs of clusters of three whose nodes know each other by address until they hear from one another: why Election
    Safety needs its hypothesis, becomeLeader checking neither state nor term, and why a node's voters need not be a
    fold of what it has applied. */
module Counterexamples {
  import opened RaftTypes
  import opened RaftNode
  import opened Cluster
  import opened Necessity
  import Membership
  import MembershipRuns
  import Election
  import Replication

  predicate Three(conf: Config, p: Addr, q: Addr, r: Addr) {
    ValidConfig(conf) && conf.Keys == {p, q, r} && p != q && q != r && p != r
  }

  function Newcomer(conf: Config, mode: Mode, a: Addr): NodeState
    requires a in conf
  {
    NewNode(conf[a], a, mode, conf.Keys - {a})
  }

  lemma NewcomerKnows(conf: Config, mode: Mode, p: Addr, q: Addr, r: Addr, a: Addr)
    requires Three(conf, p, q, r) && a in conf
    ensures var ms := Newcomer(conf, mode, a).members;
      && conf[a] in Membership.VoterIDs(ms) && Membership.QuorumSize(ms) == 2
      && Membership.PeerVoters(ms, conf[a]) == conf.Keys - {a}
  {
    Election.NewNodeStatic(conf, a);
    assert Newcomer(conf, mode, a).members == NewNode(conf[a], a, Static, conf.Keys - {a}).members;
    var ms := Newcomer(conf, mode, a).members;
    Election.MembersUnique(conf, ms, a);
    Election.MembersCount(conf, ms, a);
    ThreeNodes(conf, p, q, r);
  }

  lemma ThreeNodes(conf: Config, p: Addr, q: Addr, r: Addr)
    requires Three(conf, p, q, r)
    ensures |conf.Keys| == 3
  {
    assert |{p, q}| == 2 && {p, q, r} == {p, q} + {r};
  }

  /** `a` campaigning in term `t`, and the request it sends. */
  function Running(conf: Config, mode: Mode, a: Addr, t: nat): NodeState
    requires a in conf
  {
    Newcomer(conf, mode, a).(role := Candidate, term := t, votedFor := conf[a])
  }

  function Ask(conf: Config, a: Addr, t: nat): VoteRequest
    requires a in conf
  {
    VoteRequest(t, conf[a], 0, 0)
  }

  /** The reply of a node that grants it. */
  function Grant(conf: Config, from: Addr, a: Addr, t: nat): VoteReply
    requires a in conf
  {
    VoteReply(from, Ask(conf, a, t), VoteResponse(t, true))
  }

  // ----- the single steps -----

  lemma TimeoutStep(conf: Config, mode: Mode, p: Addr, q: Addr, r: Addr, a: Addr, c: State)
    requires Three(conf, p, q, r) && a in conf && a in c.nodes && a !in c.campaigns
    requires c.nodes[a] == Newcomer(conf, mode, a)
    ensures Enabled(c, Timeout(a)) && Apply(c, Timeout(a)) == Put(c, Newcomer(conf, mode, a).(role := Candidate), a)
  {
    NewcomerKnows(conf, mode, p, q, r, a);
  }

  /** A candidate, perhaps after an earlier campaign of its own. */
  predicate Candidacy(conf: Config, mode: Mode, a: Addr, n: NodeState, t: nat)
    requires a in conf
  {
    n == Newcomer(conf, mode, a).(role := Candidate, term := t, votedFor := n.votedFor)
  }

  lemma CampaignStep(conf: Config, mode: Mode, p: Addr, q: Addr, r: Addr, a: Addr, c: State, t: nat)
    requires Three(conf, p, q, r) && a in conf && a in c.nodes && a !in c.campaigns
    requires Candidacy(conf, mode, a, c.nodes[a], t)
    ensures Enabled(c, StartCampaign(a))
    ensures var c' := Apply(c, StartCampaign(a));
      && c'.nodes == c.nodes[a := Running(conf, mode, a, t + 1)]
      && c'.campaigns == c.campaigns[a := Campaign(t + 1, 2, conf.Keys - {a}, {})]
  {
    NewcomerKnows(conf, mode, p, q, r, a);
    assert StartElection(c.nodes[a]) == Running(conf, mode, a, t + 1);
  }

  lemma AskStep(conf: Config, mode: Mode, a: Addr, c: State, t: nat)
    requires a in conf && a in c.nodes && c.nodes[a] == Running(conf, mode, a, t) && a in c.campaigns
    requires c.campaigns[a].term == t
    ensures Enabled(c, SendVote(a))
    ensures var c' := Apply(c, SendVote(a));
      c'.nodes == c.nodes && c'.campaigns == c.campaigns && Ask(conf, a, t) in c'.voteReqs
  {
  }

  lemma GrantStep(conf: Config, a: Addr, v: Addr, c: State, t: nat)
    requires a in conf && v in c.nodes && Ask(conf, a, t) in c.voteReqs
    requires c.nodes[v].log == [SENTINEL] && c.nodes[v].term < t
    ensures Enabled(c, RecvVote(v, Ask(conf, a, t)))
    ensures var c' := Apply(c, RecvVote(v, Ask(conf, a, t)));
      && c'.nodes == c.nodes[v := StepDown(c.nodes[v], t).(votedFor := conf[a])]
      && c'.campaigns == c.campaigns && Grant(conf, v, a, t) in c'.voteReplies
  {
  }

  lemma CountStep(conf: Config, a: Addr, v: Addr, c: State, t: nat)
    requires a in conf && v in conf && v != a && a in c.nodes && c.nodes[a].id == conf[a]
    requires a in c.campaigns && c.campaigns[a] == Campaign(t, 2, conf.Keys - {a}, {})
    requires Grant(conf, v, a, t) in c.voteReplies
    ensures Enabled(c, CountVote(a, Grant(conf, v, a, t)))
    ensures var c' := Apply(c, CountVote(a, Grant(conf, v, a, t)));
      c'.nodes == c.nodes && c'.campaigns == c.campaigns[a := Campaign(t, 2, conf.Keys - {a}, {v})]
  {
    assert {} + {v} == {v};
  }

  /** A node that has noted nothing about others yet. */
  predicate Unnoted(n: NodeState) { n.nextIndex == map[] && n.matchIndex == map[] && n.commitIndex < |n.log| }

  lemma LeadStep(a: Addr, v: Addr, c: State)
    requires a in c.nodes && a in c.campaigns && c.campaigns[a].granted == {v} && c.campaigns[a].needed == 2
    requires Unnoted(c.nodes[a])
    ensures Enabled(c, TakeLead(a)) && AllBut(Leads, c, TakeLead(a))
    ensures c.nodes[a].term == c.campaigns[a].term && c.nodes[a].term !in c.hist.reigns.leaders ==>
      AllBut(NoGap, c, TakeLead(a))
    ensures var c' := Apply(c, TakeLead(a));
      c'.nodes == c.nodes[a := BecomeLeader(c.nodes[a])] && c'.campaigns == c.campaigns - {a}
  {
    assert Replication.NoStaleNext(c.nodes[a]) && Replication.NoStaleMatch(c.nodes[a]);
  }

  // ----- the run -----

  /** A fresh node's timer fires and it campaigns in term 1. */
  lemma ReachRunning(conf: Config, mode: Mode, p: Addr, q: Addr, r: Addr, a: Addr, gap: Gap, reach: State -> bool,
                     c: State) returns (c': State)
    requires Three(conf, p, q, r) && a in conf && !Careful(gap) && Closed(gap, reach) && reach(c)
    requires a in c.nodes && c.nodes[a] == Newcomer(conf, mode, a) && a !in c.campaigns
    ensures reach(c') && c'.nodes == c.nodes[a := Running(conf, mode, a, 1)] && c'.hist.reigns == c.hist.reigns
    ensures c'.campaigns == c.campaigns[a := Campaign(1, 2, conf.Keys - {a}, {})]
  {
    TimeoutStep(conf, mode, p, q, r, a, c);
    var c1 := Take(gap, reach, c, Timeout(a));
    CampaignStep(conf, mode, p, q, r, a, c1, 0);
    c' := Take(gap, reach, c1, StartCampaign(a));
  }

  /** The fresh `q` grants `p` its vote, which makes two of three. */
  lemma ReachVote(conf: Config, mode: Mode, p: Addr, q: Addr, gap: Gap, reach: State -> bool, c: State)
    returns (c': State)
    requires p in conf && q in conf && p != q && !Careful(gap) && Closed(gap, reach) && reach(c)
    requires p in c.nodes && c.nodes[p] == Running(conf, mode, p, 1) && q in c.nodes
    requires c.nodes[q] == Newcomer(conf, mode, q)
    requires p in c.campaigns && c.campaigns[p] == Campaign(1, 2, conf.Keys - {p}, {})
    ensures reach(c') && c'.nodes == c.nodes[q := Granting(c.nodes[q], 1, conf[p])] && c'.hist.reigns == c.hist.reigns
    ensures c'.campaigns == c.campaigns[p := Campaign(1, 2, conf.Keys - {p}, {q})]
  {
    AskStep(conf, mode, p, c, 1);
    var c1 := Take(gap, reach, c, SendVote(p));
    GrantStep(conf, p, q, c1, 1);
    var c2 := Take(gap, reach, c1, RecvVote(q, Ask(conf, p, 1)));
    CountStep(conf, p, q, c2, 1);
    c' := Take(gap, reach, c2, CountVote(p, Grant(conf, q, p, 1)));
  }

  /** `r` fails to be elected in term 1, and campaigns again in term 2. */
  lemma ReachSecondCampaign(conf: Config, mode: Mode, p: Addr, q: Addr, r: Addr, gap: Gap, reach: State -> bool,
                            c: State) returns (c': State)
    requires Three(conf, p, q, r) && !Careful(gap) && Closed(gap, reach) && reach(c)
    requires r in c.nodes && c.nodes[r] == Running(conf, mode, r, 1) && r in c.campaigns
    ensures reach(c') && c'.nodes == c.nodes[r := Running(conf, mode, r, 2)] && Ask(conf, r, 2) in c'.voteReqs
    ensures c'.campaigns == c.campaigns[r := Campaign(2, 2, conf.Keys - {r}, {})]
  {
    var c1 := Take(gap, reach, c, EndCampaign(r, false));
    CampaignStep(conf, mode, p, q, r, r, c1, 1);
    var c2 := Take(gap, reach, c1, StartCampaign(r));
    AskStep(conf, mode, r, c2, 2);
    c' := Take(gap, reach, c2, SendVote(r));
  }

  ghost predicate TwoLeaders(c: State, p: Addr, r: Addr) {
    && p != r && p in c.nodes && r in c.nodes && c.nodes[p].role == Leader && c.nodes[r].role == Leader
    && c.nodes[p].term == c.nodes[r].term
  }

  /** `p` holds a majority for term 1 on which it has not acted, and `r` asks for votes in term 2. */
  ghost predicate Poised(conf: Config, mode: Mode, p: Addr, q: Addr, r: Addr, c: State) {
    && p in conf && r in conf && p != r && c.nodes.Keys == conf.Keys && Ask(conf, r, 2) in c.voteReqs
    && c.nodes[p] == Running(conf, mode, p, 1) && c.nodes[r] == Running(conf, mode, r, 2)
    && p in c.campaigns && c.campaigns[p] == Campaign(1, 2, conf.Keys - {p}, {q})
    && r in c.campaigns && c.campaigns[r] == Campaign(2, 2, conf.Keys - {r}, {})
  }

  lemma ReachMajority(conf: Config, mode: Mode, p: Addr, q: Addr, r: Addr, gap: Gap, reach: State -> bool, c: State)
    returns (c': State)
    requires Three(conf, p, q, r) && !Careful(gap) && Closed(gap, reach) && reach(c)
    requires c.nodes.Keys == conf.Keys && c.campaigns == map[]
    requires c.nodes[p] == Newcomer(conf, mode, p) && c.nodes[q] == Newcomer(conf, mode, q)
    ensures reach(c') && c'.nodes.Keys == conf.Keys && c'.campaigns == map[p := Campaign(1, 2, conf.Keys - {p}, {q})]
    ensures c'.nodes[p] == Running(conf, mode, p, 1) && c'.nodes[r] == c.nodes[r] && c'.hist.reigns == c.hist.reigns
    ensures c'.nodes[q] == Granting(c.nodes[q], 1, conf[p])
  {
    var c1 := ReachRunning(conf, mode, p, q, r, p, gap, reach, c);
    c' := ReachVote(conf, mode, p, q, gap, reach, c1);
  }

  lemma ReachPoised(conf: Config, mode: Mode, p: Addr, q: Addr, r: Addr, gap: Gap, reach: State -> bool, c: State)
    returns (c': State)
    requires Three(conf, p, q, r) && !Careful(gap) && Closed(gap, reach) && reach(c)
    requires c.nodes.Keys == conf.Keys && c.campaigns == map[p := Campaign(1, 2, conf.Keys - {p}, {q})]
    requires c.nodes[p] == Running(conf, mode, p, 1) && c.nodes[r] == Newcomer(conf, mode, r)
    ensures reach(c') && Poised(conf, mode, p, q, r, c')
  {
    var c1 := ReachRunning(conf, mode, p, q, r, r, gap, reach, c);
    c' := ReachSecondCampaign(conf, mode, p, q, r, gap, reach, c1);
  }

  /** `p` itself grants `r` its vote in term 2, `r` leads, and only then `p` runs becomeLeader. */
  lemma ReachTwoLeaders(conf: Config, mode: Mode, p: Addr, q: Addr, r: Addr, reach: State -> bool, c: State)
    returns (c': State)
    requires Closed(Leads, reach) && reach(c) && Poised(conf, mode, p, q, r, c)
    ensures reach(c') && TwoLeaders(c', p, r) && c'.nodes[p].log == [SENTINEL] == c'.nodes[r].log
    ensures c'.nodes[p].mode == mode == c'.nodes[r].mode
  {
    GrantStep(conf, r, p, c, 2);
    var c1 := Take(Leads, reach, c, RecvVote(p, Ask(conf, r, 2)));
    CountStep(conf, r, p, c1, 2);
    var c2 := Take(Leads, reach, c1, CountVote(r, Grant(conf, p, r, 2)));
    LeadStep(r, p, c2);
    var c3 := Take(Leads, reach, c2, TakeLead(r));
    LeadStep(p, q, c3);
    c' := Take(Leads, reach, c3, TakeLead(p));
  }

  lemma InitNewcomers(conf: Config, mode: Mode)
    requires ValidConfig(conf)
    ensures var c := Init(conf, mode);
      && c.nodes.Keys == conf.Keys && c.campaigns == map[] && c.hist.reigns.leaders == map[]
      && forall a :: a in conf ==> c.nodes[a] == Newcomer(conf, mode, a)
  {
  }

  lemma ReachFromStart(conf: Config, mode: Mode, p: Addr, q: Addr, r: Addr, reach: State -> bool) returns (c: State)
    requires Three(conf, p, q, r) && Closed(Leads, reach) && reach(Init(conf, mode))
    ensures reach(c) && TwoLeaders(c, p, r) && c.nodes[p].log == [SENTINEL] == c.nodes[r].log
    ensures c.nodes[p].mode == mode == c.nodes[r].mode
  {
    InitNewcomers(conf, mode);
    var c1 := ReachMajority(conf, mode, p, q, r, Leads, reach, Init(conf, mode));
    var c2 := ReachPoised(conf, mode, p, q, r, Leads, reach, c1);
    c := ReachTwoLeaders(conf, mode, p, q, r, reach, c2);
  }

  /** In every cluster of three, static or dynamic, a run that obeys all the other rules ends with two nodes leading in
      the same term: one of them takes the lead in a term it never campaigned for. */
  lemma TwoLeadersInOneTerm(conf: Config, mode: Mode, p: Addr, q: Addr, r: Addr)
    requires Three(conf, p, q, r)
    ensures exists c :: Reaches(Init(conf, mode), c, Rule(Leads)) && TwoLeaders(c, p, r)
  {
    ReachClosed(Leads, Init(conf, mode));
    var c := ReachFromStart(conf, mode, p, q, r, Reach(Leads, Init(conf, mode)));
  }

  /** In a dynamic cluster both of them add a voter: two logs then hold an entry of the same index and term, and not
      the same entry. */
  lemma TwoLeadersDiverge(conf: Config, p: Addr, q: Addr, r: Addr)
    requires Three(conf, p, q, r)
    ensures exists c :: Reaches(Init(conf, Dynamic), c, Rule(Leads)) && Mismatch(c, p, r, 1)
  {
    var reach := Reach(Leads, Init(conf, Dynamic));
    ReachClosed(Leads, Init(conf, Dynamic));
    var c1 := ReachFromStart(conf, Dynamic, p, q, r, reach);
    var c := BothAppend(reach, c1, p, r);
  }

  lemma BothAppend(reach: State -> bool, c: State, p: Addr, r: Addr) returns (c': State)
    requires Closed(Leads, reach) && reach(c) && TwoLeaders(c, p, r) && c.nodes[p].log == [SENTINEL] == c.nodes[r].log
    requires c.nodes[p].mode == Dynamic == c.nodes[r].mode
    ensures reach(c') && Mismatch(c', p, r, 1)
  {
    var c1 := Proposes(Leads, reach, c, p, X);
    c' := Proposes(Leads, reach, c1, r, Y);
    var x, y := c'.nodes[p].log, c'.nodes[r].log;
    assert x[..2][1] == x[1] && y[..2][1] == y[1];
  }

  // ----- a rename -----

  /** The first heartbeat of a leader that has appended nothing. */
  function Hello(conf: Config, p: Addr): AppendRequest
    requires p in conf
  {
    AppendRequest(1, conf[p], p, 0, 0, [], 0)
  }

  /** `p` is elected, and its first heartbeat goes out to `q`. */
  lemma ReachHello(conf: Config, p: Addr, q: Addr, r: Addr, reach: State -> bool, c: State) returns (c': State)
    requires Three(conf, p, q, r) && Closed(NoGap, reach) && reach(c)
    requires p in c.nodes && c.nodes[p] == Running(conf, Dynamic, p, 1) && 1 !in c.hist.reigns.leaders
    requires c.campaigns == map[p := Campaign(1, 2, conf.Keys - {p}, {q})] && q in c.nodes
    ensures reach(c') && q in c'.nodes && c'.nodes[q] == c.nodes[q] && Hello(conf, p) in c'.appendReqs
  {
    LeadStep(p, q, c);
    var c1 := Take(NoGap, reach, c, TakeLead(p));
    var c2 := Take(NoGap, reach, c1, StartBeat(p));
    c' := ReachSend(conf, p, q, r, reach, c2);
  }

  lemma ReachSend(conf: Config, p: Addr, q: Addr, r: Addr, reach: State -> bool, c: State) returns (c': State)
    requires Three(conf, p, q, r) && Closed(NoGap, reach) && reach(c) && (p, Beat(1, 0)) in c.beats
    requires p in c.nodes && c.nodes[p] == BecomeLeader(Running(conf, Dynamic, p, 1)) && q in c.nodes
    ensures reach(c') && q in c'.nodes && c'.nodes[q] == c.nodes[q] && Hello(conf, p) in c'.appendReqs
  {
    var n := c.nodes[p];
    NewcomerKnows(conf, Dynamic, p, q, r, p);
    assert q in Membership.PeerVoters(n.members, n.id);
    assert n.members[q] == Member(q, q, Voter) && q in Membership.PeerAddrs(n.members, n.id);
    assert Lookup(n.nextIndex, q) == 1;
    c' := Take(NoGap, reach, c, SendAppend(p, q, Beat(1, 0)));
    assert MakeAppendRequest(n, q, 1, 0) == Hello(conf, p);
  }

  /** `q` learns the real ID of `p`. */
  lemma ReachRename(conf: Config, p: Addr, q: Addr, r: Addr, reach: State -> bool, c: State) returns (c': State)
    requires Three(conf, p, q, r) && conf[p] != p && Closed(NoGap, reach) && reach(c) && Hello(conf, p) in c.appendReqs
    requires q in c.nodes && c.nodes[q] == Granting(Newcomer(conf, Dynamic, q), 1, conf[p])
    ensures reach(c') && q in c'.nodes && p !in c'.nodes[q].members && c'.nodes[q].applied == []
  {
    assert Membership.Renamable(c.nodes[q].members, p, conf[p], p);
    c' := Take(NoGap, reach, c, RecvAppend(q, Hello(conf, p), p));
  }

  /** The voters of `a` are not its first ones folded over what it has applied. */
  ghost predicate Unfolded(c0: State, c: State, a: Addr) {
    && a in c0.nodes && a in c.nodes
    && MembershipRuns.VoterPart(c.nodes[a].members)
       != MembershipRuns.Fold(MembershipRuns.VoterPart(c0.nodes[a].members), c.nodes[a].applied)
  }

  lemma ReachUnfolded(conf: Config, p: Addr, q: Addr, r: Addr, reach: State -> bool, c: State) returns (c': State)
    requires Three(conf, p, q, r) && conf[p] != p && Closed(NoGap, reach) && reach(c)
    requires c.nodes.Keys == conf.Keys && c.campaigns == map[] && c.hist.reigns.leaders == map[]
    requires c.nodes[p] == Newcomer(conf, Dynamic, p) && c.nodes[q] == Newcomer(conf, Dynamic, q)
    ensures reach(c') && q in c'.nodes && p !in c'.nodes[q].members && c'.nodes[q].applied == []
  {
    var c1 := ReachMajority(conf, Dynamic, p, q, r, NoGap, reach, c);
    var c2 := ReachHello(conf, p, q, r, reach, c1);
    c' := ReachRename(conf, p, q, r, reach, c2);
  }

  /** In every dynamic cluster of three whose `p` has an ID other than its address, with all rules in force: the first
      heartbeat of `p` replaces its placeholder among the voters of `q`, which has applied nothing. */
  lemma RenameBreaksTheFold(conf: Config, p: Addr, q: Addr, r: Addr)
    requires Three(conf, p, q, r) && conf[p] != p
    ensures exists c :: Reaches(Init(conf, Dynamic), c, Rule(NoGap)) && Unfolded(Init(conf, Dynamic), c, q)
  {
    var c0, reach := Init(conf, Dynamic), Reach(NoGap, Init(conf, Dynamic));
    ReachClosed(NoGap, c0);
    InitNewcomers(conf, Dynamic);
    var c := ReachUnfolded(conf, p, q, r, reach, c0);
    assert p in MembershipRuns.VoterPart(c0.nodes[q].members);
  }
}
