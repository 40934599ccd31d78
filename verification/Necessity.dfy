/** Why each rule is there: all of them but one allow a run that breaks what they protect together. The runs have
    three voters, `p`, `q` and `r`, and a fourth node `o` that joins as an observer. */
module Necessity {
  import opened RaftTypes
  import opened RaftNode
  import opened Cluster
  import opened Safety
  import opened Replication
  import opened DynamicSafety
  import Configs
  import Membership
  import LogMatching

  datatype Gap =
    | Leads | Appends | Sends | Order | Replies | Leftovers | Ahead | NoGap
    | Pending(v0: set<NodeID>, limit: nat) | OneAtATime(v0: set<NodeID>, limit: nat)

  /** No membership change is under way in the node's log. */
  predicate NonePending(n: NodeState) { forall i :: n.commitIndex < i < |n.log| ==> !n.log[i].command.Membership? }

  /** Every rule but the one that `gap` names: who leads, who appends, who sends, the order of requests, the reign of
      replies, or what matchIndex and nextIndex hold when a node takes the lead. Membership entries are all that is
      appended, as in the source.
      `Pending` is all of them, and the rule of dynamic clusters with at most `limit` membership entries above a
      candidate's commit index. `OneAtATime` is that rule of dynamic clusters, and a leader that appends a membership
      entry has none pending; data may be appended. */
  ghost predicate AllBut(gap: Gap, c: State, s: Step) {
    && Enabled(c, s)
    && (Careful(gap) ==> Guarded(gap.v0, gap.limit, c, s))
    && (gap.OneAtATime? ==> s.Propose? && s.command.Membership? ==> NonePending(c.nodes[s.a]))
    && (!gap.OneAtATime? ==> Except(gap, c, s))
  }

  predicate Careful(gap: Gap) { gap.Pending? || gap.OneAtATime? }

  ghost predicate Except(gap: Gap, c: State, s: Step)
    requires Enabled(c, s)
  {
    var n := c.nodes[s.a];
    match s
    case TakeLead(a) =>
      && (gap.Leads? || (n.term == c.campaigns[a].term && n.term !in c.hist.reigns.leaders))
      && n.commitIndex < |n.log| && (gap.Ahead? || NoStaleNext(n)) && (gap.Leftovers? || NoStaleMatch(n))
    case Propose(_, command) => command.Membership? && (gap.Appends? || n.role == Leader)
    case SendAppend(_, _, beat) => gap.Sends? || (n.role == Leader && beat.term == n.term)
    case RecvAppend(a, req, _) => gap.Order? || InTurn(c, a, req)
    case RecvAppendReply(_, reply) =>
      gap.Replies? || (reply.resp.success && reply.resp.term <= n.term ==> n.role == Leader && n.term == reply.req.term)
    case _ => true
  }

  /** A set of states that no such step leaves. */
  ghost predicate Closed(gap: Gap, reach: State -> bool) {
    forall c, s {:trigger Taken(reach, c, s)} :: reach(c) && Enabled(c, s) && AllBut(gap, c, s) ==> Taken(reach, c, s)
  }

  ghost predicate Taken(reach: State -> bool, c: State, s: Step)
    requires Enabled(c, s)
  {
    reach(Apply(c, s))
  }

  lemma Take(gap: Gap, reach: State -> bool, c: State, s: Step) returns (c': State)
    requires Closed(gap, reach) && reach(c) && Enabled(c, s) && AllBut(gap, c, s)
    ensures reach(c') && c' == Apply(c, s)
  {
    assert Taken(reach, c, s);
    c' := Apply(c, s);
  }

  // ----- nodes whose IDs are their addresses -----

  ghost predicate Plain(n: NodeState, a: Addr) {
    && a != "" && n.id == a && n.addr == a && n.mode == Dynamic && n.commitIndex == n.lastApplied == 0
    && n.applied == []
    && (forall id {:trigger n.members[id]} :: id in n.members ==> n.members[id].addr == id && n.members[id].id == id)
  }

  /** A voter that knows the three voters `vs`. */
  ghost predicate OneOf(n: NodeState, a: Addr, vs: set<Addr>) {
    Plain(n, a) && a in vs && |vs| == 3 && Membership.VoterIDs(n.members) == vs
  }

  lemma OneOfCounts(n: NodeState, a: Addr, vs: set<Addr>)
    requires OneOf(n, a, vs)
    ensures Membership.QuorumSize(n.members) == 2 && Membership.PeerVoters(n.members, n.id) == vs - {a}
  {
    var peers := Membership.PeerVoters(n.members, n.id);
    forall v | v in vs - {a} ensures v in peers {
      assert v in Membership.VoterIDs(n.members) && n.members[v].addr == v;
    }
    forall v | v in peers ensures v in vs - {a} {
      var id :| id in Membership.VoterIDs(n.members) && id != n.id && n.members[id].addr == v;
      assert n.members[id].addr == id;
    }
  }

  /** Requests, replies, broadcasts and acknowledgements are as before. */
  ghost predicate Calm(c: State, c': State) {
    c'.beats == c.beats && c'.appendReqs == c.appendReqs && c'.appendReplies == c.appendReplies
      && c'.hist.acks == c.hist.acks
  }

  /** Nobody but `a` and `b` has changed. */
  ghost predicate Others(c: State, c': State, a: Addr, b: Addr) {
    forall x {:trigger x in c.nodes} {:trigger x in c'.nodes} :: x in c.nodes && x != a && x != b ==>
      x in c'.nodes && c'.nodes[x] == c.nodes[x]
  }

  // ----- an election -----

  function Asking(n: NodeState): NodeState { n.(role := Candidate, term := n.term + 1, votedFor := n.id) }

  function Granting(v: NodeState, t: nat, id: NodeID): NodeState { StepDown(v, t).(votedFor := id) }

  /** `a` is ready to campaign, and `v` to vote for it. */
  ghost predicate Electable(c: State, a: Addr, v: Addr, vs: set<Addr>) {
    && a in c.nodes && v in c.nodes && a != v && v in vs && c.campaigns == map[]
    && OneOf(c.nodes[a], a, vs) && c.nodes[a].role == Follower && c.nodes[v].term <= c.nodes[a].term
    && UpToDate(LastIndex(c.nodes[a].log), LastTerm(c.nodes[a].log), c.nodes[v].log)
  }

  /** The gap lets `n` start a campaign. */
  predicate CanStand(gap: Gap, n: NodeState) { Careful(gap) ==> MayCampaign(gap.v0, gap.limit, n) }

  /** The timer of a follower that knows itself as a voter fires. */
  lemma TimesOut(gap: Gap, reach: State -> bool, c: State, a: Addr, vs: set<Addr>) returns (c': State)
    requires Closed(gap, reach) && reach(c) && a in c.nodes && c.campaigns == map[] && OneOf(c.nodes[a], a, vs)
    requires c.nodes[a].role == Follower
    ensures reach(c') && c' == Put(c, c.nodes[a].(role := Candidate), a)
  {
    c' := Take(gap, reach, c, Timeout(a));
  }

  lemma Campaigns(gap: Gap, reach: State -> bool, c: State, a: Addr, v: Addr, vs: set<Addr>) returns (c': State)
    requires Closed(gap, reach) && reach(c) && Electable(c, a, v, vs) && CanStand(gap, c.nodes[a])
    ensures reach(c') && Calm(c, c') && c'.hist.reigns == c.hist.reigns
    ensures c'.nodes == c.nodes[a := Asking(c.nodes[a])] && c'.voteReqs == c.voteReqs
    ensures c'.campaigns == map[a := Campaign(c.nodes[a].term + 1, 2, vs - {a}, {})]
  {
    OneOfCounts(c.nodes[a], a, vs);
    var c1 := TimesOut(gap, reach, c, a, vs);
    c' := Take(gap, reach, c1, StartCampaign(a));
  }

  lemma Asks(gap: Gap, reach: State -> bool, c: State, a: Addr, t: nat) returns (c': State)
    requires Closed(gap, reach) && reach(c) && a in c.nodes && a in c.campaigns && c.campaigns[a].term == t
    ensures reach(c') && Calm(c, c') && c'.hist.reigns == c.hist.reigns && c'.nodes == c.nodes
    ensures c'.campaigns == c.campaigns
    ensures c'.voteReqs == c.voteReqs + {MakeVoteRequest(c.nodes[a], t)}
  {
    c' := Take(gap, reach, c, SendVote(a));
  }

  /** A node that has not reached the term grants its vote to an up-to-date candidate. */
  lemma Grants(gap: Gap, reach: State -> bool, c: State, v: Addr, req: VoteRequest) returns (c': State)
    requires Closed(gap, reach) && reach(c) && v in c.nodes && req in c.voteReqs && c.nodes[v].term < req.term
    requires UpToDate(req.lastLogIndex, req.lastLogTerm, c.nodes[v].log)
    ensures reach(c') && Calm(c, c') && c'.hist.reigns == c.hist.reigns && c'.campaigns == c.campaigns
    ensures c'.voteReqs == c.voteReqs
    ensures c'.nodes == c.nodes[v := Granting(c.nodes[v], req.term, req.candidateID)]
    ensures VoteReply(v, req, VoteResponse(req.term, true)) in c'.voteReplies
  {
    c' := Take(gap, reach, c, RecvVote(v, req));
  }

  lemma Counts(gap: Gap, reach: State -> bool, c: State, a: Addr, v: Addr, req: VoteRequest, vs: set<Addr>)
    returns (c': State)
    requires Closed(gap, reach) && reach(c) && a in c.nodes && c.nodes[a].id == a && v in vs - {a}
    requires c.campaigns == map[a := Campaign(req.term, 2, vs - {a}, {})] && req.candidateID == a
    requires VoteReply(v, req, VoteResponse(req.term, true)) in c.voteReplies
    ensures reach(c') && Calm(c, c') && c'.hist.reigns == c.hist.reigns && c'.nodes == c.nodes
    ensures c'.voteReqs == c.voteReqs
    ensures c'.campaigns == map[a := Campaign(req.term, 2, vs - {a}, {v})]
  {
    c' := Take(gap, reach, c, CountVote(a, VoteReply(v, req, VoteResponse(req.term, true))));
    assert {} + {v} == {v};
  }

  lemma Leads(gap: Gap, reach: State -> bool, c: State, a: Addr, v: Addr, vs: set<Addr>) returns (c': State)
    requires Closed(gap, reach) && reach(c) && a in c.nodes && c.nodes[a].term !in c.hist.reigns.leaders
    requires c.campaigns == map[a := Campaign(c.nodes[a].term, 2, vs - {a}, {v})]
    requires c.nodes[a].role == Candidate && c.nodes[a].commitIndex < |c.nodes[a].log|
    requires (gap.Ahead? || NoStaleNext(c.nodes[a])) && (gap.Leftovers? || NoStaleMatch(c.nodes[a]))
    ensures reach(c') && Calm(c, c') && c'.nodes == c.nodes[a := BecomeLeader(c.nodes[a])] && c'.voteReqs == c.voteReqs
    ensures c'.campaigns == map[] && c'.hist.reigns.leaders.Keys == c.hist.reigns.leaders.Keys + {c.nodes[a].term}
  {
    c' := Take(gap, reach, c, TakeLead(a));
  }

  lemma TwoChanged(nodes: map<Addr, NodeState>, nodes': map<Addr, NodeState>, c: State, c': State, a: Addr, v: Addr,
                   x: NodeState, y: NodeState)
    requires a != v && c.nodes == nodes && c'.nodes == nodes' && a in nodes && v in nodes
    requires nodes' == nodes[a := x][v := y]
    ensures Others(c, c', a, v) && a in c'.nodes && c'.nodes[a] == x && v in c'.nodes && c'.nodes[v] == y
  {
  }

  /** `a` campaigns and `v` grants it its vote. */
  lemma Convinces(gap: Gap, reach: State -> bool, c: State, a: Addr, v: Addr, vs: set<Addr>) returns (c': State)
    requires Closed(gap, reach) && reach(c) && Electable(c, a, v, vs) && CanStand(gap, c.nodes[a])
    ensures var n, t := c.nodes[a], c.nodes[a].term + 1;
      var req := MakeVoteRequest(Asking(n), t);
      && reach(c') && Calm(c, c') && c'.hist.reigns == c.hist.reigns && req in c'.voteReqs
      && c'.nodes == c.nodes[a := Asking(n)][v := Granting(c.nodes[v], t, a)]
      && c'.campaigns == map[a := Campaign(t, 2, vs - {a}, {})]
      && VoteReply(v, req, VoteResponse(t, true)) in c'.voteReplies
  {
    var n, t := c.nodes[a], c.nodes[a].term + 1;
    var c1 := Campaigns(gap, reach, c, a, v, vs);
    var c2 := Asks(gap, reach, c1, a, t);
    c' := Grants(gap, reach, c2, v, MakeVoteRequest(Asking(n), t));
  }

  // ----- replication -----

  /** Campaigns, vote requests and leaders are as before. */
  ghost predicate Steady(c: State, c': State) {
    c'.campaigns == c.campaigns && c'.voteReqs == c.voteReqs
      && c'.hist.reigns.leaders.Keys == c.hist.reigns.leaders.Keys
  }

  /** The gap lets `n` append `command`. */
  predicate CanAppend(gap: Gap, n: NodeState, command: Command) {
    && (gap.Appends? || n.role == Leader)
    && (Careful(gap) ==> Configs.PlainEntry(LogEntry(|n.log|, n.term, command)))
    && if gap.OneAtATime? then command.Membership? ==> NonePending(n) else command.Membership?
  }

  lemma Proposes(gap: Gap, reach: State -> bool, c: State, a: Addr, x: Command) returns (c': State)
    requires Closed(gap, reach) && reach(c) && a in c.nodes && c.nodes[a].mode == Dynamic
    requires CanAppend(gap, c.nodes[a], x)
    ensures reach(c') && Steady(c, c') && c'.nodes == c.nodes[a := AppendOwn(c.nodes[a], x)] && c'.beats == c.beats
    ensures c'.appendReqs == c.appendReqs && c'.appendReplies == c.appendReplies
    ensures c'.hist.acks == c.hist.acks + {Ack(a, c.nodes[a].term, |c.nodes[a].log|)}
  {
    c' := Take(gap, reach, c, Propose(a, x));
  }

  lemma Admits(gap: Gap, reach: State -> bool, c: State, a: Addr, o: Addr) returns (c': State)
    requires Closed(gap, reach) && reach(c) && a in c.nodes && c.nodes[a].role == Leader && c.nodes[a].mode == Dynamic
    ensures reach(c') && Steady(c, c') && Calm(c, c') && c'.nodes == c.nodes[a := AdmitObserver(c.nodes[a], o, o)]
  {
    c' := Take(gap, reach, c, Join(a, o, o));
  }

  /** One heartbeat to `to`. */
  lemma Beats(gap: Gap, reach: State -> bool, c: State, a: Addr, to: Addr) returns (c': State)
    requires Closed(gap, reach) && reach(c) && a in c.nodes && (gap.Sends? || c.nodes[a].role == Leader)
    requires Plain(c.nodes[a], a) && to in c.nodes[a].members && to != a && to != ""
    requires Lookup(c.nodes[a].nextIndex, to) > 0
    ensures reach(c') && Steady(c, c') && c'.nodes == c.nodes && c'.appendReplies == c.appendReplies
    ensures c'.hist.acks == c.hist.acks
    ensures c'.appendReqs == c.appendReqs + {MakeAppendRequest(c.nodes[a], to, c.nodes[a].term, 0)}
  {
    var n := c.nodes[a];
    var c1 := Take(gap, reach, c, StartBeat(a));
    assert to in Membership.PeerAddrs(n.members, n.id) by { assert n.members[to].addr == to; }
    c' := Take(gap, reach, c1, SendAppend(a, to, Beat(n.term, 0)));
    assert NoteNext(n, to) == n;
  }

  lemma KeepsMembers(n: NodeState, b: Addr, leader: Addr)
    requires Plain(n, b)
    ensures forall pick :: !Membership.Renamable(n.members, leader, leader, pick)
  {
  }

  /** The node after accepting `m` from `m.leaderID`, whose commit index is 0. */
  function Follows(n: NodeState, m: AppendRequest): NodeState {
    n.(term := m.term, votedFor := if m.term > n.term then "" else n.votedFor, role := Follower,
       leaderID := m.leaderID, leaderAddr := m.leaderAddr)
  }

  function Success(b: Addr, m: AppendRequest): AppendReply { AppendReply(b, m, AppendResponse(m.term, true, 0)) }

  lemma Accepts(gap: Gap, reach: State -> bool, c: State, b: Addr, m: AppendRequest) returns (c': State)
    requires Closed(gap, reach) && reach(c) && b in c.nodes && m in c.appendReqs && Plain(c.nodes[b], b)
    requires m.leaderID == m.leaderAddr && m.leaderCommit == 0 && m.term >= c.nodes[b].term
    requires PrevMatches(c.nodes[b].log, m)
    requires gap.Order? || NotOvertaken(c.hist, b, m)
    ensures reach(c') && Steady(c, c') && c'.appendReqs == c.appendReqs
    ensures c'.nodes == c.nodes[b := Follows(c.nodes[b], m).(log := AppendTo(c.nodes[b].log, m))]
    ensures c'.appendReplies == c.appendReplies + {Success(b, m)}
    ensures c'.hist.acks == c.hist.acks + {Ack(b, m.term, m.End())} && c'.beats == c.beats
  {
    KeepsMembers(c.nodes[b], b, m.leaderID);
    c' := Take(gap, reach, c, RecvAppend(b, m, ""));
  }

  lemma Rejects(gap: Gap, reach: State -> bool, c: State, b: Addr, m: AppendRequest) returns (c': State)
    requires Closed(gap, reach) && reach(c) && b in c.nodes && m in c.appendReqs && Plain(c.nodes[b], b)
    requires m.leaderID == m.leaderAddr && m.term >= c.nodes[b].term && !PrevMatches(c.nodes[b].log, m)
    ensures reach(c') && Steady(c, c') && c'.nodes == c.nodes[b := Follows(c.nodes[b], m)]
    ensures c'.appendReqs == c.appendReqs && c'.hist.acks == c.hist.acks
    ensures AppendReply(b, m, AppendResponse(c.nodes[b].term, false, |c.nodes[b].log|)) in c'.appendReplies
  {
    KeepsMembers(c.nodes[b], b, m.leaderID);
    c' := Take(gap, reach, c, RecvAppend(b, m, ""));
  }

  lemma NoSupporters(n: NodeState, a: Addr, vs: set<Addr>, index: nat)
    requires OneOf(n, a, vs) && index > 0 && forall v :: v in vs - {a} ==> Lookup(n.matchIndex, v) == 0
    ensures Supporters(n, index) == {}
  {
    forall id | id in n.members && n.members[id].kind == Voter && id != a
      ensures Lookup(n.matchIndex, n.members[id].addr) == 0
    {
      assert id in Membership.VoterIDs(n.members) && n.members[id].addr == id;
    }
  }

  /** Without a match from another voter there is nothing to commit. */
  lemma NothingToCommit(n: NodeState, a: Addr, vs: set<Addr>)
    requires OneOf(n, a, vs) && forall v :: v in vs - {a} ==> Lookup(n.matchIndex, v) == 0
    ensures MaybeAdvanceCommitIndex(n) == n
  {
    OneOfCounts(n, a, vs);
    forall index: nat | index > 0 ensures !Committable(n, index) {
      NoSupporters(n, a, vs, index);
    }
  }

  lemma Learns(gap: Gap, reach: State -> bool, c: State, a: Addr, b: Addr, m: AppendRequest, vs: set<Addr>)
    returns (c': State)
    requires Closed(gap, reach) && reach(c) && a in c.nodes && OneOf(c.nodes[a], a, vs) && b !in vs
    requires Success(b, m) in c.appendReplies && m.leaderID == a && m.term <= c.nodes[a].term
    requires gap.Replies? || (c.nodes[a].role == Leader && c.nodes[a].term == m.term)
    requires forall v :: v in vs - {a} ==> Lookup(c.nodes[a].matchIndex, v) == 0
    ensures reach(c') && Steady(c, c') && Calm(c, c') && c'.nodes == c.nodes[a := Matched(c.nodes[a], b, m.End())]
  {
    var n1 := Matched(c.nodes[a], b, m.End());
    assert OneOf(n1, a, vs);
    NothingToCommit(n1, a, vs);
    c' := Take(gap, reach, c, RecvAppendReply(a, Success(b, m)));
  }

  /** A vote request that a node refuses still brings it into the term. */
  lemma StepsDown(gap: Gap, reach: State -> bool, c: State, b: Addr, req: VoteRequest) returns (c': State)
    requires Closed(gap, reach) && reach(c) && b in c.nodes && req in c.voteReqs && c.nodes[b].term < req.term
    requires !UpToDate(req.lastLogIndex, req.lastLogTerm, c.nodes[b].log)
    ensures reach(c') && Calm(c, c') && Steady(c, c') && c'.nodes == c.nodes[b := StepDown(c.nodes[b], req.term)]
  {
    c' := Take(gap, reach, c, RecvVote(b, req));
  }

  // ----- the cast -----

  /** Three voters, together `vs`, and an observer. */
  datatype Cast = Cast(p: Addr, q: Addr, r: Addr, o: Addr, vs: set<Addr>)

  predicate Four(k: Cast) {
    && k.p != "" && k.q != "" && k.r != "" && k.o != ""
    && k.p != k.q && k.p != k.r && k.p != k.o && k.q != k.r && k.q != k.o && k.r != k.o
    && k.vs == {k.p, k.q, k.r}
  }

  function All(k: Cast): set<Addr> { k.vs + {k.o} }

  /** IDs are addresses, and everyone lists the voters. */
  function Start(k: Cast): State { Begin(map a | a in All(k) :: a, k.vs) }

  lemma ThreeVoters(k: Cast)
    requires Four(k)
    ensures |k.vs| == 3
  {
    assert |{k.p, k.q}| == 2 && k.vs == {k.p, k.q} + {k.r};
  }

  function Fresh(k: Cast, a: Addr): NodeState { NewNode(a, a, Dynamic, k.vs - {a}) }

  lemma FreshVoter(k: Cast, a: Addr)
    requires Four(k) && a in k.vs
    ensures OneOf(Fresh(k, a), a, k.vs)
  {
    ThreeVoters(k);
    assert Membership.VoterIDs(Fresh(k, a).members) == k.vs;
  }

  lemma StartState(k: Cast)
    requires Four(k)
    ensures var c := Start(k);
      && c.nodes.Keys == All(k) && c.campaigns == map[] && c.hist.reigns.leaders == map[]
      && c.appendReqs == {} && c.appendReplies == {} && c.hist.acks == {}
      && (forall a :: a in All(k) ==> c.nodes[a] == Fresh(k, a))
  {
  }

  // ----- what a voter looks like along the way -----

  /** Voter `a`: its role, term and log, and what it has noted about the observer; about everyone else it has
      noted no match and nothing beyond its log. */
  ghost predicate Is(k: Cast, n: NodeState, a: Addr, role: Role, t: nat, log: Entries, next: nat, matched: nat) {
    && OneOf(n, a, k.vs) && n.role == role && n.term == t && n.log == log && (next > 0 ==> k.o in n.members)
    && Lookup(n.nextIndex, k.o) == next && Lookup(n.matchIndex, k.o) == matched
    && (forall f {:trigger Lookup(n.matchIndex, f)} :: f != k.o ==> Lookup(n.matchIndex, f) == 0)
    && (forall f {:trigger Lookup(n.nextIndex, f)} :: f != k.o ==> Lookup(n.nextIndex, f) <= |log|)
  }

  lemma IsFresh(k: Cast, a: Addr)
    requires Four(k) && a in k.vs
    ensures Is(k, Fresh(k, a), a, Follower, 0, [SENTINEL], 0, 0)
  {
    FreshVoter(k, a);
  }

  lemma SetForLookup(m: map<Addr, nat>, keys: set<Addr>, v: nat, f: Addr)
    ensures Lookup(SetFor(m, keys, v), f) == if f in keys then v else Lookup(m, f)
  {
  }

  lemma LedProgress(n: NodeState, a: Addr, vs: set<Addr>, f: Addr)
    requires OneOf(n, a, vs)
    ensures var n' := BecomeLeader(n);
      && Lookup(n'.matchIndex, f) == (if f in vs - {a} then 0 else Lookup(n.matchIndex, f))
      && Lookup(n'.nextIndex, f) == (if f in vs - {a} then |n.log| else Lookup(n.nextIndex, f))
  {
    OneOfCounts(n, a, vs);
    SetForLookup(n.matchIndex, vs - {a}, 0, f);
    SetForLookup(n.nextIndex, vs - {a}, |n.log|, f);
  }

  lemma IsLed(k: Cast, n: NodeState, a: Addr, role: Role, t: nat, log: Entries, next: nat, matched: nat)
    requires k.o !in k.vs && Is(k, n, a, role, t, log, next, matched)
    ensures Is(k, BecomeLeader(n), a, Leader, t, log, next, matched)
    ensures forall v :: v in k.vs - {a} ==> Lookup(BecomeLeader(n).nextIndex, v) == |log|
  {
    var n' := BecomeLeader(n);
    assert OneOf(n', a, k.vs);
    forall f
      ensures Lookup(n'.matchIndex, f) == if f in k.vs - {a} then 0 else Lookup(n.matchIndex, f)
      ensures Lookup(n'.nextIndex, f) == if f in k.vs - {a} then |log| else Lookup(n.nextIndex, f)
    {
      LedProgress(n, a, k.vs, f);
    }
  }

  lemma NothingStale(k: Cast, n: NodeState, a: Addr, role: Role, t: nat, log: Entries, next: nat, matched: nat)
    requires Is(k, n, a, role, t, log, next, matched)
    ensures (next <= |log| ==> NoStaleNext(n)) && (matched == 0 ==> NoStaleMatch(n))
  {
    forall f ensures f != k.o ==> Lookup(n.nextIndex, f) <= |log| && Lookup(n.matchIndex, f) == 0 {
    }
  }

  lemma IsAdmitted(k: Cast, n: NodeState, a: Addr, t: nat, log: Entries)
    requires k.o !in k.vs && Is(k, n, a, Leader, t, log, 0, 0)
    ensures Is(k, AdmitObserver(n, k.o, k.o), a, Leader, t, log, |log|, 0)
    ensures forall v :: v != k.o ==> Lookup(AdmitObserver(n, k.o, k.o).nextIndex, v) == Lookup(n.nextIndex, v)
  {
    var n' := AdmitObserver(n, k.o, k.o);
    Membership.AddObserverKeepsVoters(n.members, k.o, k.o);
    forall f ensures f != k.o ==>
      Lookup(n'.matchIndex, f) == Lookup(n.matchIndex, f) && Lookup(n'.nextIndex, f) == Lookup(n.nextIndex, f) {
    }
  }

  function Own(log: Entries, t: nat, x: Command): Entries { log + [LogEntry(|log|, t, x)] }

  lemma IsAppended(k: Cast, n: NodeState, a: Addr, role: Role, t: nat, log: Entries, next: nat,
    matched: nat, x: Command)
    requires Is(k, n, a, role, t, log, next, matched)
    ensures Is(k, AppendOwn(n, x), a, role, t, Own(log, t, x), next, matched)
  {
  }

  lemma IsMatched(k: Cast, n: NodeState, a: Addr, role: Role, t: nat, log: Entries, next: nat, matched: nat, end: nat)
    requires Is(k, n, a, role, t, log, next, matched) && k.o in n.members
    ensures Is(k, Matched(n, k.o, end), a, role, t, log, end + 1, end)
  {
    var n' := Matched(n, k.o, end);
    forall f ensures f != k.o ==>
      Lookup(n'.matchIndex, f) == Lookup(n.matchIndex, f) && Lookup(n'.nextIndex, f) == Lookup(n.nextIndex, f) {
    }
  }

  ghost predicate Watches(k: Cast, n: NodeState, t: nat, log: Entries) { Plain(n, k.o) && n.term == t && n.log == log }

  // ----- steps in terms of what nodes look like -----

  ghost predicate Has(k: Cast, c: State, a: Addr, role: Role, t: nat, log: Entries, next: nat, matched: nat) {
    a in c.nodes && Is(k, c.nodes[a], a, role, t, log, next, matched)
  }

  ghost predicate Seen(k: Cast, c: State, t: nat, log: Entries) { k.o in c.nodes && Watches(k, c.nodes[k.o], t, log) }

  /** Nothing is under way, and no term after `t` has been led or acknowledged in. */
  ghost predicate Quiet(c: State, t: nat) {
    c.campaigns == map[] && (forall u :: u in c.hist.reigns.leaders.Keys ==> u <= t)
      && (forall x :: x in c.hist.acks ==> x.term <= t)
  }

  lemma IsGranting(k: Cast, n: NodeState, a: Addr, role: Role, t: nat, log: Entries, next: nat, matched: nat, t': nat,
                   id: NodeID)
    requires Is(k, n, a, role, t, log, next, matched)
    ensures Is(k, Granting(n, t', id), a, Follower, t', log, next, matched)
    ensures Is(k, StepDown(n, t'), a, Follower, t', log, next, matched)
  {
  }

  lemma IsAsking(k: Cast, n: NodeState, a: Addr, t: nat, log: Entries, next: nat, matched: nat)
    requires Is(k, n, a, Follower, t, log, next, matched)
    ensures Is(k, Asking(n), a, Candidate, t + 1, log, next, matched)
  {
  }

  lemma ConvincesHas(gap: Gap, reach: State -> bool, k: Cast, c: State, a: Addr, t: nat, log: Entries, next: nat,
    matched: nat,
                     v: Addr, tv: nat) returns (c': State)
    requires Closed(gap, reach) && reach(c) && c.campaigns == map[] && a != v && tv <= t
    requires Has(k, c, a, Follower, t, log, next, matched) && Has(k, c, v, Follower, tv, [SENTINEL], 0, 0)
    requires CanStand(gap, c.nodes[a])
    ensures var req := VoteRequest(t + 1, a, LastIndex(log), LastTerm(log));
      && reach(c') && Calm(c, c') && c'.hist.reigns == c.hist.reigns && req in c'.voteReqs && Others(c, c', a, v)
      && c'.campaigns == map[a := Campaign(t + 1, 2, k.vs - {a}, {})]
      && VoteReply(v, req, VoteResponse(t + 1, true)) in c'.voteReplies
    ensures Has(k, c', a, Candidate, t + 1, log, next, matched) && Has(k, c', v, Follower, t + 1, [SENTINEL], 0, 0)
  {
    c' := Convinces(gap, reach, c, a, v, k.vs);
    TwoChanged(c.nodes, c'.nodes, c, c', a, v, Asking(c.nodes[a]), Granting(c.nodes[v], t + 1, a));
    IsAsking(k, c.nodes[a], a, t, log, next, matched);
    IsGranting(k, c.nodes[v], v, Follower, tv, [SENTINEL], 0, 0, t + 1, a);
  }

  lemma LeadsHas(gap: Gap, reach: State -> bool, k: Cast, c: State, a: Addr, t: nat, log: Entries, next: nat,
                 matched: nat, v: Addr)
    returns (c': State)
    requires k.o !in k.vs && Closed(gap, reach) && reach(c) && Has(k, c, a, Candidate, t, log, next, matched)
    requires t !in c.hist.reigns.leaders && c.campaigns == map[a := Campaign(t, 2, k.vs - {a}, {v})]
    requires (gap.Ahead? || next <= |log|) && (gap.Leftovers? || matched == 0)
    ensures reach(c') && Calm(c, c') && c'.campaigns == map[]
    ensures c'.hist.reigns.leaders.Keys == c.hist.reigns.leaders.Keys + {t}
    ensures Others(c, c', a, a) && Has(k, c', a, Leader, t, log, next, matched) && c'.voteReqs == c.voteReqs
    ensures forall f :: f in k.vs - {a} ==> Lookup(c'.nodes[a].nextIndex, f) == |log|
  {
    NothingStale(k, c.nodes[a], a, Candidate, t, log, next, matched);
    c' := Leads(gap, reach, c, a, v, k.vs);
    IsLed(k, c.nodes[a], a, Candidate, t, log, next, matched);
  }

  /** `a` wins the next term with the vote of `v`. */
  lemma ElectHas(gap: Gap, reach: State -> bool, k: Cast, c: State, a: Addr, t: nat, log: Entries, next: nat,
    matched: nat,
                 v: Addr, tv: nat) returns (c': State)
    requires k.o !in k.vs && Closed(gap, reach) && reach(c) && Quiet(c, t) && a != v
    requires Has(k, c, a, Follower, t, log, next, matched) && Has(k, c, v, Follower, tv, [SENTINEL], 0, 0)
    requires tv <= t && (gap.Ahead? || next <= |log|) && (gap.Leftovers? || matched == 0) && CanStand(gap, c.nodes[a])
    ensures reach(c') && Calm(c, c') && Quiet(c', t + 1) && Others(c, c', a, v)
    ensures Has(k, c', a, Leader, t + 1, log, next, matched) && Has(k, c', v, Follower, t + 1, [SENTINEL], 0, 0)
    ensures forall f :: f in k.vs - {a} ==> Lookup(c'.nodes[a].nextIndex, f) == |log|
    ensures VoteRequest(t + 1, a, LastIndex(log), LastTerm(log)) in c'.voteReqs
  {
    var c1 := ConvincesHas(gap, reach, k, c, a, t, log, next, matched, v, tv);
    var c2 := Counts(gap, reach, c1, a, v, VoteRequest(t + 1, a, LastIndex(log), LastTerm(log)), k.vs);
    c' := LeadsHas(gap, reach, k, c2, a, t + 1, log, next, matched, v);
  }

  /** Voter `v` hears of the term of a vote request: grants it with an empty log, refuses it with a newer one. */
  lemma Hears(gap: Gap, reach: State -> bool, k: Cast, c: State, v: Addr, role: Role, t: nat, log: Entries, next: nat,
    matched: nat,
              req: VoteRequest, u: nat) returns (c': State)
    requires Closed(gap, reach) && reach(c) && Quiet(c, u) && Has(k, c, v, role, t, log, next, matched)
    requires req in c.voteReqs && t < req.term
    ensures reach(c') && Calm(c, c') && Quiet(c', u) && Others(c, c', v, v) && c'.voteReqs == c.voteReqs
    ensures Has(k, c', v, Follower, req.term, log, next, matched)
  {
    IsGranting(k, c.nodes[v], v, role, t, log, next, matched, req.term, req.candidateID);
    if UpToDate(req.lastLogIndex, req.lastLogTerm, log) {
      c' := Grants(gap, reach, c, v, req);
    } else {
      c' := StepsDown(gap, reach, c, v, req);
    }
  }

  lemma ProposesHas(gap: Gap, reach: State -> bool, k: Cast, c: State, a: Addr, role: Role, t: nat, log: Entries,
    next: nat, matched: nat,
                    x: Command, u: nat) returns (c': State)
    requires Closed(gap, reach) && reach(c) && Quiet(c, u) && t <= u
    requires Has(k, c, a, role, t, log, next, matched) && CanAppend(gap, c.nodes[a], x)
    ensures reach(c') && Quiet(c', u) && Others(c, c', a, a) && Has(k, c', a, role, t, Own(log, t, x), next, matched)
    ensures c'.nodes[a].nextIndex == c.nodes[a].nextIndex && c'.hist.acks == c.hist.acks + {Ack(a, t, |log|)}
    ensures c'.appendReqs == c.appendReqs && c'.appendReplies == c.appendReplies && c'.voteReqs == c.voteReqs
  {
    c' := Proposes(gap, reach, c, a, x);
    IsAppended(k, c.nodes[a], a, role, t, log, next, matched, x);
  }

  lemma AdmitsHas(gap: Gap, reach: State -> bool, k: Cast, c: State, a: Addr, t: nat, log: Entries, u: nat)
    returns (c': State)
    requires k.o !in k.vs && k.o != "" && Closed(gap, reach) && reach(c) && Quiet(c, u)
    requires Has(k, c, a, Leader, t, log, 0, 0)
    ensures reach(c') && Calm(c, c') && Quiet(c', u) && Others(c, c', a, a) && Has(k, c', a, Leader, t, log, |log|, 0)
    ensures forall v :: v != k.o ==> Lookup(c'.nodes[a].nextIndex, v) == Lookup(c.nodes[a].nextIndex, v)
    ensures c'.voteReqs == c.voteReqs
  {
    c' := Admits(gap, reach, c, a, k.o);
    IsAdmitted(k, c.nodes[a], a, t, log);
  }

  /** What `a`, leading or deposed, sends from position `next` on. */
  function Req(a: Addr, t: nat, log: Entries, next: nat): AppendRequest
    requires 0 < next <= |log|
  {
    AppendRequest(t, a, a, next - 1, log[next - 1].term, log[next..], 0)
  }

  lemma BeatsHas(gap: Gap, reach: State -> bool, k: Cast, c: State, a: Addr, role: Role, t: nat, log: Entries,
    next: nat, matched: nat,
                 to: Addr, at: nat, u: nat) returns (c': State)
    requires Closed(gap, reach) && reach(c) && Quiet(c, u) && Has(k, c, a, role, t, log, next, matched)
    requires gap.Sends? || role == Leader
    requires to in c.nodes[a].members && to != a && to != "" && Lookup(c.nodes[a].nextIndex, to) == at
    requires 0 < at <= |log|
    ensures reach(c') && Quiet(c', u) && c'.nodes == c.nodes && c'.hist.acks == c.hist.acks && c'.voteReqs == c.voteReqs
    ensures c'.appendReplies == c.appendReplies && c'.appendReqs == c.appendReqs + {Req(a, t, log, at)}
  {
    c' := Beats(gap, reach, c, a, to);
    assert MakeAppendRequest(c.nodes[a], to, t, 0) == Req(a, t, log, at);
  }

  ghost predicate Unacked(c: State, b: Addr, t: nat, end: nat) {
    forall x :: x in c.hist.acks && x.addr == b && x.term == t ==> x.end <= end
  }

  /** The observer accepts a request. */
  lemma AcceptsSeen(gap: Gap, reach: State -> bool, k: Cast, c: State, t: nat, log: Entries, m: AppendRequest, u: nat)
    returns (c': State)
    requires Closed(gap, reach) && reach(c) && Quiet(c, u) && Seen(k, c, t, log) && m in c.appendReqs
    requires m.leaderID == m.leaderAddr && m.leaderCommit == 0 && t <= m.term <= u && PrevMatches(log, m)
    requires gap.Order? || Unacked(c, k.o, m.term, m.End())
    ensures reach(c') && Quiet(c', u) && Others(c, c', k.o, k.o) && Seen(k, c', m.term, AppendTo(log, m))
    ensures c'.appendReqs == c.appendReqs && c'.voteReqs == c.voteReqs && Success(k.o, m) in c'.appendReplies
    ensures c'.hist.acks == c.hist.acks + {Ack(k.o, m.term, m.End())}
  {
    c' := Accepts(gap, reach, c, k.o, m);
  }

  lemma RejectsSeen(gap: Gap, reach: State -> bool, k: Cast, c: State, t: nat, log: Entries, m: AppendRequest)
    returns (c': State)
    requires Closed(gap, reach) && reach(c) && Seen(k, c, t, log) && m in c.appendReqs
    requires m.leaderID == m.leaderAddr && t <= m.term && !PrevMatches(log, m)
    ensures reach(c') && Others(c, c', k.o, k.o) && Seen(k, c', m.term, log)
  {
    c' := Rejects(gap, reach, c, k.o, m);
  }

  /** Nothing is noted beyond `end` but for the observer. */
  ghost predicate NextWithin(k: Cast, n: NodeState, end: nat) {
    forall f {:trigger Lookup(n.nextIndex, f)} :: f != k.o ==> Lookup(n.nextIndex, f) <= end
  }

  lemma IsFollowing(k: Cast, n: NodeState, a: Addr, role: Role, t: nat, log: Entries, next: nat, matched: nat,
                    m: AppendRequest, log': Entries)
    requires Is(k, n, a, role, t, log, next, matched) && (|log| <= |log'| || NextWithin(k, n, |log'|))
    ensures Is(k, Follows(n, m).(log := log'), a, Follower, m.term, log', next, matched)
  {
  }

  /** Voter `b` accepts a request. */
  lemma AcceptsHas(gap: Gap, reach: State -> bool, k: Cast, c: State, b: Addr, role: Role, t: nat, log: Entries,
    next: nat, matched: nat,
                   m: AppendRequest, u: nat) returns (c': State)
    requires Closed(gap, reach) && reach(c) && Quiet(c, u) && Has(k, c, b, role, t, log, next, matched)
    requires m in c.appendReqs
    requires m.leaderID == m.leaderAddr && m.leaderCommit == 0 && t <= m.term <= u && PrevMatches(log, m)
    requires |log| <= |AppendTo(log, m)| || NextWithin(k, c.nodes[b], |AppendTo(log, m)|)
    requires Unacked(c, b, m.term, m.End())
    ensures reach(c') && Quiet(c', u) && Others(c, c', b, b)
    ensures Has(k, c', b, Follower, m.term, AppendTo(log, m), next, matched)
    ensures c'.appendReqs == c.appendReqs && c'.voteReqs == c.voteReqs
    ensures c'.appendReplies == c.appendReplies + {Success(b, m)}
    ensures c'.beats == c.beats && c'.hist.acks == c.hist.acks + {Ack(b, m.term, m.End())}
  {
    c' := Accepts(gap, reach, c, b, m);
    IsFollowing(k, c.nodes[b], b, role, t, log, next, matched, m, AppendTo(log, m));
  }

  /** `a` learns that the observer has accepted `m`. */
  lemma LearnsHas(gap: Gap, reach: State -> bool, k: Cast, c: State, a: Addr, t: nat, log: Entries, next: nat,
    matched: nat,
                  m: AppendRequest, u: nat) returns (c': State)
    requires k.o !in k.vs && Closed(gap, reach) && reach(c) && Quiet(c, u)
    requires Has(k, c, a, Leader, t, log, next, matched) && next > 0
    requires Success(k.o, m) in c.appendReplies && m.leaderID == a && m.term <= t && (gap.Replies? || t == m.term)
    ensures reach(c') && Calm(c, c') && Quiet(c', u) && Others(c, c', a, a) && c'.voteReqs == c.voteReqs
    ensures Has(k, c', a, Leader, t, log, m.End() + 1, m.End())
  {
    c' := Learns(gap, reach, c, a, k.o, m, k.vs);
    IsMatched(k, c.nodes[a], a, Leader, t, log, next, matched, m.End());
  }

  // ----- the first scene: `p` leads term 1 -----

  /** Adding a voter, by its address. */
  function Admission(id: NodeID): Command { Membership(MembershipChange(ActionAddVoter, id, id)) }

  const X := Admission("x")
  const Y := Admission("y")

  function LogX(): Entries { Own([SENTINEL], 1, X) }

  function LogY(): Entries { Own([SENTINEL], 2, Y) }

  ghost predicate SceneZero(k: Cast, c: State) {
    && Quiet(c, 0) && Has(k, c, k.p, Follower, 0, [SENTINEL], 0, 0) && Has(k, c, k.q, Follower, 0, [SENTINEL], 0, 0)
    && Has(k, c, k.r, Follower, 0, [SENTINEL], 0, 0) && Seen(k, c, 0, [SENTINEL]) && c.hist.acks == {}
  }

  /** `p` leads term 1 by the votes of `q` and `r`, has admitted the observer and appended an entry. */
  ghost predicate SceneOne(k: Cast, c: State) {
    && Quiet(c, 1) && Has(k, c, k.p, Leader, 1, LogX(), 1, 0) && Has(k, c, k.q, Follower, 1, [SENTINEL], 0, 0)
    && Has(k, c, k.r, Follower, 1, [SENTINEL], 0, 0) && Seen(k, c, 0, [SENTINEL]) && c.hist.acks == {Ack(k.p, 1, 1)}
  }

  lemma StartIsSceneZero(k: Cast)
    requires Four(k)
    ensures SceneZero(k, Start(k))
  {
    StartState(k);
    IsFresh(k, k.p);
    IsFresh(k, k.q);
    IsFresh(k, k.r);
    FreshObserver(k);
  }

  lemma FreshObserver(k: Cast)
    requires Four(k)
    ensures Watches(k, Fresh(k, k.o), 0, [SENTINEL])
  {
  }

  lemma PlayVote(gap: Gap, reach: State -> bool, k: Cast, c0: State) returns (c: State)
    requires Four(k) && !Careful(gap) && Closed(gap, reach) && reach(c0) && SceneZero(k, c0)
    ensures reach(c) && Quiet(c, 1) && Calm(c0, c) && Others(c0, c, k.p, k.q)
    ensures Has(k, c, k.p, Leader, 1, [SENTINEL], 0, 0) && Has(k, c, k.q, Follower, 1, [SENTINEL], 0, 0)
    ensures VoteRequest(1, k.p, 0, 0) in c.voteReqs
  {
    c := ElectHas(gap, reach, k, c0, k.p, 0, [SENTINEL], 0, 0, k.q, 0);
  }

  lemma PlayElection(gap: Gap, reach: State -> bool, k: Cast, c0: State) returns (c: State)
    requires Four(k) && !Careful(gap) && Closed(gap, reach) && reach(c0) && SceneZero(k, c0)
    ensures reach(c) && Quiet(c, 1) && Has(k, c, k.p, Leader, 1, [SENTINEL], 0, 0)
    ensures Has(k, c, k.q, Follower, 1, [SENTINEL], 0, 0)
    ensures Has(k, c, k.r, Follower, 1, [SENTINEL], 0, 0) && Seen(k, c, 0, [SENTINEL]) && c.hist.acks == {}
  {
    var c1 := PlayVote(gap, reach, k, c0);
    c := Hears(gap, reach, k, c1, k.r, Follower, 0, [SENTINEL], 0, 0, VoteRequest(1, k.p, 0, 0), 1);
  }

  lemma PlayAdmission(gap: Gap, reach: State -> bool, k: Cast, c0: State) returns (c: State)
    requires Four(k) && !Careful(gap) && Closed(gap, reach) && reach(c0) && Quiet(c0, 1)
    requires Has(k, c0, k.p, Leader, 1, [SENTINEL], 0, 0)
    ensures reach(c) && Quiet(c, 1) && Others(c0, c, k.p, k.p) && Has(k, c, k.p, Leader, 1, LogX(), 1, 0)
    ensures c.hist.acks == c0.hist.acks + {Ack(k.p, 1, 1)}
  {
    var c1 := AdmitsHas(gap, reach, k, c0, k.p, 1, [SENTINEL], 1);
    c := ProposesHas(gap, reach, k, c1, k.p, Leader, 1, [SENTINEL], 1, 0, X, 1);
  }

  lemma PlaySceneOne(gap: Gap, reach: State -> bool, k: Cast, c0: State) returns (c: State)
    requires Four(k) && !Careful(gap) && Closed(gap, reach) && reach(c0) && SceneZero(k, c0)
    ensures reach(c) && SceneOne(k, c)
  {
    var c1 := PlayElection(gap, reach, k, c0);
    c := PlayAdmission(gap, reach, k, c1);
  }

  /** A leader's matchIndex claims more than the observer, in its term, has. */
  ghost predicate Untrue(c: State, a: Addr, o: Addr) {
    && a in c.nodes && o in c.nodes && c.nodes[a].role == Leader && c.nodes[o].term == c.nodes[a].term
    && Lookup(c.nodes[a].matchIndex, o) > 0
    && !LogMatching.Agree(c.nodes[o].log, c.nodes[a].log, c.nodes[a].matchIndex[o])
  }

  lemma LogsDiffer()
    ensures !LogMatching.Agree(LogX(), LogY(), 1) && |LogX()| == |LogY()| == 2
  {
    assert LogX()[..2][1] == LogX()[1] && LogY()[..2][1] == LogY()[1];
  }

  /** Accepting a leader's whole log from position 1 on. */
  lemma Replaced(log: Entries, a: Addr, t: nat, log': Entries)
    requires log[0] == SENTINEL && log'[0] == SENTINEL && |log'| > 1
    ensures PrevMatches(log, Req(a, t, log', 1)) && AppendTo(log, Req(a, t, log', 1)) == log'
    ensures Req(a, t, log', 1).End() == |log'| - 1
  {
    assert log'[..1] + log'[1..] == log' && log[..1] == [SENTINEL] == log'[..1];
  }

  // ----- requests out of order -----

  function LogXY(): Entries { Own(LogX(), 1, Y) }

  lemma PlayTwoRequests(gap: Gap, reach: State -> bool, k: Cast, c0: State) returns (c: State)
    requires Four(k) && !Careful(gap) && Closed(gap, reach) && reach(c0) && SceneOne(k, c0)
    ensures reach(c) && Quiet(c, 1) && Has(k, c, k.p, Leader, 1, LogXY(), 1, 0) && Seen(k, c, 0, [SENTINEL])
    ensures Req(k.p, 1, LogX(), 1) in c.appendReqs && Req(k.p, 1, LogXY(), 1) in c.appendReqs
  {
    var c1 := BeatsHas(gap, reach, k, c0, k.p, Leader, 1, LogX(), 1, 0, k.o, 1, 1);
    var c2 := ProposesHas(gap, reach, k, c1, k.p, Leader, 1, LogX(), 1, 0, Y, 1);
    c := BeatsHas(gap, reach, k, c2, k.p, Leader, 1, LogXY(), 1, 0, k.o, 1, 1);
  }

  lemma PlayOvertaken(reach: State -> bool, k: Cast, c0: State) returns (c: State)
    requires Four(k) && Closed(Order, reach) && reach(c0) && SceneOne(k, c0)
    ensures reach(c) && Untrue(c, k.p, k.o)
  {
    var late, ahead := Req(k.p, 1, LogX(), 1), Req(k.p, 1, LogXY(), 1);
    var c1 := PlayTwoRequests(Order, reach, k, c0);
    Replaced([SENTINEL], k.p, 1, LogXY());
    Replaced(LogXY(), k.p, 1, LogX());
    var c2 := AcceptsSeen(Order, reach, k, c1, 0, [SENTINEL], ahead, 1);
    var c3 := LearnsHas(Order, reach, k, c2, k.p, 1, LogXY(), 1, 0, ahead, 1);
    c := AcceptsSeen(Order, reach, k, c3, 1, LogXY(), late, 1);
  }

  // ----- what is left of an earlier reign -----

  /** The observer has accepted what `p` sent in term 1. */
  ghost predicate SceneTwo(k: Cast, c: State, next: nat, matched: nat) {
    && Quiet(c, 1) && Has(k, c, k.p, Leader, 1, LogX(), next, matched) && Has(k, c, k.q, Follower, 1, [SENTINEL], 0, 0)
    && Has(k, c, k.r, Follower, 1, [SENTINEL], 0, 0) && Seen(k, c, 1, LogX())
    && Success(k.o, Req(k.p, 1, LogX(), 1)) in c.appendReplies
  }

  lemma PlaySceneTwo(gap: Gap, reach: State -> bool, k: Cast, c0: State) returns (c: State)
    requires Four(k) && !Careful(gap) && Closed(gap, reach) && reach(c0) && SceneOne(k, c0)
    ensures reach(c) && SceneTwo(k, c, 1, 0)
  {
    var c1 := BeatsHas(gap, reach, k, c0, k.p, Leader, 1, LogX(), 1, 0, k.o, 1, 1);
    Replaced([SENTINEL], k.p, 1, LogX());
    c := AcceptsSeen(gap, reach, k, c1, 0, [SENTINEL], Req(k.p, 1, LogX(), 1), 1);
  }

  lemma PlaySecondElection(gap: Gap, reach: State -> bool, k: Cast, c0: State, next: nat, matched: nat)
    returns (c: State)
    requires Four(k) && !Careful(gap) && Closed(gap, reach) && reach(c0) && SceneTwo(k, c0, next, matched)
    ensures reach(c) && Quiet(c, 2) && Calm(c0, c) && Others(c0, c, k.q, k.r)
    ensures Has(k, c, k.q, Follower, 2, [SENTINEL], 0, 0) && Has(k, c, k.r, Leader, 2, [SENTINEL], 0, 0)
    ensures Lookup(c.nodes[k.r].nextIndex, k.p) == 1
    ensures Unacked(c, k.p, 2, 0)
  {
    c := ElectHas(gap, reach, k, c0, k.r, 1, [SENTINEL], 0, 0, k.q, 1);
  }

  lemma PlaySecondLeader(gap: Gap, reach: State -> bool, k: Cast, c0: State, next: nat, matched: nat) returns (c: State)
    requires Four(k) && !Careful(gap) && Closed(gap, reach) && reach(c0) && SceneTwo(k, c0, next, matched)
    ensures reach(c) && Quiet(c, 2) && Has(k, c, k.p, Leader, 1, LogX(), next, matched)
    ensures Has(k, c, k.q, Follower, 2, [SENTINEL], 0, 0)
    ensures Seen(k, c, 1, LogX()) && Success(k.o, Req(k.p, 1, LogX(), 1)) in c.appendReplies
    ensures Has(k, c, k.r, Leader, 2, LogY(), 0, 0) && Lookup(c.nodes[k.r].nextIndex, k.p) == 1 && Unacked(c, k.p, 2, 0)
  {
    var c1 := PlaySecondElection(gap, reach, k, c0, next, matched);
    c := ProposesHas(gap, reach, k, c1, k.r, Leader, 2, [SENTINEL], 0, 0, Y, 2);
  }

  /** `r` leads term 2 and replaces the entry of `p`. */
  lemma PlaySecondReign(gap: Gap, reach: State -> bool, k: Cast, c0: State, next: nat, matched: nat) returns (c: State)
    requires Four(k) && !Careful(gap) && Closed(gap, reach) && reach(c0) && SceneTwo(k, c0, next, matched)
    ensures reach(c) && Quiet(c, 2) && Has(k, c, k.p, Follower, 2, LogY(), next, matched)
    ensures Has(k, c, k.q, Follower, 2, [SENTINEL], 0, 0)
    ensures Seen(k, c, 1, LogX()) && Success(k.o, Req(k.p, 1, LogX(), 1)) in c.appendReplies
  {
    var c1 := PlaySecondLeader(gap, reach, k, c0, next, matched);
    assert k.p in c1.nodes[k.r].members by { assert k.p in Membership.VoterIDs(c1.nodes[k.r].members); }
    var c2 := BeatsHas(gap, reach, k, c1, k.r, Leader, 2, LogY(), 0, 0, k.p, 1, 2);
    Replaced(LogX(), k.r, 2, LogY());
    c := AcceptsHas(gap, reach, k, c2, k.p, Leader, 1, LogX(), next, matched, Req(k.r, 2, LogY(), 1), 2);
  }

  /** `p` leads again and probes the observer with what it believes about it. */
  lemma PlayProbe(gap: Gap, reach: State -> bool, k: Cast, c0: State) returns (c: State)
    requires Four(k) && Closed(gap, reach) && reach(c0) && Quiet(c0, 3)
    requires Has(k, c0, k.p, Leader, 3, LogY(), 2, 1) && Seen(k, c0, 1, LogX())
    ensures reach(c) && Untrue(c, k.p, k.o)
  {
    LogsDiffer();
    var c1 := BeatsHas(gap, reach, k, c0, k.p, Leader, 3, LogY(), 2, 1, k.o, 2, 3);
    c := RejectsSeen(gap, reach, k, c1, 1, LogX(), Req(k.p, 3, LogY(), 2));
  }

  lemma PlayLeftovers(reach: State -> bool, k: Cast, c0: State) returns (c: State)
    requires Four(k) && Closed(Leftovers, reach) && reach(c0) && SceneTwo(k, c0, 1, 0)
    ensures reach(c) && Untrue(c, k.p, k.o)
  {
    var m := Req(k.p, 1, LogX(), 1);
    var c1 := LearnsHas(Leftovers, reach, k, c0, k.p, 1, LogX(), 1, 0, m, 1);
    var c2 := PlaySecondReign(Leftovers, reach, k, c1, 2, 1);
    var c3 := ElectHas(Leftovers, reach, k, c2, k.p, 2, LogY(), 2, 1, k.q, 2);
    c := PlayProbe(Leftovers, reach, k, c3);
  }

  lemma PlayLateReply(reach: State -> bool, k: Cast, c0: State) returns (c: State)
    requires Four(k) && Closed(Replies, reach) && reach(c0) && SceneTwo(k, c0, 1, 0)
    ensures reach(c) && Untrue(c, k.p, k.o)
  {
    var m := Req(k.p, 1, LogX(), 1);
    var c1 := PlaySecondReign(Replies, reach, k, c0, 1, 0);
    var c2 := ElectHas(Replies, reach, k, c1, k.p, 2, LogY(), 1, 0, k.q, 2);
    var c3 := LearnsHas(Replies, reach, k, c2, k.p, 3, LogY(), 1, 0, m, 3);
    c := PlayProbe(Replies, reach, k, c3);
  }

  // ----- a deposed leader that goes on -----

  /** `r` leads term 2; `p` has heard of it and follows nobody. */
  ghost predicate Deposed(k: Cast, c: State) {
    && Quiet(c, 2) && Has(k, c, k.p, Follower, 2, LogX(), 1, 0) && Has(k, c, k.r, Leader, 2, [SENTINEL], 0, 0)
    && Seen(k, c, 0, [SENTINEL]) && Unacked(c, k.o, 2, 0)
  }

  lemma PlayDeposed(gap: Gap, reach: State -> bool, k: Cast, c0: State) returns (c: State)
    requires Four(k) && !Careful(gap) && Closed(gap, reach) && reach(c0) && SceneOne(k, c0)
    ensures reach(c) && Deposed(k, c)
  {
    var c1 := ElectHas(gap, reach, k, c0, k.r, 1, [SENTINEL], 0, 0, k.q, 1);
    c := Hears(gap, reach, k, c1, k.p, Leader, 1, LogX(), 1, 0, VoteRequest(2, k.r, 0, 0), 2);
  }

  lemma PlayNewLeader(gap: Gap, reach: State -> bool, k: Cast, c0: State) returns (c: State)
    requires Four(k) && !Careful(gap) && Closed(gap, reach) && reach(c0) && Deposed(k, c0)
    ensures reach(c) && Quiet(c, 2) && Has(k, c, k.p, Follower, 2, LogX(), 1, 0)
    ensures Has(k, c, k.r, Leader, 2, LogY(), 1, 0)
    ensures Seen(k, c, 0, [SENTINEL]) && Unacked(c, k.o, 2, 0)
  {
    var c1 := AdmitsHas(gap, reach, k, c0, k.r, 2, [SENTINEL], 2);
    c := ProposesHas(gap, reach, k, c1, k.r, Leader, 2, [SENTINEL], 1, 0, Y, 2);
  }

  lemma PlayAcked(gap: Gap, reach: State -> bool, k: Cast, c0: State) returns (c: State)
    requires Four(k) && !Careful(gap) && Closed(gap, reach) && reach(c0) && Quiet(c0, 2) && Unacked(c0, k.o, 2, 0)
    requires Has(k, c0, k.p, Follower, 2, LogX(), 1, 0) && Has(k, c0, k.r, Leader, 2, LogY(), 1, 0)
    requires Seen(k, c0, 0, [SENTINEL])
    ensures reach(c) && Quiet(c, 2) && Unacked(c, k.o, 2, 1)
    ensures Has(k, c, k.p, Follower, 2, LogX(), 1, 0) && Has(k, c, k.r, Leader, 2, LogY(), 2, 1)
    ensures Seen(k, c, 2, LogY())
  {
    var m := Req(k.r, 2, LogY(), 1);
    var c1 := BeatsHas(gap, reach, k, c0, k.r, Leader, 2, LogY(), 1, 0, k.o, 1, 2);
    Replaced([SENTINEL], k.r, 2, LogY());
    var c2 := AcceptsSeen(gap, reach, k, c1, 0, [SENTINEL], m, 2);
    c := LearnsHas(gap, reach, k, c2, k.r, 2, LogY(), 1, 0, m, 2);
  }

  lemma PlayDeposedSend(reach: State -> bool, k: Cast, c0: State) returns (c: State)
    requires Four(k) && Closed(Sends, reach) && reach(c0) && Deposed(k, c0)
    ensures reach(c) && Untrue(c, k.r, k.o)
  {
    var c1 := PlayNewLeader(Sends, reach, k, c0);
    var c2 := PlayAcked(Sends, reach, k, c1);
    var c3 := BeatsHas(Sends, reach, k, c2, k.p, Follower, 2, LogX(), 1, 0, k.o, 1, 2);
    Replaced(LogY(), k.p, 2, LogX());
    c := AcceptsSeen(Sends, reach, k, c3, 2, LogY(), Req(k.p, 2, LogX(), 1), 2);
    LogsDiffer();
  }

  /** Two logs hold entries of equal index and term and differ up to them. */
  ghost predicate Mismatch(c: State, a: Addr, b: Addr, i: nat) {
    && a in c.nodes && b in c.nodes && i < |c.nodes[a].log| && i < |c.nodes[b].log|
    && c.nodes[a].log[i].term == c.nodes[b].log[i].term && c.nodes[a].log[..i + 1] != c.nodes[b].log[..i + 1]
  }

  lemma PlayDeposedAppend(reach: State -> bool, k: Cast, c0: State) returns (c: State)
    requires Four(k) && Closed(Appends, reach) && reach(c0) && Deposed(k, c0)
    ensures reach(c) && Mismatch(c, k.p, k.r, 2)
  {
    var c1 := ProposesHas(Appends, reach, k, c0, k.r, Leader, 2, [SENTINEL], 0, 0, Y, 2);
    var c2 := ProposesHas(Appends, reach, k, c1, k.r, Leader, 2, LogY(), 0, 0, Y, 2);
    c := ProposesHas(Appends, reach, k, c2, k.p, Follower, 2, LogX(), 1, 0, X, 2);
    var x, y := Own(LogX(), 2, X), Own(LogY(), 2, Y);
    assert x[..3][2] == x[2] && y[..3][2] == y[2];
  }

  // ----- nextIndex beyond the log -----

  lemma PlayTwoEntries(reach: State -> bool, k: Cast, c0: State) returns (c: State)
    requires Four(k) && Closed(Ahead, reach) && reach(c0) && Quiet(c0, 1)
    requires Has(k, c0, k.p, Leader, 1, [SENTINEL], 0, 0)
    requires c0.hist.acks == {}
    ensures reach(c) && Quiet(c, 1) && Has(k, c, k.p, Leader, 1, LogXY(), 0, 0) && NextWithin(k, c.nodes[k.p], 1)
    ensures Others(c0, c, k.p, k.p) && Unacked(c, k.p, 2, 0)
  {
    assert NextWithin(k, c0.nodes[k.p], 1);
    var c1 := ProposesHas(Ahead, reach, k, c0, k.p, Leader, 1, [SENTINEL], 0, 0, X, 1);
    c := ProposesHas(Ahead, reach, k, c1, k.p, Leader, 1, LogX(), 0, 0, Y, 1);
  }

  /** `p`, with two entries, admits the observer, so that nextIndex points past both. */
  lemma PlayLongLog(reach: State -> bool, k: Cast, c0: State) returns (c: State)
    requires Four(k) && Closed(Ahead, reach) && reach(c0) && Quiet(c0, 1)
    requires Has(k, c0, k.p, Leader, 1, [SENTINEL], 0, 0)
    requires c0.hist.acks == {}
    ensures reach(c) && Quiet(c, 1) && Has(k, c, k.p, Leader, 1, LogXY(), 3, 0) && NextWithin(k, c.nodes[k.p], 1)
    ensures Others(c0, c, k.p, k.p) && Unacked(c, k.p, 2, 0)
  {
    var c1 := PlayTwoEntries(reach, k, c0);
    c := AdmitsHas(Ahead, reach, k, c1, k.p, 1, LogXY(), 1);
  }

  /** `r` leads term 2 and replaces the two entries of `p` by one. */
  lemma PlayShorter(reach: State -> bool, k: Cast, c0: State) returns (c: State)
    requires Four(k) && Closed(Ahead, reach) && reach(c0) && Quiet(c0, 1) && Has(k, c0, k.p, Leader, 1, LogXY(), 3, 0)
    requires NextWithin(k, c0.nodes[k.p], 1) && Has(k, c0, k.q, Follower, 1, [SENTINEL], 0, 0)
    requires Has(k, c0, k.r, Follower, 1, [SENTINEL], 0, 0) && Unacked(c0, k.p, 2, 0)
    ensures reach(c) && Quiet(c, 2) && Has(k, c, k.p, Follower, 2, LogY(), 3, 0)
    ensures Has(k, c, k.q, Follower, 2, [SENTINEL], 0, 0)
  {
    var c1 := ElectHas(Ahead, reach, k, c0, k.r, 1, [SENTINEL], 0, 0, k.q, 1);
    var c2 := ProposesHas(Ahead, reach, k, c1, k.r, Leader, 2, [SENTINEL], 0, 0, Y, 2);
    assert k.p in c2.nodes[k.r].members by { assert k.p in Membership.VoterIDs(c2.nodes[k.r].members); }
    var c3 := BeatsHas(Ahead, reach, k, c2, k.r, Leader, 2, LogY(), 0, 0, k.p, 1, 2);
    Replaced(LogXY(), k.r, 2, LogY());
    assert NextWithin(k, c3.nodes[k.p], 2);
    c := AcceptsHas(Ahead, reach, k, c3, k.p, Leader, 1, LogXY(), 3, 0, Req(k.r, 2, LogY(), 1), 2);
  }

  /** The next request of leader `a` for `o` starts beyond the end of its log. */
  ghost predicate Overshoots(c: State, a: Addr, o: Addr) {
    && a in c.nodes && c.nodes[a].role == Leader && o in Membership.PeerAddrs(c.nodes[a].members, c.nodes[a].id)
    && MakeAppendRequest(c.nodes[a], o, c.nodes[a].term, c.nodes[a].commitIndex).prevIndex >= |c.nodes[a].log|
  }

  lemma PlayAhead(reach: State -> bool, k: Cast, c0: State) returns (c: State)
    requires Four(k) && Closed(Ahead, reach) && reach(c0) && SceneZero(k, c0)
    ensures reach(c) && Overshoots(c, k.p, k.o)
  {
    var c1 := PlayElection(Ahead, reach, k, c0);
    var c2 := PlayLongLog(reach, k, c1);
    var c3 := PlayShorter(reach, k, c2);
    c := PlayOvershoot(reach, k, c3);
  }

  lemma PlayOvershoot(reach: State -> bool, k: Cast, c0: State) returns (c: State)
    requires Four(k) && Closed(Ahead, reach) && reach(c0) && Quiet(c0, 2)
    requires Has(k, c0, k.p, Follower, 2, LogY(), 3, 0) && Has(k, c0, k.q, Follower, 2, [SENTINEL], 0, 0)
    ensures reach(c) && Overshoots(c, k.p, k.o)
  {
    c := ElectHas(Ahead, reach, k, c0, k.p, 2, LogY(), 3, 0, k.q, 2);
    assert c.nodes[k.p].members[k.o].addr == k.o;
  }

  // ----- the theorems -----

  ghost function Rule(gap: Gap): (State, Step) -> bool { (c, s) => AllBut(gap, c, s) }

  ghost function Reach(gap: Gap, c0: State): State -> bool { c => Reaches(c0, c, Rule(gap)) }

  lemma ReachClosed(gap: Gap, c0: State)
    ensures Closed(gap, Reach(gap, c0)) && Reach(gap, c0)(c0)
  {
    ReachesStart(c0, Rule(gap));
    forall c, s | Reach(gap, c0)(c) && Enabled(c, s) && AllBut(gap, c, s) ensures Taken(Reach(gap, c0), c, s) {
      ReachesMore(c0, c, Rule(gap), s);
    }
  }

  lemma OpeningScene(gap: Gap, k: Cast) returns (c: State)
    requires Four(k) && !Careful(gap)
    ensures Closed(gap, Reach(gap, Start(k))) && Reach(gap, Start(k))(c) && SceneOne(k, c)
  {
    ReachClosed(gap, Start(k));
    StartIsSceneZero(k);
    c := PlaySceneOne(gap, Reach(gap, Start(k)), k, Start(k));
  }

  /** Requests of a term accepted out of order: a follower loses what its leader counts it for. */
  lemma OrderIsNeeded(k: Cast)
    requires Four(k)
    ensures exists c :: Reaches(Start(k), c, Rule(Order)) && Untrue(c, k.p, k.o)
  {
    var c1 := OpeningScene(Order, k);
    var c := PlayOvertaken(Reach(Order, Start(k)), k, c1);
  }

  /** matchIndex left over from an earlier reign: becomeLeader resets it for voters only. */
  lemma FreshMatchIsNeeded(k: Cast)
    requires Four(k)
    ensures exists c :: Reaches(Start(k), c, Rule(Leftovers)) && Untrue(c, k.p, k.o)
  {
    var c1 := OpeningScene(Leftovers, k);
    var c2 := PlaySceneTwo(Leftovers, Reach(Leftovers, Start(k)), k, c1);
    var c := PlayLeftovers(Reach(Leftovers, Start(k)), k, c2);
  }

  /** A success reply handled in a later reign of the same node. */
  lemma ReplyInReignIsNeeded(k: Cast)
    requires Four(k)
    ensures exists c :: Reaches(Start(k), c, Rule(Replies)) && Untrue(c, k.p, k.o)
  {
    var c1 := OpeningScene(Replies, k);
    var c2 := PlaySceneTwo(Replies, Reach(Replies, Start(k)), k, c1);
    var c := PlayLateReply(Reach(Replies, Start(k)), k, c2);
  }

  /** A deposed leader whose ticker fires once more, in the term of its successor. */
  lemma LeaderSendsIsNeeded(k: Cast)
    requires Four(k)
    ensures exists c :: Reaches(Start(k), c, Rule(Sends)) && Untrue(c, k.r, k.o)
  {
    var c1 := OpeningScene(Sends, k);
    var c2 := PlayDeposed(Sends, Reach(Sends, Start(k)), k, c1);
    var c := PlayDeposedSend(Reach(Sends, Start(k)), k, c2);
  }

  /** A deposed leader that finishes appendAndWaitCommit in the term of its successor. */
  lemma LeaderAppendsIsNeeded(k: Cast)
    requires Four(k)
    ensures exists c :: Reaches(Start(k), c, Rule(Appends)) && Mismatch(c, k.p, k.r, 2)
  {
    var c1 := OpeningScene(Appends, k);
    var c2 := PlayDeposed(Appends, Reach(Appends, Start(k)), k, c1);
    var c := PlayDeposedAppend(Reach(Appends, Start(k)), k, c2);
  }

  /** nextIndex left over from an earlier reign with a longer log. */
  lemma FreshNextIsNeeded(k: Cast)
    requires Four(k)
    ensures exists c :: Reaches(Start(k), c, Rule(Ahead)) && Overshoots(c, k.p, k.o)
  {
    ReachClosed(Ahead, Start(k));
    StartIsSceneZero(k);
    var c := PlayAhead(Reach(Ahead, Start(k)), k, Start(k));
  }
}
