/** Several Raft nodes exchanging messages, as a step-by-step state machine.

    Every stretch of code that holds a node's mutex is one step, so all interleavings of those stretches
    are runs.  Sent messages stay in a set: they may be delivered late, repeatedly, out of order or never.
    The looseness of the code is kept: nothing here checks that a node still leads, or that a reply
    belongs to the current term, unless the code does. */
module Cluster {
  import opened RaftTypes
  import opened RaftNode
  import Membership

  /** Local variables of a running runCandidate call. */
  datatype Campaign = Campaign(term: nat, needed: nat, peers: set<Addr>, granted: set<Addr>)

  /** What a broadcastHeartbeat call reads before it starts its goroutines. */
  datatype Beat = Beat(term: nat, commit: nat)

  datatype VoteReply = VoteReply(from: Addr, req: VoteRequest, resp: VoteResponse)

  datatype AppendReply = AppendReply(from: Addr, req: AppendRequest, resp: AppendResponse)

  // ----- history: written by the steps, read by none of them -----

  /** A vote: for whom, the voter's log when voting, and the log end the candidate claimed. */
  datatype Ballot = Ballot(candidate: NodeID, log: Entries, lastIndex: nat, lastTerm: nat)

  /** The first node to become leader in a term, its log at that moment and who voted for it. */
  datatype Win = Win(addr: Addr, log: Entries, voters: set<Addr>)

  /** Node `addr` has held its leader's log through `end` in `term`. */
  datatype Ack = Ack(addr: Addr, term: nat, end: nat)

  /** Per term, its first leader, and that leader's log as long as it has grown in the term. */
  datatype Reigns = Reigns(leaders: map<nat, Win>, termLog: map<nat, Entries>)

  /** `wins` collects every (term, node) that ever became leader. */
  datatype History = History(
    ballots: map<(Addr, nat), Ballot>,
    wins: set<(nat, Addr)>,
    reigns: Reigns,
    acks: set<Ack>)

  datatype State = State(
    nodes: map<Addr, NodeState>,
    campaigns: map<Addr, Campaign>,
    beats: set<(Addr, Beat)>,
    voteReqs: set<VoteRequest>,
    voteReplies: set<VoteReply>,
    appendReqs: set<AppendRequest>,
    appendReplies: set<AppendReply>,
    hist: History)

  datatype Step =
    | Timeout(a: Addr)
    | StartCampaign(a: Addr)
    | SendVote(a: Addr)
    | RecvVote(a: Addr, voteReq: VoteRequest)
    | RecvVoteReply(a: Addr, voteReply: VoteReply)
    | CountVote(a: Addr, voteReply: VoteReply)
    | TakeLead(a: Addr)
    | EndCampaign(a: Addr, heartbeat: bool)
    | StartBeat(a: Addr)
    | SendAppend(a: Addr, to: Addr, beat: Beat)
    | RecvAppend(a: Addr, appendReq: AppendRequest, pick: NodeID)
    | RecvAppendReply(a: Addr, appendReply: AppendReply)
    | Propose(a: Addr, command: Command)
    | Join(a: Addr, newID: NodeID, newAddr: Addr)

  /** Node `s.a` may take step `s` in the code as it stands. */
  ghost predicate Enabled(c: State, s: Step) {
    s.a in c.nodes &&
    var n := c.nodes[s.a];
    match s
    case Timeout(a) => a !in c.campaigns && n.role == Follower && n.id in Membership.VoterIDs(n.members)
    case StartCampaign(a) => a !in c.campaigns && n.role != Leader
    case SendVote(a) => a in c.campaigns
    case RecvVote(a, req) => req in c.voteReqs
    case RecvVoteReply(a, reply) => reply in c.voteReplies && reply.req.candidateID == n.id
    case CountVote(a, reply) =>
      && a in c.campaigns && reply in c.voteReplies && reply.resp.granted
      && reply.req.candidateID == n.id && reply.req.term == c.campaigns[a].term
      && reply.from in c.campaigns[a].peers
    case TakeLead(a) =>
      // votes are only looked at when a granted reply arrives
      && a in c.campaigns && c.campaigns[a].granted != {}
      && 1 + |c.campaigns[a].granted| >= c.campaigns[a].needed
    case EndCampaign(a, _) => a in c.campaigns
    case StartBeat(a) => true
    case SendAppend(a, to, beat) => (a, beat) in c.beats && to in Membership.PeerAddrs(n.members, n.id)
    case RecvAppend(a, req, pick) =>
      req in c.appendReqs && Membership.ValidPick(n.members, req.leaderAddr, req.leaderID, pick)
    case RecvAppendReply(a, reply) => reply in c.appendReplies && reply.req.leaderID == n.id
    case Propose(a, command) => command.Membership? ==> n.mode == Dynamic
    case Join(a, _, _) => n.mode == Dynamic
  }

  // ----- the effect of each step -----

  function Put(c: State, n: NodeState, a: Addr): State { c.(nodes := c.nodes[a := n]) }

  function Vote(h: History, voter: Addr, term: nat, b: Ballot): History {
    if (voter, term) in h.ballots then h else h.(ballots := h.ballots[(voter, term) := b])
  }

  function Enthrone(r: Reigns, term: nat, w: Win): Reigns {
    if term in r.leaders then r else Reigns(r.leaders[term := w], r.termLog[term := w.log])
  }

  function Extend(r: Reigns, term: nat, log: Entries): Reigns { r.(termLog := r.termLog[term := log]) }

  function DoStartCampaign(c: State, a: Addr): State
    requires a in c.nodes
  {
    var n := StartElection(c.nodes[a]);
    c.(nodes := c.nodes[a := n],
       campaigns := c.campaigns[a := Campaign(n.term, Membership.QuorumSize(n.members),
                                              Membership.PeerVoters(n.members, n.id), {})],
       hist := Vote(c.hist, a, n.term, Ballot(n.id, n.log, LastIndex(n.log), LastTerm(n.log))))
  }

  function DoRecvVote(c: State, a: Addr, req: VoteRequest): State
    requires a in c.nodes
  {
    var (n, resp) := HandleVoteRequest(c.nodes[a], req);
    c.(nodes := c.nodes[a := n],
       voteReplies := c.voteReplies + {VoteReply(a, req, resp)},
       hist := if resp.granted
               then Vote(c.hist, a, req.term, Ballot(req.candidateID, n.log, req.lastLogIndex, req.lastLogTerm))
               else c.hist)
  }

  function DoTakeLead(c: State, a: Addr): State
    requires a in c.nodes && a in c.campaigns
  {
    var n := BecomeLeader(c.nodes[a]);
    var h := c.hist.(wins := c.hist.wins + {(n.term, a)});
    c.(nodes := c.nodes[a := n],
       campaigns := c.campaigns - {a},
       hist := h.(reigns := Enthrone(h.reigns, n.term, Win(a, n.log, c.campaigns[a].granted + {a}))))
  }

  function DoSendAppend(c: State, a: Addr, to: Addr, beat: Beat): State
    requires a in c.nodes
  {
    c.(nodes := c.nodes[a := NoteNext(c.nodes[a], to)],
       appendReqs := c.appendReqs + {MakeAppendRequest(c.nodes[a], to, beat.term, beat.commit)})
  }

  function DoRecvAppend(c: State, a: Addr, req: AppendRequest, pick: NodeID): State
    requires a in c.nodes
  {
    var (n, resp) := HandleAppendEntries(c.nodes[a], req, pick);
    c.(nodes := c.nodes[a := n],
       appendReplies := c.appendReplies + {AppendReply(a, req, resp)},
       hist := if resp.success then c.hist.(acks := c.hist.acks + {Ack(a, req.term, req.End())}) else c.hist)
  }

  function DoPropose(c: State, a: Addr, command: Command): State
    requires a in c.nodes
  {
    var n := AppendOwn(c.nodes[a], command);
    c.(nodes := c.nodes[a := n],
       hist := c.hist.(reigns := Extend(c.hist.reigns, n.term, n.log),
                       acks := c.hist.acks + {Ack(a, n.term, LastIndex(n.log))}))
  }

  ghost function Apply(c: State, s: Step): State
    requires Enabled(c, s)
  {
    var n := c.nodes[s.a];
    match s
    case Timeout(a) => Put(c, n.(role := Candidate), a)
    case StartCampaign(a) => DoStartCampaign(c, a)
    case SendVote(a) => c.(voteReqs := c.voteReqs + {MakeVoteRequest(n, c.campaigns[a].term)})
    case RecvVote(a, req) => DoRecvVote(c, a, req)
    case RecvVoteReply(a, reply) => Put(c, NoticeTerm(n, reply.resp.term), a)
    case CountVote(a, reply) =>
      c.(campaigns := c.campaigns[a := c.campaigns[a].(granted := c.campaigns[a].granted + {reply.from})])
    case TakeLead(a) => DoTakeLead(c, a)
    case EndCampaign(a, heartbeat) =>
      Put(c, if heartbeat then n.(role := Follower) else n, a).(campaigns := c.campaigns - {a})
    case StartBeat(a) => c.(beats := c.beats + {(a, Beat(n.term, n.commitIndex))})
    case SendAppend(a, to, beat) => DoSendAppend(c, a, to, beat)
    case RecvAppend(a, req, pick) => DoRecvAppend(c, a, req, pick)
    case RecvAppendReply(a, reply) => Put(c, HandleAppendReply(n, reply.from, reply.req, reply.resp), a)
    case Propose(a, command) => DoPropose(c, a, command)
    case Join(a, newID, newAddr) => if n.role == Leader then Put(c, AdmitObserver(n, newID, newAddr), a) else c
  }

  /** A step changes no node but the one that takes it. */
  lemma StepTouchesOne(c: State, s: Step)
    requires Enabled(c, s)
    ensures s.a in Apply(c, s).nodes && Apply(c, s).nodes == c.nodes[s.a := Apply(c, s).nodes[s.a]]
  {
    match s
    case StartCampaign(a) =>
    case RecvVote(a, req) =>
    case Join(a, _, _) =>
    case _ =>
  }

  /** Steps that touch neither a log, a request, an acknowledgement nor a reign. */
  predicate Small(s: Step) {
    s.Timeout? || s.StartCampaign? || s.SendVote? || s.RecvVote? || s.RecvVoteReply? || s.CountVote?
    || s.EndCampaign? || s.StartBeat? || s.Join?
  }

  /** What a small step leaves alone. */
  lemma SmallStepFrame(c: State, s: Step)
    requires Enabled(c, s) && Small(s)
    ensures var c' := Apply(c, s);
      && s.a in c'.nodes && c'.nodes == c.nodes[s.a := c'.nodes[s.a]]
      && c'.hist.reigns == c.hist.reigns && c'.hist.acks == c.hist.acks && c'.hist.wins == c.hist.wins
      && c'.appendReqs == c.appendReqs && c'.appendReplies == c.appendReplies
      && c'.campaigns.Keys <= c.campaigns.Keys + {s.a}
    ensures var n, n' := c.nodes[s.a], Apply(c, s).nodes[s.a];
      && n'.log == n.log && n'.id == n.id && n'.addr == n.addr && n'.mode == n.mode
      && n'.commitIndex == n.commitIndex && n'.lastApplied == n.lastApplied && n'.applied == n.applied
      && n'.term >= n.term && (n'.role == Leader ==> n'.term == n.term && n.role == Leader)
      && (!s.Join? ==> n'.members == n.members && n'.matchIndex == n.matchIndex)
      && (s.a in Apply(c, s).campaigns ==> n'.term > n.term || s.a in c.campaigns)
  {
    match s
    case StartCampaign(a) =>
    case RecvVote(a, req) =>
    case Join(a, _, _) =>
    case _ =>
  }

  // ----- configurations and initial states -----

  /** The cluster's addresses and the ID configured at each. */
  type Config = map<Addr, NodeID>

  /** IDs are distinct, none is empty, and none is another node's address, which that node's peers
      use as a placeholder ID. */
  predicate ValidConfig(conf: Config) {
    && (forall a :: a in conf ==> a != "" && conf[a] != "")
    && (forall a, b :: a in conf && b in conf && a != b ==> conf[a] != conf[b] && conf[a] != b)
  }

  const NO_HISTORY := History(map[], {}, Reigns(map[], map[0 := [SENTINEL]]), {})

  /** Fresh nodes, each with a peer list of its own: a joining node need not know the others, nor they it. */
  function InitWith(conf: Config, mode: Mode, peers: map<Addr, set<Addr>>): State {
    State(map a | a in conf ::
      NewNode(conf[a], a, mode, if a in peers then peers[a] else {}), map[], {}, {}, {}, {}, {}, NO_HISTORY)
  }

  /** Everyone's peer list names everyone else. */
  function AllPeers(conf: Config): map<Addr, set<Addr>> { map a | a in conf :: conf.Keys - {a} }

  function Init(conf: Config, mode: Mode): State { InitWith(conf, mode, AllPeers(conf)) }

  // ----- runs -----

  /** `steps` can be taken one after the other from `c`, each allowed by `rule`. */
  ghost predicate Run(c: State, steps: seq<Step>, rule: (State, Step) -> bool)
    decreases |steps|
  {
    steps == [] || (Enabled(c, steps[0]) && rule(c, steps[0]) && Run(Apply(c, steps[0]), steps[1..], rule))
  }

  ghost function After(c: State, steps: seq<Step>, rule: (State, Step) -> bool): State
    requires Run(c, steps, rule)
    decreases |steps|
  {
    if steps == [] then c else After(Apply(c, steps[0]), steps[1..], rule)
  }

  /** Some run under `rule` leads from `c0` to `c`. */
  ghost predicate Reaches(c0: State, c: State, rule: (State, Step) -> bool) {
    exists steps :: Run(c0, steps, rule) && After(c0, steps, rule) == c
  }

  /** The rule of the code as it stands: whatever is enabled may happen. */
  ghost predicate AnyStep(c: State, s: Step) { true }

  /** One more step at the end of a run. */
  lemma {:induction false} RunMore(c: State, steps: seq<Step>, rule: (State, Step) -> bool, s: Step)
    requires Run(c, steps, rule) && Enabled(After(c, steps, rule), s) && rule(After(c, steps, rule), s)
    ensures Run(c, steps + [s], rule) && After(c, steps + [s], rule) == Apply(After(c, steps, rule), s)
    decreases |steps|
  {
    if steps == [] {
      assert [s][1..] == [];
      assert Run(Apply(c, s), [], rule);
      assert steps + [s] == [s];
    } else {
      assert (steps + [s])[1..] == steps[1..] + [s];
      RunMore(Apply(c, steps[0]), steps[1..], rule, s);
    }
  }

  lemma ReachesMore(c0: State, c: State, rule: (State, Step) -> bool, s: Step)
    requires Reaches(c0, c, rule) && Enabled(c, s) && rule(c, s)
    ensures Reaches(c0, Apply(c, s), rule)
  {
    var steps :| Run(c0, steps, rule) && After(c0, steps, rule) == c;
    RunMore(c0, steps, rule, s);
  }

  lemma ReachesStart(c: State, rule: (State, Step) -> bool)
    ensures Reaches(c, c, rule)
  {
    assert Run(c, [], rule) && After(c, [], rule) == c;
  }
}
