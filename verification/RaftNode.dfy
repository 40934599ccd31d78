/** What one Raft node does with one event, as functions on its state.  Each corresponds to code that
    runs under the node's mutex; module RaftObjects proves that the imperative form computes it. */
module RaftNode {
  import opened RaftTypes
  import Membership

  /** The fields of a node.  `applied` is what has been handed to the state machine so far. */
  datatype NodeState = NodeState(
    id: NodeID, addr: Addr, mode: Mode,
    role: Role, term: nat, votedFor: NodeID,
    log: Entries, commitIndex: nat, lastApplied: nat,
    leaderID: NodeID, leaderAddr: Addr,
    nextIndex: map<Addr, nat>, matchIndex: map<Addr, nat>,
    members: Members, applied: seq<LogEntry>)

  /** A node as NewNode builds it: itself a voter, and every peer a voter under its address. */
  function NewNode(id: NodeID, addr: Addr, mode: Mode, peers: set<Addr>): NodeState {
    NodeState(id, addr, mode, Follower, 0, "", [SENTINEL], 0, 0, "", "", map[], map[],
      map[id := Member(id, addr, Voter)] + (map p | p in peers :: Member(p, p, Voter)), [])
  }

  // ----- votes -----

  /** A log ending in (index, term) is at least as up to date as `log`. */
  predicate UpToDate(index: nat, term: nat, log: Entries) {
    term > LastTerm(log) || (term == LastTerm(log) && index >= LastIndex(log))
  }

  /** Adopting a higher term: a follower that has not voted. */
  function StepDown(n: NodeState, term: nat): NodeState {
    n.(term := term, role := Follower, votedFor := "")
  }

  function HandleVoteRequest(n: NodeState, req: VoteRequest): (NodeState, VoteResponse) {
    if req.term < n.term then (n, VoteResponse(n.term, false))
    else
      var n1 := if req.term > n.term then StepDown(n, req.term) else n;
      if (n1.votedFor == "" || n1.votedFor == req.candidateID) && UpToDate(req.lastLogIndex, req.lastLogTerm, n1.log)
      then (n1.(votedFor := req.candidateID), VoteResponse(n1.term, true))
      else (n1, VoteResponse(n.term, false))
  }

  /** The first lines of runCandidate: a new term, voting for oneself. */
  function StartElection(n: NodeState): NodeState {
    n.(term := n.term + 1, votedFor := n.id)
  }

  function MakeVoteRequest(n: NodeState, term: nat): VoteRequest {
    VoteRequest(term, n.id, LastIndex(n.log), LastTerm(n.log))
  }

  /** A reply carrying a higher term makes the node step down. */
  function NoticeTerm(n: NodeState, term: nat): NodeState {
    if term > n.term then StepDown(n, term) else n
  }

  /** `m` with the value of every key in `keys` set to `v`. */
  function SetFor<K>(m: map<K, nat>, keys: set<K>, v: nat): map<K, nat> { m + (map a | a in keys :: v) }

  function BecomeLeader(n: NodeState): NodeState {
    var peers := Membership.PeerVoters(n.members, n.id);
    n.(role := Leader, leaderID := n.id, leaderAddr := n.addr,
       nextIndex := SetFor(n.nextIndex, peers, |n.log|),
       matchIndex := SetFor(n.matchIndex, peers, 0))
  }

  // ----- applying -----

  /** Applying the entry at `lastApplied`; an index the log does not hold is skipped. */
  function ApplyEntry(n: NodeState): NodeState {
    if n.lastApplied < |n.log| then
      var e := n.log[n.lastApplied];
      var n1 := n.(applied := n.applied + [e]);
      if e.command.Membership? then ApplyMembership(n1, e.command.change) else n1
    else n
  }

  function ApplyMembership(n: NodeState, mc: MembershipChange): NodeState {
    var n1 := n.(members := Membership.ApplyChange(n.members, mc));
    if mc.action.ActionRemoveVoter? && mc.nodeID == n.id then n1.(role := Follower) else n1
  }

  function ApplyCommitted(n: NodeState): NodeState
    decreases n.commitIndex - n.lastApplied
  {
    if n.lastApplied < n.commitIndex
    then ApplyCommitted(ApplyEntry(n.(lastApplied := n.lastApplied + 1)))
    else n
  }

  // ----- following a leader -----

  /** The part of handleAppendEntries before the consistency check, for a request that is not stale. */
  function FollowLeader(n: NodeState, req: AppendRequest, pick: NodeID): NodeState {
    n.(term := req.term, votedFor := if req.term > n.term then "" else n.votedFor,
       role := Follower, leaderID := req.leaderID, leaderAddr := req.leaderAddr,
       members := if req.leaderID != "" && req.leaderAddr != ""
                  then Membership.UpdateID(n.members, req.leaderAddr, req.leaderID, pick)
                  else n.members)
  }

  /** The consistency check at prevIndex. */
  predicate PrevMatches(log: Entries, req: AppendRequest) {
    req.prevIndex == 0 || (req.prevIndex < |log| && log[req.prevIndex].term == req.prevTerm)
  }

  /** The log after an accepted request: everything past prevIndex is dropped when entries arrive. */
  function AppendTo(log: Entries, req: AppendRequest): Entries
    requires PrevMatches(log, req)
  {
    if |req.entries| > 0 then log[..req.prevIndex + 1] + req.entries else log
  }

  function AdoptCommit(n: NodeState, leaderCommit: nat): NodeState {
    if leaderCommit > n.commitIndex
    then ApplyCommitted(n.(commitIndex := if leaderCommit < LastIndex(n.log) then leaderCommit else LastIndex(n.log)))
    else n
  }

  function HandleAppendEntries(n: NodeState, req: AppendRequest, pick: NodeID): (NodeState, AppendResponse) {
    if req.term < n.term then (n, AppendResponse(n.term, false, 0))
    else
      var n1 := FollowLeader(n, req, pick);
      if PrevMatches(n1.log, req)
      then (AdoptCommit(n1.(log := AppendTo(n1.log, req)), req.leaderCommit), AppendResponse(req.term, true, 0))
      else (n1, AppendResponse(n.term, false, |n1.log|))
  }

  // ----- leading -----

  /** nextIndex for `to`, defaulted to just past the log when unset. */
  function NextFor(n: NodeState, to: Addr): nat {
    if Lookup(n.nextIndex, to) == 0 then |n.log| else n.nextIndex[to]
  }

  function NoteNext(n: NodeState, to: Addr): NodeState {
    n.(nextIndex := if Lookup(n.nextIndex, to) == 0 then n.nextIndex[to := |n.log|] else n.nextIndex)
  }

  /** The request that one heartbeat goroutine builds, with the term and commit index it was given. */
  function MakeAppendRequest(n: NodeState, to: Addr, term: nat, commit: nat): AppendRequest {
    var next := NextFor(n, to);
    AppendRequest(term, n.id, n.addr, next - 1,
      if next - 1 < |n.log| then n.log[next - 1].term else 0,
      if next < |n.log| then n.log[next..] else [],
      commit)
  }

  function AppendOwn(n: NodeState, command: Command): NodeState {
    n.(log := n.log + [LogEntry(|n.log|, n.term, command)])
  }

  /** Voters other than the node itself whose matchIndex reaches `index`. */
  function Supporters(n: NodeState, index: nat): set<NodeID> {
    set id | id in n.members && n.members[id].id != n.id && n.members[id].kind == Voter
             && Lookup(n.matchIndex, n.members[id].addr) >= index
  }

  predicate Committable(n: NodeState, index: nat) {
    index < |n.log| && n.log[index].term == n.term && 1 + |Supporters(n, index)| >= Membership.QuorumSize(n.members)
  }

  /** The greatest committable index in (commitIndex, index], or commitIndex when there is none. */
  function BestCommit(n: NodeState, index: nat): (best: nat)
    ensures best >= n.commitIndex
    ensures best == n.commitIndex || (n.commitIndex < best <= index && Committable(n, best))
    ensures forall i: nat :: Committable(n, i) && i <= index ==> i <= best
  {
    if index <= n.commitIndex then n.commitIndex
    else if Committable(n, index) then index
    else BestCommit(n, index - 1)
  }

  function MaybeAdvanceCommitIndex(n: NodeState): NodeState {
    var best := BestCommit(n, LastIndex(n.log));
    if best > n.commitIndex then ApplyCommitted(n.(commitIndex := best)) else n
  }

  function HandleAppendReply(n: NodeState, from: Addr, req: AppendRequest, resp: AppendResponse): NodeState {
    if resp.term > n.term then StepDown(n, resp.term)
    else if resp.success then
      MaybeAdvanceCommitIndex(
        n.(matchIndex := n.matchIndex[from := req.End()], nextIndex := n.nextIndex[from := req.End() + 1]))
    else
      var next := Lookup(n.nextIndex, from);
      if 0 < resp.nextIndex < next then n.(nextIndex := n.nextIndex[from := resp.nextIndex])
      else if next > 1 then n.(nextIndex := n.nextIndex[from := next - 1])
      else n
  }

  /** JoinAsObserver on a node that leads a dynamic cluster. */
  function AdmitObserver(n: NodeState, id: NodeID, addr: Addr): NodeState {
    n.(members := Membership.AddObserver(n.members, id, addr),
       nextIndex := n.nextIndex[addr := |n.log|], matchIndex := n.matchIndex[addr := 0])
  }

  // ----- framing facts -----

  lemma ApplyEntryFrame(n: NodeState)
    ensures var r := ApplyEntry(n);
      && r == n.(applied := r.applied, members := r.members, role := r.role)
      && n.applied <= r.applied && (r.role == n.role || r.role == Follower)
  {
  }

  /** Applying committed entries changes nothing but the applied part, which only grows, the members
      and, when the node removes itself, the role. */
  lemma {:induction false} ApplyCommittedFrame(n: NodeState)
    ensures var r := ApplyCommitted(n);
      && r == n.(lastApplied := r.lastApplied, applied := r.applied, members := r.members, role := r.role)
      && n.applied <= r.applied && (r.role == n.role || r.role == Follower)
    decreases n.commitIndex - n.lastApplied
  {
    if n.lastApplied < n.commitIndex {
      var n1 := n.(lastApplied := n.lastApplied + 1);
      ApplyEntryFrame(n1);
      ApplyCommittedFrame(ApplyEntry(n1));
    }
  }
}
