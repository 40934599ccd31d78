/** The Raft log, the voter set and the node as objects whose methods update their fields, each proved
    to compute the functions of modules Membership and RaftNode. */
module RaftObjects {
  import opened RaftTypes
  import opened RaftNode
  import Membership

  class Log {
    var entries: seq<LogEntry>

    predicate Valid() reads this { |entries| > 0 }

    constructor ()
      ensures Valid() && entries == [SENTINEL]
    {
      entries := [SENTINEL];
    }

    method Entry(index: nat) returns (e: LogEntry, ok: bool)
      ensures ok <==> index < |entries|
      ensures e == if ok then entries[index] else LogEntry(0, 0, Data(""))
    {
      if index >= |entries| {
        return LogEntry(0, 0, Data("")), false;
      }
      return entries[index], true;
    }

    method EntriesFrom(index: nat) returns (es: seq<LogEntry>)
      ensures es == if index < |entries| then entries[index..] else []
    {
      if index >= |entries| {
        return [];
      }
      return entries[index..];
    }

    /** Truncates after prevIndex and extends, whatever was there. */
    method Append(prevIndex: nat, es: seq<LogEntry>)
      requires prevIndex < |entries|
      modifies this
      ensures Valid() && entries == old(entries)[..prevIndex + 1] + es
    {
      entries := entries[..prevIndex + 1];
      entries := entries + es;
    }

    method AppendOne(e: LogEntry)
      requires Valid()
      modifies this
      ensures Valid() && entries == old(entries) + [e]
    {
      entries := entries + [e];
    }
  }

  class VoterSet {
    var members: Members

    constructor ()
      ensures members == map[]
    {
      members := map[];
    }

    method AddVoter(id: NodeID, addr: Addr)
      modifies this
      ensures members == Membership.AddVoter(old(members), id, addr)
    {
      members := members[id := Member(id, addr, Voter)];
    }

    /** NewNode's loop: every peer becomes a voter under its address. */
    method AddPeers(peers: seq<Addr>)
      modifies this
      ensures members == old(members) + (map p | p in peers :: Member(p, p, Voter))
    {
      var i := 0;
      while i < |peers|
        invariant 0 <= i <= |peers|
        invariant members == old(members) + (map p | p in peers[..i] :: Member(p, p, Voter))
      {
        AddVoter(peers[i], peers[i]);
        assert peers[..i + 1] == peers[..i] + [peers[i]];
        i := i + 1;
      }
      assert peers[..|peers|] == peers;
    }

    method AddObserver(id: NodeID, addr: Addr)
      modifies this
      ensures members == Membership.AddObserver(old(members), id, addr)
    {
      if id !in members {
        members := members[id := Member(id, addr, Observer)];
      }
    }

    method Remove(id: NodeID)
      modifies this
      ensures members == Membership.Remove(old(members), id)
    {
      members := members - {id};
    }

    /** Scans the map in no particular order and renames the first member found at `addr` under
        another ID; `pick` says which. */
    method UpdateID(addr: Addr, realID: NodeID) returns (ghost pick: NodeID)
      modifies this
      ensures Membership.ValidPick(old(members), addr, realID, pick)
      ensures members == Membership.UpdateID(old(members), addr, realID, pick)
    {
      pick := realID;
      var rest := members.Keys;
      while rest != {}
        invariant members == old(members) && rest <= members.Keys && pick == realID
        invariant forall id :: id in members.Keys - rest ==> !Membership.Renamable(members, addr, realID, id)
        decreases |rest|
      {
        var id :| id in rest;
        if members[id].addr == addr && id != realID {
          pick := id;
          var m := members[id];
          members := members - {id};
          members := members[realID := m.(id := realID)];
          return;
        }
        rest := rest - {id};
      }
    }

    method QuorumSize() returns (q: nat)
      ensures q == Membership.QuorumSize(members)
    {
      var total := 0;
      var rest := members.Keys;
      ghost var seen: set<NodeID> := {};
      while rest != {}
        invariant rest <= members.Keys && seen == (set id | id in members && id !in rest && members[id].kind == Voter)
        invariant total == |seen|
        decreases |rest|
      {
        var id :| id in rest;
        if members[id].kind == Voter {
          total := total + 1;
          seen := seen + {id};
        }
        rest := rest - {id};
      }
      assert seen == Membership.VoterIDs(members);
      return total / 2 + 1;
    }

    /** Addresses of the voters other than `self`, in no particular order. */
    method Voters(self: NodeID) returns (out: seq<Addr>)
      ensures forall a :: a in Membership.PeerVoters(members, self) <==> a in out
      ensures |out| == |Membership.VoterIDs(members) - {self}|
    {
      out := [];
      var rest := members.Keys;
      ghost var seen: set<NodeID> := {};
      while rest != {}
        invariant rest <= members.Keys
        invariant seen == (set id | id in members && id !in rest && members[id].kind == Voter && id != self)
        invariant forall a :: a in out <==> exists id :: id in seen && members[id].addr == a
        invariant |out| == |seen|
        decreases |rest|
      {
        var id :| id in rest;
        if id != self && members[id].kind == Voter {
          out := out + [members[id].addr];
          seen := seen + {id};
        }
        rest := rest - {id};
      }
      assert seen == Membership.VoterIDs(members) - {self};
      assert forall id :: id in seen <==> id in Membership.VoterIDs(members) && id != self;
    }
  }

  /** Assigning `v` to the keys in `ks`, one after the other. */
  ghost function SetAll<K>(m: map<K, nat>, ks: seq<K>, v: nat): map<K, nat> {
    if ks == [] then m else SetAll(m, ks[..|ks| - 1], v)[ks[|ks| - 1] := v]
  }

  lemma SetForAdd<K>(m: map<K, nat>, keys: set<K>, k: K, v: nat)
    ensures SetFor(m, keys + {k}, v) == SetFor(m, keys, v)[k := v]
  {
  }

  /** The loop's result does not depend on the order of the keys. */
  lemma {:induction false} SetAllIsSetFor<K>(m: map<K, nat>, ks: seq<K>, keys: set<K>, v: nat)
    requires forall k :: k in keys <==> k in ks
    ensures SetAll(m, ks, v) == SetFor(m, keys, v)
    decreases |ks|
  {
    if ks == [] {
      assert keys == {};
    } else {
      var front, last := ks[..|ks| - 1], ks[|ks| - 1];
      var keys' := set k | k in front;
      SetAllIsSetFor(m, front, keys', v);
      assert ks == front + [last];
      assert keys == keys' + {last};
      SetForAdd(m, keys', last, v);
    }
  }

  /** Some member UpdateID could rename, if there is any. */
  ghost function AnyPick(ms: Members, addr: Addr, realID: NodeID): (pick: NodeID)
    ensures Membership.ValidPick(ms, addr, realID, pick)
  {
    if exists p :: Membership.Renamable(ms, addr, realID, p)
    then var p :| Membership.Renamable(ms, addr, realID, p); p
    else ""
  }

  datatype JoinResponse = Admitted | Redirect(leaderID: NodeID, leaderAddr: Addr) | Refused

  class Node {
    const id: NodeID
    const addr: Addr
    const mode: Mode
    const log: Log
    const voters: VoterSet
    var role: Role
    var currentTerm: nat
    var votedFor: NodeID
    var commitIndex: nat
    var lastApplied: nat
    var leaderID: NodeID
    var leaderAddr: Addr
    var nextIndex: map<Addr, nat>
    var matchIndex: map<Addr, nat>
    ghost var applied: seq<LogEntry>

    ghost predicate Valid() reads this, log { log.Valid() }

    ghost function State(): NodeState
      requires Valid()
      reads this, log, voters
    {
      NodeState(id, addr, mode, role, currentTerm, votedFor, log.entries, commitIndex, lastApplied,
                leaderID, leaderAddr, nextIndex, matchIndex, voters.members, applied)
    }

    constructor (id: NodeID, addr: Addr, mode: Mode, peers: seq<Addr>)
      ensures Valid() && fresh(log) && fresh(voters)
      ensures State() == RaftNode.NewNode(id, addr, mode, set p | p in peers)
    {
      this.id, this.addr, this.mode := id, addr, mode;
      role, currentTerm, votedFor, commitIndex, lastApplied := Follower, 0, "", 0, 0;
      leaderID, leaderAddr, nextIndex, matchIndex, applied := "", "", map[], map[], [];
      var l := new Log();
      var vs := new VoterSet();
      log, voters := l, vs;
      new;
      voters.AddVoter(id, addr);
      voters.AddPeers(peers);
      ghost var ps := set p | p in peers;
      assert (map p | p in peers :: Member(p, p, Voter)) == (map p | p in ps :: Member(p, p, Voter));
    }

    method HandleVoteRequest(req: VoteRequest) returns (resp: VoteResponse)
      requires Valid()
      modifies this
      ensures Valid() && (State(), resp) == RaftNode.HandleVoteRequest(old(State()), req)
    {
      resp := VoteResponse(currentTerm, false);
      if req.term < currentTerm {
        return;
      }
      if req.term > currentTerm {
        currentTerm, role, votedFor := req.term, Follower, "";
      }
      var alreadyVoted := votedFor != "" && votedFor != req.candidateID;
      var lastTerm, lastIndex := log.entries[|log.entries| - 1].term, |log.entries| - 1;
      var logOK := req.lastLogTerm > lastTerm || (req.lastLogTerm == lastTerm && req.lastLogIndex >= lastIndex);
      if !alreadyVoted && logOK {
        votedFor := req.candidateID;
        resp := VoteResponse(currentTerm, true);
      }
    }

    method ApplyMembershipEntry(mc: MembershipChange)
      requires Valid()
      modifies this`role, voters
      ensures Valid() && State() == RaftNode.ApplyMembership(old(State()), mc)
    {
      match mc.action
      case ActionAddVoter => voters.AddVoter(mc.nodeID, mc.addr);
      case ActionRemoveVoter =>
        voters.Remove(mc.nodeID);
        if mc.nodeID == id {
          role := Follower;
        }
      case ActionUnknown =>
    }

    /** Every index from lastApplied + 1 to commitIndex is applied once, in increasing order. */
    method ApplyCommitted()
      requires Valid()
      modifies this`role, this`lastApplied, this`applied, voters
      ensures Valid() && State() == RaftNode.ApplyCommitted(old(State()))
    {
      while lastApplied < commitIndex
        invariant Valid() && RaftNode.ApplyCommitted(State()) == RaftNode.ApplyCommitted(old(State()))
        decreases commitIndex - lastApplied
      {
        lastApplied := lastApplied + 1;
        var entry, ok := log.Entry(lastApplied);
        if ok {
          applied := applied + [entry];
          if entry.command.Membership? {
            ApplyMembershipEntry(entry.command.change);
          }
        }
      }
    }

    /** handleAppendEntries before its consistency check: the sender of a current request is the leader. */
    method FollowLeader(req: AppendRequest) returns (ghost pick: NodeID)
      requires Valid() && req.term >= currentTerm
      modifies this`currentTerm, this`votedFor, this`role, this`leaderID, this`leaderAddr, voters
      ensures Valid() && Membership.ValidPick(old(voters.members), req.leaderAddr, req.leaderID, pick)
      ensures State() == RaftNode.FollowLeader(old(State()), req, pick)
    {
      if req.term > currentTerm {
        currentTerm, votedFor := req.term, "";
      }
      role, leaderID, leaderAddr := Follower, req.leaderID, req.leaderAddr;
      if req.leaderID != "" && req.leaderAddr != "" {
        pick := voters.UpdateID(req.leaderAddr, req.leaderID);
      } else {
        pick := AnyPick(voters.members, req.leaderAddr, req.leaderID);
      }
    }

    /** Its last part: commit what the leader has committed, as far as the own log goes. */
    method AdoptCommit(leaderCommit: nat)
      requires Valid()
      modifies this`commitIndex, this`role, this`lastApplied, this`applied, voters
      ensures Valid() && State() == RaftNode.AdoptCommit(old(State()), leaderCommit)
    {
      if leaderCommit > commitIndex {
        var last := |log.entries| - 1;
        if leaderCommit < last {
          commitIndex := leaderCommit;
        } else {
          commitIndex := last;
        }
        ApplyCommitted();
      }
    }

    method HandleAppendEntries(req: AppendRequest) returns (resp: AppendResponse, ghost pick: NodeID)
      requires Valid()
      modifies this, log, voters
      ensures Valid() && Membership.ValidPick(old(voters.members), req.leaderAddr, req.leaderID, pick)
      ensures (State(), resp) == RaftNode.HandleAppendEntries(old(State()), req, pick)
    {
      resp := AppendResponse(currentTerm, false, 0);
      if req.term < currentTerm {
        pick := AnyPick(voters.members, req.leaderAddr, req.leaderID);
        return;
      }
      pick := FollowLeader(req);
      if req.prevIndex > 0 {
        var prev, ok := log.Entry(req.prevIndex);
        if !ok || prev.term != req.prevTerm {
          resp := resp.(nextIndex := |log.entries|);
          return;
        }
      }
      if |req.entries| > 0 {
        log.Append(req.prevIndex, req.entries);
      }
      AdoptCommit(req.leaderCommit);
      resp := AppendResponse(req.term, true, 0);
    }

    /** Votes the leader counts for `index`: its own and those of the other voters that match it. */
    method CountSupport(index: nat) returns (count: nat)
      requires Valid()
      ensures count == 1 + |RaftNode.Supporters(State(), index)|
    {
      count := 1;
      var rest := voters.members.Keys;
      ghost var seen: set<NodeID> := {};
      while rest != {}
        invariant rest <= voters.members.Keys && count == 1 + |seen|
        invariant seen == (set m | m in RaftNode.Supporters(State(), index) && m !in rest)
        decreases |rest|
      {
        var key :| key in rest;
        var m := voters.members[key];
        if m.id != id && m.kind == Voter && (if m.addr in matchIndex then matchIndex[m.addr] else 0) >= index {
          count := count + 1;
          seen := seen + {key};
        }
        rest := rest - {key};
      }
      assert seen == RaftNode.Supporters(State(), index);
    }

    method MaybeAdvanceCommitIndex()
      requires Valid()
      modifies this`commitIndex, this`role, this`lastApplied, this`applied, voters
      ensures Valid() && State() == RaftNode.MaybeAdvanceCommitIndex(old(State()))
    {
      var quorum := voters.QuorumSize();
      var idx := |log.entries| - 1;
      while idx > commitIndex
        invariant Valid() && State() == old(State()) && 0 <= idx < |log.entries|
        invariant RaftNode.BestCommit(State(), LastIndex(State().log)) == RaftNode.BestCommit(State(), idx)
        decreases idx
      {
        var entry, ok := log.Entry(idx);
        if ok && entry.term == currentTerm {
          var count := CountSupport(idx);
          if count >= quorum {
            commitIndex := idx;
            ApplyCommitted();
            return;
          }
        }
        idx := idx - 1;
      }
    }

    method HandleAppendReply(from: Addr, req: AppendRequest, resp: AppendResponse)
      requires Valid()
      modifies this, voters
      ensures Valid() && State() == RaftNode.HandleAppendReply(old(State()), from, req, resp)
    {
      if resp.term > currentTerm {
        currentTerm, role, votedFor := resp.term, Follower, "";
        return;
      }
      if resp.success {
        matchIndex := matchIndex[from := req.prevIndex + |req.entries|];
        nextIndex := nextIndex[from := matchIndex[from] + 1];
        MaybeAdvanceCommitIndex();
      } else {
        LowerNext(from, resp.nextIndex);
      }
    }

    /** The rejected branch: the follower's hint if it is lower, one less otherwise. */
    method LowerNext(from: Addr, hint: nat)
      modifies this`nextIndex
      ensures var next := Lookup(old(nextIndex), from);
        nextIndex == if 0 < hint < next then old(nextIndex)[from := hint]
                     else if next > 1 then old(nextIndex)[from := next - 1]
                     else old(nextIndex)
    {
      var next := if from in nextIndex then nextIndex[from] else 0;
      if hint > 0 && hint < next {
        nextIndex := nextIndex[from := hint];
      } else if next > 1 {
        nextIndex := nextIndex[from := next - 1];
      }
    }

    /** What one heartbeat goroutine sends. */
    method MakeAppendRequest(to: Addr, term: nat, commit: nat) returns (req: AppendRequest)
      requires Valid()
      modifies this`nextIndex
      ensures Valid() && State() == RaftNode.NoteNext(old(State()), to)
      ensures req == RaftNode.MakeAppendRequest(old(State()), to, term, commit)
    {
      var next := if to in nextIndex then nextIndex[to] else 0;
      if next == 0 {
        next := |log.entries|;
        nextIndex := nextIndex[to := next];
      }
      var prev, ok := log.Entry(next - 1);
      var es := log.EntriesFrom(next);
      req := AppendRequest(term, id, addr, next - 1, prev.term, es, commit);
    }

    method StartElection() returns (term: nat)
      requires Valid()
      modifies this`currentTerm, this`votedFor
      ensures Valid() && State() == RaftNode.StartElection(old(State())) && term == currentTerm
    {
      currentTerm := currentTerm + 1;
      votedFor := id;
      term := currentTerm;
    }

    /** becomeLeader's loop: optimistic nextIndex, nothing matched yet. */
    method ResetProgress(peers: seq<Addr>, ghost keys: set<Addr>, next: nat)
      requires forall a :: a in keys <==> a in peers
      modifies this`nextIndex, this`matchIndex
      ensures nextIndex == SetFor(old(nextIndex), keys, next)
      ensures matchIndex == SetFor(old(matchIndex), keys, 0)
    {
      var i := 0;
      while i < |peers|
        invariant 0 <= i <= |peers|
        invariant nextIndex == SetAll(old(nextIndex), peers[..i], next)
        invariant matchIndex == SetAll(old(matchIndex), peers[..i], 0)
      {
        nextIndex := nextIndex[peers[i] := next];
        matchIndex := matchIndex[peers[i] := 0];
        assert peers[..i + 1][..i] == peers[..i];
        i := i + 1;
      }
      assert peers[..|peers|] == peers;
      SetAllIsSetFor(old(nextIndex), peers, keys, next);
      SetAllIsSetFor(old(matchIndex), peers, keys, 0);
    }

    method BecomeLeader()
      requires Valid()
      modifies this`role, this`leaderID, this`leaderAddr, this`nextIndex, this`matchIndex
      ensures Valid() && State() == RaftNode.BecomeLeader(old(State()))
    {
      role, leaderID, leaderAddr := Leader, id, addr;
      var peers := voters.Voters(id);
      ResetProgress(peers, Membership.PeerVoters(voters.members, id), |log.entries|);
    }

    /** The append part of appendAndWaitCommit. */
    method AppendOwn(command: Command) returns (index: nat)
      requires Valid()
      modifies log
      ensures Valid() && State() == RaftNode.AppendOwn(old(State()), command) && index == |log.entries| - 1
    {
      index := |log.entries|;
      log.AppendOne(LogEntry(index, currentTerm, command));
    }

    method JoinAsObserver(nodeID: NodeID, nodeAddr: Addr) returns (resp: JoinResponse)
      requires Valid()
      modifies this`nextIndex, this`matchIndex, voters
      ensures Valid()
      ensures resp == Admitted <==> role == Leader && mode == Dynamic
      ensures resp == Refused <==> role == Leader && mode == Static
      ensures role != Leader ==> resp == Redirect(leaderID, leaderAddr)
      ensures State() == if resp
        == Admitted then RaftNode.AdmitObserver(old(State()), nodeID, nodeAddr) else old(State())
    {
      if role != Leader {
        return Redirect(leaderID, leaderAddr);
      }
      if mode == Static {
        return Refused;
      }
      voters.AddObserver(nodeID, nodeAddr);
      nextIndex := nextIndex[nodeAddr := |log.entries|];
      matchIndex := matchIndex[nodeAddr := 0];
      return Admitted;
    }
  }
}
