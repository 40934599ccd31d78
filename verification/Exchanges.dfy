/** One request and its answer, seen from both ends: who steps down, what is committed and applied, where a leader and
    a follower meet, and when the exchange lets the leader commit. */
module Exchanges {
  import opened RaftTypes
  import opened RaftNode
  import opened OneWriter
  import opened BackOff
  import Membership
  import LogMatching
  import Replication
  import RaftTheorems
  import Keeping
  import Safety

  // ----- terms -----

  /** A leader that reaches a node of a later term becomes a follower in that term, without a vote, and keeps its log
      and what it has committed; the node that refused is untouched. */
  lemma DeposedLeaderStepsDown(l: NodeState, f: NodeState, from: Addr, req: AppendRequest, pick: NodeID)
    requires req.term <= l.term < f.term
    ensures var (f', resp) := HandleAppendEntries(f, req, pick);
      && f' == f && !resp.success
      && HandleAppendReply(l, from, req, resp) == l.(role := Follower, term := f.term, votedFor := "")
  {
  }

  /** A node that is not ahead follows: it ends up in the leader's term, with no vote unless it had cast it in that
      term, and its answer never makes the leader step down. */
  lemma CurrentLeaderIsFollowed(l: NodeState, f: NodeState, req: AppendRequest, pick: NodeID)
    requires f.term <= req.term == l.term
    ensures var (f', resp) := HandleAppendEntries(f, req, pick);
      && f'.term == l.term && f'.role == Follower && f'.leaderID == req.leaderID && f'.leaderAddr == req.leaderAddr
      && f'.votedFor == (if f.term == l.term then f.votedFor else "")
      && resp.term == (if resp.success then l.term else f.term) <= l.term
  {
    var n1 := FollowLeader(f, req, pick);
    if PrevMatches(n1.log, req) {
      LogMatching.AdoptCommitFrame(n1.(log := AppendTo(n1.log, req)), req.leaderCommit);
    }
  }

  // ----- committing and applying -----

  /** The entries of `log` after `i`, through `j` or the end of the log. */
  function Stretch(log: Entries, i: nat, j: nat): seq<LogEntry> {
    var end := if j < |log| then j else |log| - 1;
    if end > i then log[i + 1..end + 1] else []
  }

  lemma StretchStarts(log: Entries, i: nat, j: nat)
    requires i < j && i + 1 < |log|
    ensures Stretch(log, i, j) == [log[i + 1]] + Stretch(log, i + 1, j)
  {
  }

  lemma EntryEffect(n: NodeState)
    requires n.lastApplied < |n.log|
    ensures var n', e := ApplyEntry(n), n.log[n.lastApplied];
      && n' == n.(applied := n.applied + [e], members := n'.members, role := n'.role)
      && n'.role == if Removes(e, n.id) then Follower else n.role
  {
  }

  /** The node after applying the next entry; applying the rest from there is applying all. */
  lemma ApplyOne(n: NodeState) returns (n': NodeState)
    requires n.lastApplied < n.commitIndex && n.lastApplied + 1 < |n.log|
    ensures ApplyCommitted(n) == ApplyCommitted(n') && n'.applied == n.applied + [n.log[n.lastApplied + 1]]
    ensures n'.lastApplied == n.lastApplied + 1 && n'.commitIndex == n.commitIndex && n'.log == n.log && n'.id == n.id
    ensures n'.role == if Removes(n.log[n.lastApplied + 1], n.id) then Follower else n.role
  {
    n' := ApplyEntry(n.(lastApplied := n.lastApplied + 1));
    EntryEffect(n.(lastApplied := n.lastApplied + 1));
  }

  /** What has been applied when everything through the commit index has. */
  predicate AppliedAll(n: NodeState, r: NodeState) {
    && r.lastApplied == (if n.commitIndex > n.lastApplied then n.commitIndex else n.lastApplied)
    && r.applied == n.applied + Stretch(n.log, n.lastApplied, n.commitIndex)
  }

  lemma OneMoreApplied(n: NodeState, n': NodeState, r: NodeState)
    requires n.lastApplied < n.commitIndex && n.lastApplied + 1 < |n.log| && n'.log == n.log
    requires n'.lastApplied == n.lastApplied + 1 && n'.commitIndex == n.commitIndex
    requires n'.applied == n.applied + [n.log[n.lastApplied + 1]] && AppliedAll(n', r)
    ensures AppliedAll(n, r)
  {
    StretchStarts(n.log, n.lastApplied, n.commitIndex);
  }

  lemma BeyondTheLog(n: NodeState)
    requires n.lastApplied < n.commitIndex && n.lastApplied + 1 >= |n.log|
    ensures AppliedAll(n, ApplyCommitted(n))
  {
    NothingToApply(n.(lastApplied := n.lastApplied + 1));
  }

  /** Everything between lastApplied and the commit index that the log holds is applied, in order; indices beyond the
      log are passed over. */
  lemma {:induction false} AppliedExactly(n: NodeState)
    ensures AppliedAll(n, ApplyCommitted(n))
    decreases n.commitIndex - n.lastApplied
  {
    if n.lastApplied < n.commitIndex {
      if n.lastApplied + 1 < |n.log| {
        var n' := ApplyOne(n);
        AppliedExactly(n');
        OneMoreApplied(n, n', ApplyCommitted(n));
      } else {
        BeyondTheLog(n);
      }
    }
  }

  lemma {:induction false} NothingToApply(n: NodeState)
    requires n.lastApplied >= |n.log|
    ensures ApplyCommitted(n)
      == n.(lastApplied := if n.commitIndex > n.lastApplied then n.commitIndex else n.lastApplied)
    decreases n.commitIndex - n.lastApplied
  {
    if n.lastApplied < n.commitIndex {
      NothingToApply(n.(lastApplied := n.lastApplied + 1));
    }
  }

  /** Some entry after `i`, through `j`, removes `id`. */
  predicate RemovedWithin(log: Entries, id: NodeID, i: nat, j: nat)
    requires j < |log|
  {
    exists k :: i < k <= j && Removes(log[k], id)
  }

  lemma RemovedNext(log: Entries, id: NodeID, i: nat, j: nat)
    requires i < j < |log|
    ensures RemovedWithin(log, id, i, j) <==> Removes(log[i + 1], id) || RemovedWithin(log, id, i + 1, j)
  {
  }

  /** A node steps down while applying if and only if it applies its own removal. */
  lemma {:induction false} StepsDownIff(n: NodeState)
    requires n.lastApplied <= n.commitIndex < |n.log|
    ensures ApplyCommitted(n).role
      == if RemovedWithin(n.log, n.id, n.lastApplied, n.commitIndex) then Follower else n.role
    decreases n.commitIndex - n.lastApplied
  {
    if n.lastApplied < n.commitIndex {
      var n' := ApplyOne(n);
      StepsDownIff(n');
      RemovedNext(n.log, n.id, n.lastApplied, n.commitIndex);
    }
  }

  /** The entry removes `id`. */
  predicate Removes(e: LogEntry, id: NodeID) {
    e.command.Membership? && e.command.change.action.ActionRemoveVoter? && e.command.change.nodeID == id
  }

  /** After accepting a request an index is committed if and only if it was before, or the leader has committed it and
      the log reaches it; provided the log still reaches what was committed before. */
  lemma CommittedIff(f: NodeState, req: AppendRequest, pick: NodeID, k: nat)
    requires HandleAppendEntries(f, req, pick).1.success
    requires f.commitIndex < |HandleAppendEntries(f, req, pick).0.log|
    ensures var f' := HandleAppendEntries(f, req, pick).0;
      k <= f'.commitIndex <==> k <= f.commitIndex || (k <= req.leaderCommit && k < |f'.log|)
  {
    AdoptedCommit(f, req, pick);
  }

  lemma AdoptedCommit(f: NodeState, req: AppendRequest, pick: NodeID)
    requires HandleAppendEntries(f, req, pick).1.success
    ensures var f' := HandleAppendEntries(f, req, pick).0;
      f'.commitIndex == if req.leaderCommit <= f.commitIndex then f.commitIndex
                        else if req.leaderCommit < |f'.log| then req.leaderCommit else |f'.log| - 1
  {
    var n2 := FollowLeader(f, req, pick).(log := AppendTo(f.log, req));
    if req.leaderCommit > n2.commitIndex {
      var last := LastIndex(n2.log);
      ApplyCommittedFrame(n2.(commitIndex := if req.leaderCommit < last then req.leaderCommit else last));
    }
  }

  /** Without that proviso the commit index can go back: exactly when the request cuts the log below it and announces a
      commit index beyond it. */
  lemma CommitGoesBackIff(f: NodeState, req: AppendRequest, pick: NodeID)
    requires HandleAppendEntries(f, req, pick).1.success
    ensures var f' := HandleAppendEntries(f, req, pick).0;
      f'.commitIndex < f.commitIndex <==> |f'.log| <= f.commitIndex < req.leaderCommit
  {
    AdoptedCommit(f, req, pick);
  }

  // ----- where leader and follower meet -----

  /** Both logs have an entry at `i`, of the same term. */
  predicate Share(x: Entries, y: Entries, i: nat) { i < |x| && i < |y| && x[i].term == y[i].term }

  /** The request that is accepted in the end, and the leader when it sends it. */
  ghost function Accepted(l: NodeState, f: NodeState, to: Addr, pick: NodeID): (NodeState, NodeState)
    requires f.term <= l.term
    decreases NextFor(l, to)
  {
    var (l', f', accepted) := Exchange(l, f, to, pick);
    if accepted then (l, f)
    else
      RejectionLowers(l, f, to, pick);
      Accepted(l', f', to, pick)
  }

  function Probe(l: NodeState, to: Addr): AppendRequest { MakeAppendRequest(l, to, l.term, l.commitIndex) }

  /** A probe is accepted if and only if it starts at the beginning or at an entry that both logs share. */
  lemma AcceptedIff(l: NodeState, f: NodeState, to: Addr, pick: NodeID)
    requires f.term <= l.term && Matching(l.log, f.log)
    ensures Exchange(l, f, to, pick).2 <==> NextFor(l, to) <= 1 || Share(l.log, f.log, NextFor(l, to) - 1)
  {
    LogMatching.HandleAppendEntriesFrame(f, Probe(l, to), pick);
  }

  /** A rejection skips no shared entry. */
  lemma RejectionSkipsNothing(l: NodeState, f: NodeState, to: Addr, pick: NodeID, i: nat)
    requires f.term <= l.term && Matching(l.log, f.log) && !Exchange(l, f, to, pick).2
    requires NextFor(Exchange(l, f, to, pick).0, to) <= i < NextFor(l, to)
    ensures !Share(l.log, f.log, i)
  {
    AcceptedIff(l, f, to, pick);
    LogMatching.HandleAppendEntriesFrame(f, Probe(l, to), pick);
  }

  /** Back-off finds the last common entry: the request that is accepted in the end starts at the greatest index below
      nextIndex at which both logs share an entry, so that nothing is sent that the follower has already. */
  lemma {:induction false} BackOffFindsTheLastCommonEntry(l: NodeState, f: NodeState, to: Addr, pick: NodeID)
    requires f.term <= l.term && Matching(l.log, f.log)
    ensures var (l', f') := Accepted(l, f, to, pick);
      var p := Probe(l', to).prevIndex;
      && l'.log == l.log && f'.log == f.log && Exchange(l', f', to, pick).2
      && p < NextFor(l, to) && Share(l.log, f.log, p)
      && forall i :: p < i < NextFor(l, to) ==> !Share(l.log, f.log, i)
    decreases NextFor(l, to)
  {
    var (l', f', accepted) := Exchange(l, f, to, pick);
    AcceptedIff(l, f, to, pick);
    if !accepted {
      RejectionLowers(l, f, to, pick);
      BackOffFindsTheLastCommonEntry(l', f', to, pick);
      var p := Probe(Accepted(l, f, to, pick).0, to).prevIndex;
      forall i | p < i < NextFor(l, to) ensures !Share(l.log, f.log, i) {
        if i >= NextFor(l', to) {
          RejectionSkipsNothing(l, f, to, pick, i);
        }
      }
    }
  }

  lemma MatchedStays(n: NodeState)
    ensures var r := MaybeAdvanceCommitIndex(n);
      r.matchIndex == n.matchIndex && r.nextIndex == n.nextIndex && r.log == n.log && r.term == n.term
  {
    ApplyCommittedFrame(n.(commitIndex := BestCommit(n, LastIndex(n.log))));
  }

  /** Once a request is accepted the leader knows: matchIndex is the end of its log, and what it sends next carries no
      entries and is accepted as well. */
  lemma AcceptanceIsNoted(l: NodeState, f: NodeState, to: Addr, pick: NodeID)
    requires f.term <= l.term && Matching(l.log, f.log) && Exchange(l, f, to, pick).2
    ensures var (l', f', _) := Exchange(l, f, to, pick);
      && l'.log == l.log && l'.matchIndex == l.matchIndex[to := LastIndex(l.log)]
      && Probe(l', to).prevIndex == LastIndex(l.log) && Probe(l', to).entries == []
  {
    var m := Probe(l, to);
    LogMatching.HandleAppendEntriesFrame(f, m, pick);
    AcceptedIff(l, f, to, pick);
    assert m.End() == LastIndex(l.log);
    var resp := HandleAppendEntries(f, m, pick).1;
    Keeping.SuccessAdvances(NoteNext(l, to), to, m, resp);
    MatchedStays(Replication.Matched(NoteNext(l, to), to, m.End()));
  }

  /** Any rejection that does not make the node step down lowers a nextIndex above 1 to the hint, or by one if the hint
      is no lower or there is none; it never unsets it, and changes nothing else. */
  lemma RejectionFollowsTheHint(n: NodeState, from: Addr, req: AppendRequest, resp: AppendResponse)
    requires !resp.success && resp.term <= n.term
    ensures var n', next := HandleAppendReply(n, from, req, resp), Lookup(n.nextIndex, from);
      && n' == n.(nextIndex := n'.nextIndex)
      && (forall b :: b != from ==> Lookup(n'.nextIndex, b) == Lookup(n.nextIndex, b))
      && Lookup(n'.nextIndex, from) ==
           if next <= 1 then next
           else if resp.nextIndex != 0 && resp.nextIndex < next - 1 then resp.nextIndex
           else next - 1
  {
  }

  // ----- catching up -----

  lemma RejectionKeepsApplied(l: NodeState, f: NodeState, to: Addr, pick: NodeID)
    requires f.term <= l.term && !Exchange(l, f, to, pick).2
    ensures var (l', f', _) := Exchange(l, f, to, pick);
      f'.log == f.log && f'.commitIndex == f.commitIndex && f'.lastApplied == f.lastApplied && f'.applied == f.applied
      && l'.log == l.log && l'.commitIndex == l.commitIndex && l'.lastApplied == l.lastApplied
      && l'.applied == l.applied
  {
    LogMatching.HandleAppendEntriesFrame(f, Probe(l, to), pick);
  }

  /** The follower once it has the leader's log, before it adopts the commit index. */
  lemma TruncationKeepsApplied(l: Entries, f: NodeState, m: AppendRequest, pick: NodeID)
    requires PrevMatches(f.log, m) && LogMatching.Agree(AppendTo(f.log, m), l, LastIndex(l))
    requires Safety.AppliedOK(f) && LogMatching.Agree(f.log, l, f.commitIndex)
    ensures Safety.AppliedOK(FollowLeader(f, m, pick).(log := AppendTo(f.log, m)))
  {
    PrefixOf(AppendTo(f.log, m), l, LastIndex(l), f.commitIndex);
    PrefixOf(f.log, l, f.commitIndex, f.commitIndex);
  }

  lemma AdoptionCatchesUp(l: NodeState, n: NodeState)
    requires Safety.AppliedOK(l) && Safety.AppliedOK(n) && n.commitIndex <= l.commitIndex
    requires LogMatching.Agree(n.log, l.log, LastIndex(l.log))
    ensures var r := AdoptCommit(n, l.commitIndex); r.commitIndex == l.commitIndex && r.applied == l.applied
  {
    Keeping.AdoptCommitApplies(n, l.commitIndex);
    LogMatching.AdoptCommitFrame(n, l.commitIndex);
    PrefixOf(n.log, l.log, LastIndex(l.log), l.commitIndex);
  }

  /** What a follower has applied after accepting: what the leader had, if it had applied less before. */
  lemma AcceptanceCatchesUp(l: NodeState, f: NodeState, to: Addr, pick: NodeID)
    requires f.term <= l.term && Matching(l.log, f.log) && Exchange(l, f, to, pick).2
    requires Safety.AppliedOK(l) && Safety.AppliedOK(f) && f.commitIndex <= l.commitIndex
    requires LogMatching.Agree(f.log, l.log, f.commitIndex)
    ensures var f' := Exchange(l, f, to, pick).1; f'.commitIndex == l.commitIndex && f'.applied == l.applied
  {
    var m := Probe(l, to);
    AcceptanceAgrees(l, f, to, pick);
    LogMatching.HandleAppendEntriesFrame(f, m, pick);
    TruncationKeepsApplied(l.log, f, m, pick);
    AdoptionCatchesUp(l, FollowLeader(f, m, pick).(log := AppendTo(f.log, m)));
  }

  lemma PrefixOf(x: seq<LogEntry>, y: seq<LogEntry>, j: nat, i: nat)
    requires LogMatching.Agree(x, y, j) && i <= j
    ensures x[1..i + 1] == y[1..i + 1]
  {
    assert x[1..i + 1] == x[..j + 1][1..i + 1] == y[..j + 1][1..i + 1] == y[1..i + 1];
  }

  /** However far behind it is, once the exchange has settled the follower has applied exactly what the leader has. */
  lemma {:induction false} FollowerCatchesUp(l: NodeState, f: NodeState, to: Addr, pick: NodeID)
    requires f.term <= l.term && Matching(l.log, f.log)
    requires Safety.AppliedOK(l) && Safety.AppliedOK(f) && f.commitIndex <= l.commitIndex
    requires LogMatching.Agree(f.log, l.log, f.commitIndex)
    ensures var (_, _, f') := Settle(l, f, to, pick); f'.commitIndex == l.commitIndex && f'.applied == l.applied
    decreases NextFor(l, to)
  {
    var (l', f', accepted) := Exchange(l, f, to, pick);
    if accepted {
      AcceptanceCatchesUp(l, f, to, pick);
    } else {
      RejectionLowers(l, f, to, pick);
      RejectionKeepsApplied(l, f, to, pick);
      FollowerCatchesUp(l', f', to, pick);
    }
  }

  // ----- when the leader commits -----

  /** The last answer that a quorum needs makes the leader commit its whole log, if it ends in an entry of the leader's
      own term. */
  lemma LastAnswerCommits(n: NodeState, from: Addr, req: AppendRequest, resp: AppendResponse, q: set<NodeID>)
    requires Membership.KeyedByID(n.members) && n.id in Membership.VoterIDs(n.members) && n.commitIndex < |n.log|
    requires n.log[LastIndex(n.log)].term == n.term
    requires resp.success && resp.term <= n.term && req.End() == LastIndex(n.log)
    requires q <= Membership.VoterIDs(n.members) && |q| > |Membership.VoterIDs(n.members)| / 2
    requires forall v :: v in q && v != n.id && n.members[v].addr != from ==>
      Lookup(n.matchIndex, n.members[v].addr) >= LastIndex(n.log)
    ensures HandleAppendReply(n, from, req, resp).commitIndex == LastIndex(n.log)
  {
    var n1, last := Replication.Matched(n, from, req.End()), LastIndex(n.log);
    Keeping.SuccessAdvances(n, from, req, resp);
    assert Membership.IsQuorum(q, n1.members) && RaftTheorems.AllHold(n1, q, last);
    RaftTheorems.AdvancesToGreatestMajority(n1);
  }

  // ----- whom a leader reaches -----

  /** A member the leader has noted nothing about is first asked about the end of the log. */
  lemma FirstContact(l: NodeState, to: Addr)
    requires Lookup(l.nextIndex, to) == 0
    ensures Probe(l, to).prevIndex == LastIndex(l.log) && Probe(l, to).entries == []
    ensures Probe(NoteNext(l, to), to) == Probe(l, to)
  {
  }

  /** An observer that joins under a new ID is recorded with its address and reached from then on, starting at the end
      of the log; what it holds does not count until it becomes a voter. A known ID keeps its record. */
  lemma JoinerIsReached(l: NodeState, id: NodeID, addr: Addr)
    requires id != l.id && addr != ""
    ensures var l' := AdmitObserver(l, id, addr);
      && Membership.VoterIDs(l'.members) == Membership.VoterIDs(l.members)
      && l'.members.Keys == l.members.Keys + {id}
      && (forall k :: k in l.members ==> l'.members[k] == l.members[k])
      && (id !in l.members ==>
            l'.members[id] == Member(id, addr, Observer) && addr in Membership.PeerAddrs(l'.members, l'.id))
      && Probe(l', addr).prevIndex == LastIndex(l.log) && Probe(l', addr).entries == [] && l'.log == l.log
      && Lookup(l'.matchIndex, addr) == 0
  {
    var l' := AdmitObserver(l, id, addr);
    Membership.AddObserverKeepsVoters(l.members, id, addr);
    if id !in l.members {
      assert l'.members[id].addr == addr;
    }
  }
}
