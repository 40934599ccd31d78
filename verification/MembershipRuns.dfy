/** Dynamic membership over whole runs: a node's voters are what the committed entries it applied make
    of its initial voters, whatever observers joined in between. */
module MembershipRuns {
  import opened RaftTypes
  import opened RaftNode
  import opened Cluster
  import Membership
  import opened LogShape
  import LogMatching
  import Replication

  /** The voters among the members. */
  function VoterPart(ms: Members): Members { map id | id in ms && ms[id].kind == Voter :: ms[id] }

  /** What one applied entry does to the voters. */
  function ApplyTo(voters: Members, e: LogEntry): Members {
    if e.command.Membership? then Membership.ApplyChange(voters, e.command.change) else voters
  }

  function Fold(voters: Members, es: seq<LogEntry>): Members {
    if es == [] then voters else ApplyTo(Fold(voters, es[..|es| - 1]), es[|es| - 1])
  }

  /** UpdateID would rename a voter, or overwrite one by renaming an observer. */
  predicate RenamesVoter(ms: Members, addr: Addr, realID: NodeID, pick: NodeID) {
    && Membership.Renamable(ms, addr, realID, pick)
    && (ms[pick].kind == Voter || realID in Membership.VoterIDs(ms))
  }

  /** Handling `req` makes the node rename a voter. */
  predicate Renames(n: NodeState, req: AppendRequest, pick: NodeID) {
    && req.term >= n.term && req.leaderID != "" && req.leaderAddr != ""
    && RenamesVoter(n.members, req.leaderAddr, req.leaderID, pick)
  }

  /** The hypothesis: no request makes UpdateID rename a voter. Nothing else is assumed about the run. */
  ghost predicate RealIDs(c: State, s: Step) {
    Enabled(c, s) && (s.RecvAppend? ==> !Renames(c.nodes[s.a], s.appendReq, s.pick))
  }

  /** UpdateID leaves the voters alone exactly when it renames none. */
  lemma RenameKeepsVotersIff(ms: Members, addr: Addr, realID: NodeID, pick: NodeID)
    ensures VoterPart(Membership.UpdateID(ms, addr, realID, pick)) == VoterPart(ms)
       <==> !RenamesVoter(ms, addr, realID, pick)
  {
    var after := Membership.UpdateID(ms, addr, realID, pick);
    if RenamesVoter(ms, addr, realID, pick) {
      if ms[pick].kind == Voter {
        assert pick in VoterPart(ms) && pick !in VoterPart(after);
      } else {
        assert realID in VoterPart(ms) && realID !in VoterPart(after);
      }
    }
  }

  /** Since it had applied `k` entries, with voters `v`, the node's voters have followed the log. */
  predicate Follows(n: NodeState, v: Members, k: nat) {
    k <= |n.applied| && VoterPart(n.members) == Fold(v, n.applied[k..])
  }

  lemma ChangeVoterPart(ms: Members, mc: MembershipChange)
    ensures VoterPart(Membership.ApplyChange(ms, mc)) == Membership.ApplyChange(VoterPart(ms), mc)
  {
  }

  lemma FoldOneMore(v: Members, es: seq<LogEntry>, e: LogEntry)
    ensures Fold(v, es + [e]) == ApplyTo(Fold(v, es), e)
  {
    assert (es + [e])[..|es|] == es;
  }

  lemma EntryVoterPart(n: NodeState)
    requires n.lastApplied < |n.log|
    ensures VoterPart(ApplyEntry(n).members) == ApplyTo(VoterPart(n.members), n.log[n.lastApplied])
    ensures ApplyEntry(n).applied == n.applied + [n.log[n.lastApplied]]
  {
    var e := n.log[n.lastApplied];
    if e.command.Membership? {
      ChangeVoterPart(n.members, e.command.change);
    }
  }

  lemma FollowsOneMore(n: NodeState, n': NodeState, e: LogEntry, v: Members, k: nat)
    requires Follows(n, v, k) && n'.applied == n.applied + [e]
    requires VoterPart(n'.members) == ApplyTo(VoterPart(n.members), e)
    ensures Follows(n', v, k)
  {
    assert n'.applied[k..] == n.applied[k..] + [e];
    FoldOneMore(v, n.applied[k..], e);
  }

  lemma ApplyEntryFollows(n: NodeState, v: Members, k: nat)
    requires Follows(n, v, k)
    ensures Follows(ApplyEntry(n), v, k)
  {
    if n.lastApplied < |n.log| {
      EntryVoterPart(n);
      FollowsOneMore(n, ApplyEntry(n), n.log[n.lastApplied], v, k);
    }
  }

  lemma ApplyNextFollows(n: NodeState, v: Members, k: nat)
    requires Follows(n, v, k)
    ensures var n' := ApplyEntry(n.(lastApplied := n.lastApplied + 1));
      Follows(n', v, k) && n'.commitIndex == n.commitIndex && n'.lastApplied == n.lastApplied + 1
  {
    var n1 := n.(lastApplied := n.lastApplied + 1);
    assert Follows(n1, v, k);
    ApplyEntryFrame(n1);
    ApplyEntryFollows(n1, v, k);
  }

  lemma {:induction false} ApplyCommittedFollows(n: NodeState, v: Members, k: nat)
    requires Follows(n, v, k)
    ensures Follows(ApplyCommitted(n), v, k)
    decreases n.commitIndex - n.lastApplied
  {
    if n.lastApplied < n.commitIndex {
      ApplyNextFollows(n, v, k);
      ApplyCommittedFollows(ApplyEntry(n.(lastApplied := n.lastApplied + 1)), v, k);
    }
  }

  /** Adopting a leader keeps the voters in step with the log exactly when it renames no voter. */
  lemma AdoptFollowsIff(n: NodeState, req: AppendRequest, pick: NodeID, v: Members, k: nat)
    requires Follows(n, v, k) && req.term >= n.term
    ensures Follows(FollowLeader(n, req, pick), v, k) <==> !Renames(n, req, pick)
  {
    RenameKeepsVotersIff(n.members, req.leaderAddr, req.leaderID, pick);
  }

  lemma RecvAppendFollows(n: NodeState, req: AppendRequest, pick: NodeID, v: Members, k: nat)
    requires Follows(n, v, k) && !Renames(n, req, pick)
    ensures Follows(HandleAppendEntries(n, req, pick).0, v, k)
  {
    if req.term >= n.term {
      AdoptFollowsIff(n, req, pick, v, k);
      if PrevMatches(n.log, req) {
        var n2 := FollowLeader(n, req, pick).(log := AppendTo(n.log, req));
        assert Follows(n2, v, k);
        if req.leaderCommit > n2.commitIndex {
          var last := LastIndex(n2.log);
          ApplyCommittedFollows(n2.(commitIndex := if req.leaderCommit < last then req.leaderCommit else last), v, k);
        }
      }
    }
  }

  lemma ReplyFollows(n: NodeState, from: Addr, req: AppendRequest, resp: AppendResponse, v: Members, k: nat)
    requires Follows(n, v, k)
    ensures Follows(HandleAppendReply(n, from, req, resp), v, k)
  {
    if resp.term <= n.term && resp.success {
      var n1 := Replication.Matched(n, from, req.End());
      ApplyCommittedFollows(n1.(commitIndex := BestCommit(n1, LastIndex(n1.log))), v, k);
    }
  }

  lemma JoinFollows(n: NodeState, id: NodeID, addr: Addr, v: Members, k: nat)
    requires Follows(n, v, k)
    ensures Follows(AdmitObserver(n, id, addr), v, k)
  {
    assert VoterPart(AdmitObserver(n, id, addr).members) == VoterPart(n.members);
  }

  lemma StepFollows(c: State, s: Step, v: Members, k: nat)
    requires RealIDs(c, s) && Follows(c.nodes[s.a], v, k)
    ensures s.a in Apply(c, s).nodes && Follows(Apply(c, s).nodes[s.a], v, k)
  {
    var n := c.nodes[s.a];
    if s.RecvAppend? {
      RecvAppendFollows(n, s.appendReq, s.pick, v, k);
    } else if s.RecvAppendReply? {
      ReplyFollows(n, s.appendReply.from, s.appendReply.req, s.appendReply.resp, v, k);
    } else if s.Join? {
      JoinFollows(n, s.newID, s.newAddr, v, k);
    } else if Small(s) {
      SmallStepFrame(c, s);
    }
  }

  lemma {:induction false} RunFollows(c: State, steps: seq<Step>, a: Addr, v: Members, k: nat)
    requires Run(c, steps, RealIDs) && a in c.nodes && Follows(c.nodes[a], v, k)
    ensures a in After(c, steps, RealIDs).nodes && Follows(After(c, steps, RealIDs).nodes[a], v, k)
    decreases |steps|
  {
    if steps != [] {
      StepTouchesOne(c, steps[0]);
      if steps[0].a == a {
        StepFollows(c, steps[0], v, k);
      }
      RunFollows(Apply(c, steps[0]), steps[1..], a, v, k);
    }
  }

  /** From any state, over any run in which no voter is renamed: a node's voters are its voters then, folded over the
      entries it has applied since. */
  lemma AppliedMembershipIsAFold(c: State, steps: seq<Step>, a: Addr)
    requires Run(c, steps, RealIDs) && a in c.nodes
    ensures a in After(c, steps, RealIDs).nodes
    ensures var n, n' := c.nodes[a], After(c, steps, RealIDs).nodes[a];
      && |n.applied| <= |n'.applied|
      && VoterPart(n'.members) == Fold(VoterPart(n.members), n'.applied[|n.applied|..])
  {
    assert c.nodes[a].applied[|c.nodes[a].applied|..] == [];
    RunFollows(c, steps, a, VoterPart(c.nodes[a].members), |c.nodes[a].applied|);
  }

  /** The voters of `a` have followed the log since it had applied `k` entries with voters `v`: in every state of the
      run, and whenever it has adopted a leader. */
  ghost predicate FollowsThroughout(c: State, steps: seq<Step>, a: Addr, v: Members, k: nat)
    requires Run(c, steps, AnyStep)
    decreases |steps|
  {
    && a in c.nodes && Follows(c.nodes[a], v, k)
    && (steps != [] ==>
          && (Adopts(c, steps[0], a) ==> Follows(FollowLeader(c.nodes[a], steps[0].appendReq, steps[0].pick), v, k))
          && FollowsThroughout(Apply(c, steps[0]), steps[1..], a, v, k))
  }

  predicate Adopts(c: State, s: Step, a: Addr) {
    s.RecvAppend? && s.a == a && a in c.nodes && s.appendReq.term >= c.nodes[a].term
  }

  /** No request of the run makes `a` rename a voter. */
  ghost predicate NoVoterRenamed(c: State, steps: seq<Step>, a: Addr)
    requires Run(c, steps, AnyStep)
    decreases |steps|
  {
    steps != [] ==>
      && (Adopts(c, steps[0], a) ==> !Renames(c.nodes[a], steps[0].appendReq, steps[0].pick))
      && NoVoterRenamed(Apply(c, steps[0]), steps[1..], a)
  }

  lemma {:induction false} RunFollowsIff(c: State, steps: seq<Step>, a: Addr, v: Members, k: nat)
    requires Run(c, steps, AnyStep) && a in c.nodes && Follows(c.nodes[a], v, k)
    ensures FollowsThroughout(c, steps, a, v, k) <==> NoVoterRenamed(c, steps, a)
    decreases |steps|
  {
    if steps != [] {
      StepTouchesOne(c, steps[0]);
      if Adopts(c, steps[0], a) {
        AdoptFollowsIff(c.nodes[a], steps[0].appendReq, steps[0].pick, v, k);
      }
      if !(Adopts(c, steps[0], a) && Renames(c.nodes[a], steps[0].appendReq, steps[0].pick)) {
        if steps[0].a == a {
          StepFollows(c, steps[0], v, k);
        }
        RunFollowsIff(Apply(c, steps[0]), steps[1..], a, v, k);
      }
    }
  }

  /** Over every run of the code: a node's voters are its voters at the start folded over what it has applied since,
      throughout, if and only if no request makes it rename a voter. */
  lemma MembershipIsAFoldIff(c: State, steps: seq<Step>, a: Addr)
    requires Run(c, steps, AnyStep) && a in c.nodes
    ensures FollowsThroughout(c, steps, a, VoterPart(c.nodes[a].members), |c.nodes[a].applied|)
       <==> NoVoterRenamed(c, steps, a)
  {
    assert c.nodes[a].applied[|c.nodes[a].applied|..] == [];
    RunFollowsIff(c, steps, a, VoterPart(c.nodes[a].members), |c.nodes[a].applied|);
  }

  // ----- each index at most once, in increasing order -----

  /** The indices applied so far are strictly increasing and none is beyond lastApplied. */
  predicate InOrder(n: NodeState) {
    && (forall p, q :: 0 <= p < q < |n.applied| ==> n.applied[p].index < n.applied[q].index)
    && (forall p :: 0 <= p < |n.applied| ==> n.applied[p].index <= n.lastApplied)
  }

  lemma ApplyNextInOrder(n: NodeState)
    requires InOrder(n) && Indexed(n.log)
    ensures InOrder(ApplyEntry(n.(lastApplied := n.lastApplied + 1)))
  {
  }

  lemma {:induction false} ApplyCommittedInOrder(n: NodeState)
    requires InOrder(n) && Indexed(n.log)
    ensures InOrder(ApplyCommitted(n))
    decreases n.commitIndex - n.lastApplied
  {
    if n.lastApplied < n.commitIndex {
      var n1 := n.(lastApplied := n.lastApplied + 1);
      ApplyNextInOrder(n);
      ApplyEntryFrame(n1);
      ApplyCommittedInOrder(ApplyEntry(n1));
    }
  }

  lemma RecvAppendInOrder(n: NodeState, req: AppendRequest, pick: NodeID)
    requires InOrder(n) && Indexed(HandleAppendEntries(n, req, pick).0.log)
    ensures InOrder(HandleAppendEntries(n, req, pick).0)
  {
    LogMatching.HandleAppendEntriesFrame(n, req, pick);
    if req.term >= n.term && PrevMatches(n.log, req) {
      var n2 := FollowLeader(n, req, pick).(log := AppendTo(n.log, req));
      if req.leaderCommit > n2.commitIndex {
        ApplyCommittedInOrder(n2.(commitIndex := if req.leaderCommit < LastIndex(n2.log) then req.leaderCommit
          else LastIndex(n2.log)));
      }
    }
  }

  lemma ReplyInOrder(n: NodeState, from: Addr, req: AppendRequest, resp: AppendResponse)
    requires InOrder(n) && Indexed(n.log)
    ensures InOrder(HandleAppendReply(n, from, req, resp))
  {
    if resp.term <= n.term && resp.success {
      var n1 := Replication.Matched(n, from, req.End());
      ApplyCommittedInOrder(n1.(commitIndex := BestCommit(n1, LastIndex(n1.log))));
    }
  }

  lemma StepInOrder(c: State, s: Step)
    requires ShapeInv(c) && Enabled(c, s) && InOrder(c.nodes[s.a])
    ensures s.a in Apply(c, s).nodes && InOrder(Apply(c, s).nodes[s.a])
  {
    var n := c.nodes[s.a];
    StepTouchesOne(c, s);
    assert Indexed(n.log);
    if s.RecvAppend? {
      StepShape(c, s);
      assert Indexed(Apply(c, s).nodes[s.a].log);
      RecvAppendInOrder(n, s.appendReq, s.pick);
    } else if s.RecvAppendReply? {
      ReplyInOrder(n, s.appendReply.from, s.appendReply.req, s.appendReply.resp);
    } else if Small(s) {
      SmallStepFrame(c, s);
    }
  }

  lemma {:induction false} RunInOrder(c: State, steps: seq<Step>, a: Addr)
    requires ShapeInv(c) && Run(c, steps, AnyStep) && a in c.nodes && InOrder(c.nodes[a])
    ensures var d := After(c, steps, AnyStep); a in d.nodes && InOrder(d.nodes[a])
    decreases |steps|
  {
    if steps != [] {
      StepTouchesOne(c, steps[0]);
      StepShape(c, steps[0]);
      if steps[0].a == a {
        StepInOrder(c, steps[0]);
      }
      RunInOrder(Apply(c, steps[0]), steps[1..], a);
    }
  }

  /** Over every run of the code, static or dynamic and from any peer lists: a node applies each log index at
      most once and in increasing order, even when its log is cut back below what it has committed. */
  lemma AppliedAtMostOnce(conf: Config, mode: Mode, peers: map<Addr, set<Addr>>, c: State, a: Addr)
    requires Reaches(InitWith(conf, mode, peers), c, AnyStep) && a in conf
    ensures a in c.nodes
    ensures forall p, q :: 0 <= p < q < |c.nodes[a].applied| ==>
      c.nodes[a].applied[p].index < c.nodes[a].applied[q].index
  {
    var c0 := InitWith(conf, mode, peers);
    var steps :| Run(c0, steps, AnyStep) && After(c0, steps, AnyStep) == c;
    RunInOrder(c0, steps, a);
  }

  // ----- records and keys -----

  lemma {:induction false} ApplyCommittedKeyed(n: NodeState)
    requires Membership.KeyedByID(n.members)
    ensures Membership.KeyedByID(ApplyCommitted(n).members)
    decreases n.commitIndex - n.lastApplied
  {
    if n.lastApplied < n.commitIndex {
      var n1 := n.(lastApplied := n.lastApplied + 1);
      ApplyEntryFrame(n1);
      ApplyEntryKeyed(n1);
      ApplyCommittedKeyed(ApplyEntry(n1));
    }
  }

  lemma ApplyEntryKeyed(n: NodeState)
    requires Membership.KeyedByID(n.members)
    ensures Membership.KeyedByID(ApplyEntry(n).members)
  {
  }

  lemma RecvAppendKeyed(n: NodeState, req: AppendRequest, pick: NodeID)
    requires Membership.KeyedByID(n.members)
    ensures Membership.KeyedByID(HandleAppendEntries(n, req, pick).0.members)
  {
    if req.term >= n.term {
      var n1 := FollowLeader(n, req, pick);
      assert Membership.KeyedByID(n1.members);
      if PrevMatches(n1.log, req) {
        var n2 := n1.(log := AppendTo(n1.log, req));
        if req.leaderCommit > n2.commitIndex {
          ApplyCommittedKeyed(n2.(commitIndex := if req.leaderCommit < LastIndex(n2.log) then req.leaderCommit
            else LastIndex(n2.log)));
        }
      }
    }
  }

  lemma ReplyKeyed(n: NodeState, from: Addr, req: AppendRequest, resp: AppendResponse)
    requires Membership.KeyedByID(n.members)
    ensures Membership.KeyedByID(HandleAppendReply(n, from, req, resp).members)
  {
    if resp.term <= n.term && resp.success {
      var n1 := Replication.Matched(n, from, req.End());
      ApplyCommittedKeyed(n1.(commitIndex := BestCommit(n1, LastIndex(n1.log))));
    }
  }

  lemma StepKeyed(c: State, s: Step)
    requires Enabled(c, s) && Membership.KeyedByID(c.nodes[s.a].members)
    ensures s.a in Apply(c, s).nodes && Membership.KeyedByID(Apply(c, s).nodes[s.a].members)
  {
    var n := c.nodes[s.a];
    if s.RecvAppend? {
      RecvAppendKeyed(n, s.appendReq, s.pick);
    } else if s.RecvAppendReply? {
      ReplyKeyed(n, s.appendReply.from, s.appendReply.req, s.appendReply.resp);
    } else if Small(s) && !s.Join? {
      SmallStepFrame(c, s);
    }
  }

  lemma {:induction false} RunKeyed(c: State, steps: seq<Step>, rule: (State, Step) -> bool, a: Addr)
    requires Run(c, steps, rule) && a in c.nodes && Membership.KeyedByID(c.nodes[a].members)
    ensures a in After(c, steps, rule).nodes && Membership.KeyedByID(After(c, steps, rule).nodes[a].members)
    decreases |steps|
  {
    if steps != [] {
      StepTouchesOne(c, steps[0]);
      if steps[0].a == a {
        StepKeyed(c, steps[0]);
      }
      RunKeyed(Apply(c, steps[0]), steps[1..], rule, a);
    }
  }

  /** Over any run, renames included, every member record carries the ID it is stored under. */
  lemma MembersStayKeyed(conf: Config, mode: Mode, peers: map<Addr, set<Addr>>, rule: (State, Step) -> bool, c: State,
                         a: Addr)
    requires Reaches(InitWith(conf, mode, peers), c, rule) && a in conf
    ensures a in c.nodes && Membership.KeyedByID(c.nodes[a].members)
  {
    var c0 := InitWith(conf, mode, peers);
    var steps :| Run(c0, steps, rule) && After(c0, steps, rule) == c;
    RunKeyed(c0, steps, rule, a);
  }
}
