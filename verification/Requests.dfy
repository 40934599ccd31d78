/** What a leader's requests carry, for static and dynamic clusters alike: they start within its log, run to its
    end, and announce no commit index beyond it, so that a follower commits nothing it did not just verify. */
module Requests {
  import opened RaftTypes
  import opened RaftNode
  import opened Cluster
  import opened Replication
  import opened Safety
  import Membership
  import LogMatching

  // ----- the invariant -----

  /** A leader's indices stay within its log. */
  ghost predicate WithinLog(n: NodeState) {
    n.role == Leader ==> n.commitIndex < |n.log| && forall f {:trigger Lookup(n.nextIndex, f)} ::
      Lookup(n.nextIndex, f) <= |n.log|
  }

  ghost predicate AllWithin(c: State) {
    forall a {:trigger WithinLog(c.nodes[a])} :: a in c.nodes ==> WithinLog(c.nodes[a])
  }

  /** `n` leads, or may still come to lead, in its current term. */
  predicate MayLead(n: NodeState, h: Reigns) { n.role == Leader || n.term !in h.leaders }

  /** What a broadcast captured in the current term is no newer than the node's own commit index. */
  predicate BeatWithin(c: State, a: Addr, b: Beat) {
    a in c.nodes && b.term <= c.nodes[a].term
    && (b.term == c.nodes[a].term && MayLead(c.nodes[a], c.hist.reigns) ==> b.commit <= c.nodes[a].commitIndex)
  }

  predicate AnnouncesWithin(m: AppendRequest) { m.leaderCommit <= m.End() }

  /** A request that somebody accepted ends within its leader's log. */
  predicate SuccessWithin(h: Reigns, r: AppendReply) {
    r.resp.success ==> r.req.term in h.leaders && r.req.term in h.termLog && r.req.End() < |h.termLog[r.req.term]|
  }

  /** So does everything that was ever acknowledged. */
  predicate AckWithin(h: Reigns, k: Ack) {
    k.term in h.leaders && k.term in h.termLog && k.end < |h.termLog[k.term]|
  }

  ghost predicate SentInv(c: State) {
    && LogMatching.Inv(c)
    && (forall a, b {:trigger BeatWithin(c, a, b)} :: (a, b) in c.beats ==> BeatWithin(c, a, b))
    && (forall m {:trigger AnnouncesWithin(m)} :: m in c.appendReqs ==> AnnouncesWithin(m))
    && (forall r {:trigger SuccessWithin(c.hist.reigns, r)} :: r in c.appendReplies ==> SuccessWithin(c.hist.reigns, r))
    && (forall k {:trigger AckWithin(c.hist.reigns, k)} :: k in c.hist.acks ==> AckWithin(c.hist.reigns, k))
  }

  // ----- one node -----

  /** becomeLeader brings all indices within the log exactly when nothing stale points beyond it. */
  lemma TakeLeadWithinIff(n: NodeState)
    ensures WithinLog(BecomeLeader(n)) <==> NoStaleNext(n) && n.commitIndex < |n.log|
  {
    var peers, n' := Membership.PeerVoters(n.members, n.id), BecomeLeader(n);
    forall f ensures Lookup(n'.nextIndex, f) == if f in peers then |n.log| else Lookup(n.nextIndex, f) {
    }
  }

  lemma NextWithin(n: NodeState, n': NodeState, from: Addr)
    requires WithinLog(n) && n'.log == n.log && n'.commitIndex < |n.log| && (n'.role == Leader ==> n.role == Leader)
    requires n'.nextIndex == n.nextIndex
      || (n'.nextIndex == n.nextIndex[from := Lookup(n'.nextIndex, from)] && Lookup(n'.nextIndex, from) <= |n.log|)
    ensures WithinLog(n')
  {
    if n'.role == Leader {
      forall f ensures Lookup(n'.nextIndex, f) <= |n'.log| {
        assert Lookup(n.nextIndex, f) <= |n.log|;
      }
    }
  }

  lemma ReplyWithin(n: NodeState, from: Addr, req: AppendRequest, resp: AppendResponse)
    requires WithinLog(n) && n.role == Leader && (resp.term <= n.term && resp.success ==> req.End() < |n.log|)
    ensures WithinLog(HandleAppendReply(n, from, req, resp))
  {
    var r := HandleAppendReply(n, from, req, resp);
    if resp.term <= n.term {
      assert Lookup(n.nextIndex, from) <= |n.log|;
      if resp.success {
        var n1 := Matched(n, from, req.End());
        ApplyCommittedFrame(n1.(commitIndex := BestCommit(n1, LastIndex(n1.log))));
      }
      NextWithin(n, r, from);
    }
  }

  /** A request built within the log reaches its end. */
  lemma RequestShape(n: NodeState, to: Addr, term: nat, commit: nat)
    requires Lookup(n.nextIndex, to) <= |n.log|
    ensures var m := MakeAppendRequest(n, to, term, commit);
      && m.prevIndex < |n.log| && m.prevTerm == n.log[m.prevIndex].term
      && m.entries == n.log[m.prevIndex + 1..] && m.End() == LastIndex(n.log)
  {
  }

  // ----- steps -----

  lemma BeatsLater(c: State, c': State, a: Addr)
    requires SentInv(c) && Onward(c, c', a)
    requires c'.nodes[a].term > c.nodes[a].term
      || (MayLead(c'.nodes[a], c'.hist.reigns) ==>
        MayLead(c.nodes[a], c.hist.reigns) && c'.nodes[a].commitIndex >= c.nodes[a].commitIndex)
    requires forall b {:trigger BeatWithin(c', a, b)} :: (a, b) in c'.beats && (a, b) !in c.beats ==>
      BeatWithin(c', a, b)
    requires forall x, b :: (x, b) in c'.beats && x != a ==> (x, b) in c.beats
    ensures forall x, b {:trigger BeatWithin(c', x, b)} :: (x, b) in c'.beats ==> BeatWithin(c', x, b)
  {
    forall x, b | (x, b) in c'.beats ensures BeatWithin(c', x, b) {
      if (x, b) in c.beats {
        assert BeatWithin(c, x, b);
      }
    }
  }

  lemma SuccessesLater(c: State, c': State, a: Addr)
    requires SentInv(c) && Onward(c, c', a)
    requires forall r {:trigger SuccessWithin(c'.hist.reigns, r)} :: r in c'.appendReplies && r !in c.appendReplies ==>
      SuccessWithin(c'.hist.reigns, r)
    ensures forall r {:trigger SuccessWithin(c'.hist.reigns, r)} :: r in c'.appendReplies ==>
      SuccessWithin(c'.hist.reigns, r)
  {
    forall r | r in c'.appendReplies ensures SuccessWithin(c'.hist.reigns, r) {
      if r in c.appendReplies {
        assert SuccessWithin(c.hist.reigns, r);
      }
    }
  }

  lemma AcceptedEndsWithin(c: State, a: Addr, req: AppendRequest, pick: NodeID)
    requires LogMatching.Inv(c) && a in c.nodes && req in c.appendReqs
    ensures SuccessWithin(c.hist.reigns, AppendReply(a, req, HandleAppendEntries(c.nodes[a], req, pick).1))
  {
    var n := c.nodes[a];
    assert LogMatching.NodeOK(n, c.hist.reigns) && LogMatching.RequestOK(req, c.hist.reigns);
    LogMatching.HandleAppendEntriesFrame(n, req, pick);
    if LogMatching.IsProbe(req) {
      LogMatching.ProbeFails(n, c.hist.reigns, req);
    }
  }

  /** What a step does to the commit index of a node that may lead in its term. */
  lemma StepCommit(c: State, s: Step)
    requires SentInv(c) && RepliesInReign(c, s) && Onward(c, Apply(c, s), s.a)
    ensures var n, n', h' := c.nodes[s.a], Apply(c, s).nodes[s.a], Apply(c, s).hist.reigns;
      n'.term > n.term || (MayLead(n', h') ==> MayLead(n, c.hist.reigns) && n'.commitIndex >= n.commitIndex)
  {
    var n := c.nodes[s.a];
    if s.RecvAppend? {
      assert LogMatching.RequestOK(s.appendReq, c.hist.reigns);
      LogMatching.HandleAppendEntriesFrame(n, s.appendReq, s.pick);
    } else if s.RecvAppendReply? {
      ReplyCommit(n, s.appendReply.from, s.appendReply.req, s.appendReply.resp);
    } else if Small(s) {
      SmallStepFrame(c, s);
    }
  }

  lemma ReplyCommit(n: NodeState, from: Addr, req: AppendRequest, resp: AppendResponse)
    ensures var r := HandleAppendReply(n, from, req, resp);
      r.term > n.term
        || (r.term == n.term && r.commitIndex >= n.commitIndex && (r.role == n.role || r.role == Follower))
  {
    if resp.term <= n.term && resp.success {
      var n1 := Matched(n, from, req.End());
      ApplyCommittedFrame(n1.(commitIndex := BestCommit(n1, LastIndex(n1.log))));
    }
  }

  lemma StepBeats(c: State, s: Step)
    requires SentInv(c) && RepliesInReign(c, s) && Onward(c, Apply(c, s), s.a)
    ensures var c' := Apply(c, s); forall x, b {:trigger BeatWithin(c', x, b)} :: (x, b) in c'.beats ==>
      BeatWithin(c', x, b)
  {
    StepCommit(c, s);
    BeatsLater(c, Apply(c, s), s.a);
  }

  lemma StepReplies(c: State, s: Step)
    requires SentInv(c) && RepliesInReign(c, s) && Onward(c, Apply(c, s), s.a)
    ensures var c' := Apply(c, s);
      forall r {:trigger SuccessWithin(c'.hist.reigns, r)} :: r in c'.appendReplies ==> SuccessWithin(c'.hist.reigns, r)
  {
    if s.RecvAppend? {
      AcceptedEndsWithin(c, s.a, s.appendReq, s.pick);
    } else if Small(s) {
      SmallStepFrame(c, s);
    }
    SuccessesLater(c, Apply(c, s), s.a);
  }

  lemma AcksWithinLater(c: State, c': State, a: Addr)
    requires SentInv(c) && Onward(c, c', a)
    requires forall k {:trigger AckWithin(c'.hist.reigns, k)} ::
      k in c'.hist.acks && k !in c.hist.acks ==> AckWithin(c'.hist.reigns, k)
    ensures forall k {:trigger AckWithin(c'.hist.reigns, k)} :: k in c'.hist.acks ==> AckWithin(c'.hist.reigns, k)
  {
    forall k | k in c'.hist.acks ensures AckWithin(c'.hist.reigns, k) {
      if k in c.hist.acks {
        assert AckWithin(c.hist.reigns, k);
      }
    }
  }

  lemma StepAcksWithin(c: State, s: Step)
    requires SentInv(c) && RepliesInReign(c, s) && Onward(c, Apply(c, s), s.a)
    ensures var c' := Apply(c, s);
      forall k {:trigger AckWithin(c'.hist.reigns, k)} :: k in c'.hist.acks ==> AckWithin(c'.hist.reigns, k)
  {
    if s.RecvAppend? {
      AcceptedEndsWithin(c, s.a, s.appendReq, s.pick);
    } else if s.Propose? {
      assert LogMatching.NodeOK(c.nodes[s.a], c.hist.reigns);
    } else if Small(s) {
      SmallStepFrame(c, s);
    }
    AcksWithinLater(c, Apply(c, s), s.a);
  }

  lemma SendWithin(c: State, a: Addr, to: Addr, beat: Beat)
    requires SentInv(c) && RepliesInReign(c, SendAppend(a, to, beat)) && WithinLog(c.nodes[a])
    ensures AnnouncesWithin(MakeAppendRequest(c.nodes[a], to, beat.term, beat.commit))
  {
    assert BeatWithin(c, a, beat) && Lookup(c.nodes[a].nextIndex, to) <= |c.nodes[a].log|;
    RequestShape(c.nodes[a], to, beat.term, beat.commit);
  }

  lemma StepSent(c: State, s: Step)
    requires SentInv(c) && AllWithin(c) && RepliesInReign(c, s)
    ensures SentInv(Apply(c, s))
  {
    assert WithinLog(c.nodes[s.a]);
    LogMatching.StepKeeps(c, s);
    StepOnward(c, s);
    StepBeats(c, s);
    StepReplies(c, s);
    StepAcksWithin(c, s);
    if s.SendAppend? {
      SendWithin(c, s.a, s.to, s.beat);
    } else if Small(s) {
      SmallStepFrame(c, s);
    }
  }

  lemma OthersWithin(c: State, c': State, a: Addr)
    requires AllWithin(c) && a in c.nodes && a in c'.nodes && c'.nodes == c.nodes[a := c'.nodes[a]]
    ensures AllWithin(c') <==> WithinLog(c'.nodes[a])
  {
    forall b | b in c'.nodes && b != a ensures WithinLog(c'.nodes[b]) {
      assert WithinLog(c.nodes[b]);
    }
  }

  lemma ReplyStepWithin(c: State, a: Addr, reply: AppendReply)
    requires SentInv(c) && RepliesInReign(c, RecvAppendReply(a, reply)) && WithinLog(c.nodes[a])
    ensures WithinLog(HandleAppendReply(c.nodes[a], reply.from, reply.req, reply.resp))
  {
    var n := c.nodes[a];
    assert SuccessWithin(c.hist.reigns, reply) && LogMatching.NodeOK(n, c.hist.reigns);
    if n.role == Leader {
      ReplyWithin(n, reply.from, reply.req, reply.resp);
    } else {
      LogMatching.HandleAppendReplyFrame(n, reply.from, reply.req, reply.resp);
    }
  }

  lemma GrownWithin(n: NodeState, n': NodeState, at: Addr)
    requires WithinLog(n) && |n'.log| >= |n.log| && n'.commitIndex == n.commitIndex
    requires n'.role == Leader ==> n.role == Leader
    requires n'.nextIndex == n.nextIndex || n'.nextIndex == n.nextIndex[at := |n.log|]
    ensures WithinLog(n')
  {
    if n'.role == Leader {
      forall f ensures Lookup(n'.nextIndex, f) <= |n'.log| {
        assert Lookup(n.nextIndex, f) <= |n.log|;
      }
    }
  }

  lemma NodeWithin(c: State, s: Step)
    requires SentInv(c) && RepliesInReign(c, s) && WithinLog(c.nodes[s.a]) && !s.TakeLead?
    ensures s.a in Apply(c, s).nodes && WithinLog(Apply(c, s).nodes[s.a])
  {
    var n := c.nodes[s.a];
    StepTouchesOne(c, s);
    var n' := Apply(c, s).nodes[s.a];
    if s.RecvAppend? {
      LogMatching.HandleAppendEntriesFrame(n, s.appendReq, s.pick);
    } else if s.RecvAppendReply? {
      ReplyStepWithin(c, s.a, s.appendReply);
    } else if Small(s) && !s.Join? {
      SameWithin(c, s);
    } else {
      GrownWithin(n, n', if s.SendAppend? then s.to else if s.Join? then s.newAddr else "");
    }
  }

  lemma SameWithin(c: State, s: Step)
    requires Enabled(c, s) && Small(s) && !s.Join? && WithinLog(c.nodes[s.a]) && s.a in Apply(c, s).nodes
    ensures WithinLog(Apply(c, s).nodes[s.a])
  {
    SmallStepFrame(c, s);
    GrownWithin(c.nodes[s.a], Apply(c, s).nodes[s.a], "");
  }

  /** Every step but becomeLeader keeps the leaders' indices within their logs, and becomeLeader does exactly
      when nothing stale points beyond. */
  lemma StepWithinIff(c: State, s: Step)
    requires SentInv(c) && AllWithin(c) && RepliesInReign(c, s)
    ensures AllWithin(Apply(c, s))
      <==> (s.TakeLead? ==> NoStaleNext(c.nodes[s.a]) && c.nodes[s.a].commitIndex < |c.nodes[s.a].log|)
  {
    assert WithinLog(c.nodes[s.a]);
    StepTouchesOne(c, s);
    OthersWithin(c, Apply(c, s), s.a);
    if s.TakeLead? {
      TakeLeadWithinIff(c.nodes[s.a]);
    } else {
      NodeWithin(c, s);
    }
  }

  // ----- over runs -----

  ghost predicate WithinThroughout(c: State, steps: seq<Step>)
    requires Run(c, steps, RepliesInReign)
    decreases |steps|
  {
    AllWithin(c) && (steps != [] ==> WithinThroughout(Apply(c, steps[0]), steps[1..]))
  }

  ghost predicate PreparedThroughout(c: State, steps: seq<Step>)
    requires Run(c, steps, RepliesInReign)
    decreases |steps|
  {
    steps != [] ==> Ready(c, steps[0]) && PreparedThroughout(Apply(c, steps[0]), steps[1..])
  }

  ghost predicate Ready(c: State, s: Step)
    requires s.a in c.nodes
  {
    s.TakeLead? ==> NoStaleNext(c.nodes[s.a]) && c.nodes[s.a].commitIndex < |c.nodes[s.a].log|
  }

  lemma {:induction false} RunWithinIff(c: State, steps: seq<Step>)
    requires SentInv(c) && AllWithin(c) && Run(c, steps, RepliesInReign)
    ensures WithinThroughout(c, steps) <==> PreparedThroughout(c, steps)
    decreases |steps|
  {
    if steps != [] {
      StepSent(c, steps[0]);
      StepWithinIff(c, steps[0]);
      if AllWithin(Apply(c, steps[0])) {
        RunWithinIff(Apply(c, steps[0]), steps[1..]);
      }
    }
  }

  lemma InitSent(conf: Config, mode: Mode, peers: map<Addr, set<Addr>>)
    ensures SentInv(InitWith(conf, mode, peers)) && AllWithin(InitWith(conf, mode, peers))
  {
    LogMatching.InitInv(conf, mode, peers);
  }

  /** Static or dynamic, from any peer lists: in every state of a run each leader's nextIndex and commit index lie
      within its log, if and only if they do so for everyone it does not reset whenever it takes the lead. */
  lemma IndicesWithinIff(conf: Config, mode: Mode, peers: map<Addr, set<Addr>>, steps: seq<Step>)
    requires Run(InitWith(conf, mode, peers), steps, RepliesInReign)
    ensures WithinThroughout(InitWith(conf, mode, peers), steps)
      <==> PreparedThroughout(InitWith(conf, mode, peers), steps)
  {
    InitSent(conf, mode, peers);
    RunWithinIff(InitWith(conf, mode, peers), steps);
  }

  ghost predicate Prepared(c: State, s: Step) { RepliesInReign(c, s) && Ready(c, s) }

  lemma {:induction false} RunSent(c: State, steps: seq<Step>)
    requires SentInv(c) && AllWithin(c) && Run(c, steps, Prepared)
    ensures SentInv(After(c, steps, Prepared)) && AllWithin(After(c, steps, Prepared))
    decreases |steps|
  {
    if steps != [] {
      StepSent(c, steps[0]);
      StepWithinIff(c, steps[0]);
      RunSent(Apply(c, steps[0]), steps[1..]);
    }
  }

  lemma ReachedSent(conf: Config, mode: Mode, peers: map<Addr, set<Addr>>, c: State)
    requires Reaches(InitWith(conf, mode, peers), c, Prepared)
    ensures SentInv(c) && AllWithin(c)
  {
    var c0 := InitWith(conf, mode, peers);
    var steps :| Run(c0, steps, Prepared) && After(c0, steps, Prepared) == c;
    InitSent(conf, mode, peers);
    RunSent(c0, steps);
  }

  /** A request that a leader builds, for voter or observer, starts at an entry the leader has, carries everything
      from there to the end of its log, and announces a commit index within it. */
  lemma RequestsReachTheEnd(conf: Config, mode: Mode, peers: map<Addr, set<Addr>>, c: State, a: Addr, to: Addr,
                            beat: Beat)
    requires Reaches(InitWith(conf, mode, peers), c, Prepared) && Prepared(c, SendAppend(a, to, beat))
    ensures var n := c.nodes[a];
      var m := MakeAppendRequest(n, to, beat.term, beat.commit);
      && m.prevIndex < |n.log| && m.prevTerm == n.log[m.prevIndex].term
      && m.entries == n.log[m.prevIndex + 1..] && m.End() == LastIndex(n.log)
      && m.leaderCommit <= m.End()
  {
    ReachedSent(conf, mode, peers, c);
    assert WithinLog(c.nodes[a]) && Lookup(c.nodes[a].nextIndex, to) <= |c.nodes[a].log|;
    RequestShape(c.nodes[a], to, beat.term, beat.commit);
    SendWithin(c, a, to, beat);
  }

  /** When a request is built nothing of its term that anybody has accepted or acknowledged ends beyond it: it is in
      turn everywhere, and can be overtaken only by a request built later. */
  lemma LaterRequestsReachFurther(conf: Config, mode: Mode, peers: map<Addr, set<Addr>>, c: State, a: Addr, to: Addr,
                                  beat: Beat)
    requires Reaches(InitWith(conf, mode, peers), c, Prepared) && Prepared(c, SendAppend(a, to, beat))
    ensures var m := MakeAppendRequest(c.nodes[a], to, beat.term, beat.commit);
      && (forall r :: r in c.appendReplies && r.resp.success && r.req.term == m.term ==> r.req.End() <= m.End())
      && (forall f :: NotOvertaken(c.hist, f, m))
  {
    ReachedSent(conf, mode, peers, c);
    RequestsReachTheEnd(conf, mode, peers, c, a, to, beat);
    assert LogMatching.NodeOK(c.nodes[a], c.hist.reigns);
    var m := MakeAppendRequest(c.nodes[a], to, beat.term, beat.commit);
    forall r | r in c.appendReplies && r.resp.success && r.req.term == m.term ensures r.req.End() <= m.End() {
      assert SuccessWithin(c.hist.reigns, r);
    }
    forall k | k in c.hist.acks && k.term == m.term ensures k.end <= m.End() {
      assert AckWithin(c.hist.reigns, k);
    }
  }

  /** A follower that accepts a request commits nothing beyond the part it has just verified: it moves exactly to
      the leader's commit index if that is ahead, and its log agrees with the leader's through the request's end. */
  lemma FollowerCommitsVerifiedEntries(conf: Config, mode: Mode, peers: map<Addr, set<Addr>>, c: State, a: Addr,
                                       req: AppendRequest, pick: NodeID)
    requires Reaches(InitWith(conf, mode, peers), c, Prepared) && Prepared(c, RecvAppend(a, req, pick))
    requires req.term >= c.nodes[a].term && PrevMatches(c.nodes[a].log, req)
    ensures var n, n' := c.nodes[a], HandleAppendEntries(c.nodes[a], req, pick).0;
      && req.leaderCommit <= req.End()
      && n'.commitIndex == (if req.leaderCommit > n.commitIndex then req.leaderCommit else n.commitIndex)
      && req.term in c.hist.reigns.termLog && LogMatching.Agree(n'.log, c.hist.reigns.termLog[req.term], req.End())
  {
    ReachedSent(conf, mode, peers, c);
    var n := c.nodes[a];
    assert AnnouncesWithin(req) && LogMatching.NodeOK(n, c.hist.reigns) && LogMatching.RequestOK(req, c.hist.reigns);
    if LogMatching.IsProbe(req) {
      LogMatching.ProbeFails(n, c.hist.reigns, req);
    }
    LogMatching.AcceptedAgrees(n.log, c.hist.reigns, req);
    LogMatching.HandleAppendEntriesFrame(n, req, pick);
    AcceptedCommit(n, req, pick);
  }

  lemma AcceptedCommit(n: NodeState, req: AppendRequest, pick: NodeID)
    requires req.term >= n.term && PrevMatches(n.log, req) && req.leaderCommit < |AppendTo(n.log, req)|
    ensures HandleAppendEntries(n, req, pick).0.commitIndex
         == (if req.leaderCommit > n.commitIndex then req.leaderCommit else n.commitIndex)
  {
    var n2 := FollowLeader(n, req, pick).(log := AppendTo(n.log, req));
    if req.leaderCommit > n.commitIndex {
      ApplyCommittedFrame(n2.(commitIndex := if req.leaderCommit < LastIndex(n2.log) then req.leaderCommit
        else LastIndex(n2.log)));
    }
  }
}
