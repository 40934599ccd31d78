/** Every log is made of its leaders' logs, and every request is a slice of its leader's: what runs keep in which
    a term has at most one leader and only that leader appends and sends in it. */
module LogMatching {
  import opened RaftTypes
  import opened RaftNode
  import opened Cluster

  /** The hypotheses the code does not enforce: a node takes the lead only in a term without a
      leader; it appends and sends only while it leads, and sends in its current term. */
  ghost predicate SoleLeader(c: State, s: Step) {
    Enabled(c, s) &&
    var n := c.nodes[s.a];
    match s
    case TakeLead(_) => n.term !in c.hist.reigns.leaders
    case SendAppend(_, _, beat) => n.role == Leader && beat.term == n.term
    case Propose(_, _) => n.role == Leader
    case _ => true
  }

  // ----- invariant -----

  /** Both logs reach index `i` and are equal through it. */
  predicate Agree(x: seq<LogEntry>, y: seq<LogEntry>, i: nat) {
    i < |x| && i < |y| && x[..i + 1] == y[..i + 1]
  }

  /** Every entry, with all that precedes it, comes from the log of its term's leader. */
  predicate Grounded(log: seq<LogEntry>, tl: map<nat, Entries>) {
    forall i :: 0 <= i < |log| ==> log[i].term in tl && Agree(log, tl[log[i].term], i)
  }

  /** The leader of `t` started from its log at election, all of older terms, and only added entries of `t`. */
  predicate TermLogOK(t: nat, tl: map<nat, Entries>, leaders: map<nat, Win>)
    requires t in tl
  {
    var log := tl[t];
    && Grounded(log, tl)
    && log[0] == SENTINEL
    && (forall i :: 0 <= i < |log| ==> log[i].index == i)
    && (t == 0 ==> |log| == 1)
    && (t > 0 ==>
        && t in leaders && leaders[t].log <= log
        && (forall i :: 0 <= i < |leaders[t].log| ==> log[i].term < t)
        && (forall i :: |leaders[t].log| <= i < |log| ==> log[i].term == t))
  }

  predicate HistoryOK(h: Reigns) {
    && h.termLog.Keys == {0} + h.leaders.Keys && 0 !in h.leaders
    && (forall t {:trigger TermLogOK(t, h.termLog, h.leaders)} :: t in h.termLog ==> TermLogOK(t, h.termLog, h.leaders))
  }

  predicate NodeOK(n: NodeState, h: Reigns) {
    && Grounded(n.log, h.termLog)
    && (forall i :: 0 <= i < |n.log| ==> n.log[i].term <= n.term)
    && (n.role == Leader ==>
        n.term in h.leaders && h.leaders[n.term].addr == n.addr
        && n.term in h.termLog && n.log == h.termLog[n.term])
  }

  /** A request carries a slice of its leader's log that runs to where that log ended when the request
      was built; or it probes beyond that end, which no log satisfies. */
  predicate RequestOK(m: AppendRequest, h: Reigns) {
    m.term in h.leaders && m.term in h.termLog && (IsSlice(m, h) || IsProbe(m))
  }

  predicate IsSlice(m: AppendRequest, h: Reigns)
    requires m.term in h.leaders && m.term in h.termLog
  {
    var log := h.termLog[m.term];
    && |h.leaders[m.term].log| <= m.End() + 1 <= |log|
    && m.prevTerm == log[m.prevIndex].term
    && m.entries == log[m.prevIndex + 1..m.End() + 1]
  }

  predicate IsProbe(m: AppendRequest) { m.prevIndex > 0 && m.prevTerm == 0 && m.entries == [] }

  predicate Inv(c: State) {
    && HistoryOK(c.hist.reigns)
    && (forall a {:trigger NodeOK(c.nodes[a], c.hist.reigns)} :: a in c.nodes ==>
      c.nodes[a].addr == a && NodeOK(c.nodes[a], c.hist.reigns))
    && (forall m {:trigger RequestOK(m, c.hist.reigns)} :: m in c.appendReqs ==> RequestOK(m, c.hist.reigns))
    && (forall a :: a in c.campaigns ==> a in c.nodes && c.nodes[a].term > 0)
  }

  // ----- consequences -----

  lemma GroundedMatch(x: seq<LogEntry>, y: seq<LogEntry>, tl: map<nat, Entries>, i: nat)
    requires Grounded(x, tl) && Grounded(y, tl)
    requires i < |x| && i < |y| && x[i].term == y[i].term
    ensures x[..i + 1] == y[..i + 1]
  {
  }

  lemma GroundedPrefix(log: seq<LogEntry>, tl: map<nat, Entries>, k: nat)
    requires Grounded(log, tl) && k <= |log|
    ensures Grounded(log[..k], tl)
  {
    forall i | 0 <= i < k ensures Agree(log[..k], tl[log[i].term], i) {
      assert log[..k][..i + 1] == log[..i + 1];
    }
  }

  /** No log has an entry of term 0 but the sentinel, so a probe fails everywhere. */
  lemma ProbeFails(n: NodeState, h: Reigns, m: AppendRequest)
    requires HistoryOK(h) && NodeOK(n, h) && IsProbe(m)
    ensures !PrevMatches(n.log, m)
  {
    assert TermLogOK(0, h.termLog, h.leaders);
  }

  lemma PrevAgrees(log: Entries, h: Reigns, m: AppendRequest)
    requires HistoryOK(h) && Grounded(log, h.termLog)
    requires RequestOK(m, h) && IsSlice(m, h) && PrevMatches(log, m)
    ensures m.prevIndex < |log| && log[..m.prevIndex + 1] == h.termLog[m.term][..m.prevIndex + 1]
  {
    var leaderLog := h.termLog[m.term];
    assert TermLogOK(m.term, h.termLog, h.leaders);
    if m.prevIndex == 0 {
      EntriesIndexed(log, h);
      assert log[..1] == [log[0]] && leaderLog[..1] == [leaderLog[0]];
    } else {
      GroundedMatch(log, leaderLog, h.termLog, m.prevIndex);
    }
  }

  /** An accepted request leaves a log that agrees with its leader's through the end of the request,
      and that is exactly that much of it when entries arrived. */
  lemma AcceptedAgrees(log: Entries, h: Reigns, m: AppendRequest)
    requires HistoryOK(h) && Grounded(log, h.termLog)
    requires RequestOK(m, h) && IsSlice(m, h) && PrevMatches(log, m)
    ensures Agree(AppendTo(log, m), h.termLog[m.term], m.End())
    ensures m.entries != [] ==> AppendTo(log, m) == h.termLog[m.term][..m.End() + 1]
    ensures Grounded(AppendTo(log, m), h.termLog)
  {
    var leaderLog := h.termLog[m.term];
    PrevAgrees(log, h, m);
    if m.entries != [] {
      assert AppendTo(log, m) == leaderLog[..m.End() + 1];
      assert TermLogOK(m.term, h.termLog, h.leaders);
      GroundedPrefix(leaderLog, h.termLog, m.End() + 1);
    }
  }

  // ----- growth of the history -----

  predicate Grows(h: Reigns, h': Reigns) {
    && (forall t :: t in h.leaders ==> t in h'.leaders && h'.leaders[t] == h.leaders[t])
    && (forall t :: t in h.termLog ==> t in h'.termLog && h.termLog[t] <= h'.termLog[t])
  }

  lemma GroundedGrows(log: seq<LogEntry>, h: Reigns, h': Reigns)
    requires Grows(h, h') && Grounded(log, h.termLog)
    ensures Grounded(log, h'.termLog)
  {
    forall i | 0 <= i < |log| ensures log[i].term in h'.termLog && Agree(log, h'.termLog[log[i].term], i) {
      var t := log[i].term;
      assert h'.termLog[t][..|h.termLog[t]|] == h.termLog[t];
      assert h'.termLog[t][..i + 1] == h.termLog[t][..i + 1];
    }
  }

  lemma RequestGrows(m: AppendRequest, h: Reigns, h': Reigns)
    requires Grows(h, h') && RequestOK(m, h)
    ensures RequestOK(m, h')
  {
    if IsSlice(m, h) {
      var l, l' := h.termLog[m.term], h'.termLog[m.term];
      assert l'[..|l|] == l;
      assert l'[m.prevIndex + 1..m.End() + 1] == l[m.prevIndex + 1..m.End() + 1];
      assert l'[m.prevIndex] == l[m.prevIndex];
    }
  }

  /** Growing the history keeps everything about nodes that do not lead, and about requests. */
  lemma OthersGrow(c: State, h': Reigns)
    requires Inv(c) && Grows(c.hist.reigns, h')
    ensures forall a :: a in c.nodes ==> Grounded(c.nodes[a].log, h'.termLog)
    ensures forall m :: m in c.appendReqs ==> RequestOK(m, h')
  {
    forall a | a in c.nodes ensures Grounded(c.nodes[a].log, h'.termLog) {
      assert NodeOK(c.nodes[a], c.hist.reigns);
      GroundedGrows(c.nodes[a].log, c.hist.reigns, h');
    }
    forall m | m in c.appendReqs ensures RequestOK(m, h') {
      assert RequestOK(m, c.hist.reigns);
      RequestGrows(m, c.hist.reigns, h');
    }
  }

  // ----- each step keeps the invariant -----

  lemma InitInv(conf: Config, mode: Mode, peers: map<Addr, set<Addr>>)
    ensures Inv(InitWith(conf, mode, peers))
  {
    var r := NO_HISTORY.reigns;
    assert TermLogOK(0, r.termLog, r.leaders);
  }

  /** A step of node `a` that leaves the reigns alone. */
  lemma QuietStep(c: State, c': State, a: Addr)
    requires Inv(c) && a in c.nodes
    requires a in c'.nodes && c'.nodes == c.nodes[a := c'.nodes[a]] && c'.hist.reigns == c.hist.reigns
    requires c'.nodes[a].addr == a && NodeOK(c'.nodes[a], c.hist.reigns)
    requires c'.nodes[a].term >= c.nodes[a].term
    requires forall m :: m in c'.appendReqs ==> m in c.appendReqs || RequestOK(m, c.hist.reigns)
    requires c'.campaigns.Keys <= c.campaigns.Keys + {a} && (a in c'.campaigns ==> c'.nodes[a].term > 0)
    ensures Inv(c')
  {
  }

  /** A step of node `a` that makes the reigns grow to `h'`. */
  lemma GrowingStep(c: State, c': State, a: Addr)
    requires Inv(c) && a in c.nodes
    requires a in c'.nodes && c'.nodes == c.nodes[a := c'.nodes[a]] && c'.nodes[a].addr == a
    requires Grows(c.hist.reigns, c'.hist.reigns) && HistoryOK(c'.hist.reigns)
    requires NodeOK(c'.nodes[a], c'.hist.reigns) && c'.nodes[a].term == c.nodes[a].term
    requires forall t :: t in c.hist.reigns.termLog && t != c.nodes[a].term ==>
      c'.hist.reigns.termLog[t] == c.hist.reigns.termLog[t]
    requires forall b :: b in c.nodes && b != a && c.nodes[b].role == Leader ==> c.nodes[b].term != c.nodes[a].term
    requires c'.appendReqs == c.appendReqs && c'.campaigns.Keys <= c.campaigns.Keys
    ensures Inv(c')
  {
    OthersGrow(c, c'.hist.reigns);
    forall b | b in c'.nodes ensures c'.nodes[b].addr == b && NodeOK(c'.nodes[b], c'.hist.reigns) {
      if b != a {
        assert NodeOK(c.nodes[b], c.hist.reigns);
      }
    }
  }

  lemma EntriesIndexed(log: Entries, h: Reigns)
    requires HistoryOK(h) && Grounded(log, h.termLog)
    ensures log[0] == SENTINEL
    ensures forall i :: 0 <= i < |log| ==> log[i].index == i
  {
    forall i | 0 <= i < |log| ensures log[i].index == i && (i == 0 ==> log[i] == SENTINEL) {
      var t := log[i].term;
      assert Agree(log, h.termLog[t], i) && TermLogOK(t, h.termLog, h.leaders);
      assert log[..i + 1][i] == h.termLog[t][..i + 1][i];
    }
  }

  /** A new reign begins with a log of older terms. */
  lemma EnthroneOK(h: Reigns, t: nat, w: Win)
    requires HistoryOK(h) && t > 0 && t !in h.leaders
    requires Grounded(w.log, h.termLog) && forall i :: 0 <= i < |w.log| ==> w.log[i].term <= t
    ensures Grows(h, Enthrone(h, t, w)) && HistoryOK(Enthrone(h, t, w)) && t !in h.termLog
  {
    var h' := Enthrone(h, t, w);
    assert Grows(h, h');
    forall u | u in h'.termLog ensures TermLogOK(u, h'.termLog, h'.leaders) {
      if u != t {
        assert TermLogOK(u, h.termLog, h.leaders);
        GroundedGrows(h.termLog[u], h, h');
      } else {
        GroundedGrows(w.log, h, h');
        EntriesIndexed(w.log, h);
      }
    }
  }

  lemma TakeLeadKeeps(c: State, a: Addr)
    requires Inv(c) && Enabled(c, TakeLead(a)) && SoleLeader(c, TakeLead(a))
    ensures Inv(Apply(c, TakeLead(a)))
  {
    var n, w := c.nodes[a], Win(a, c.nodes[a].log, c.campaigns[a].granted + {a});
    assert NodeOK(n, c.hist.reigns);
    EnthroneOK(c.hist.reigns, n.term, w);
    GroundedGrows(n.log, c.hist.reigns, Enthrone(c.hist.reigns, n.term, w));
    forall b | b in c.nodes && b != a && c.nodes[b].role == Leader ensures c.nodes[b].term != n.term {
      assert NodeOK(c.nodes[b], c.hist.reigns);
    }
    GrowingStep(c, DoTakeLead(c, a), a);
  }

  lemma ExtendGrounded(log: Entries, log': Entries, tl: map<nat, Entries>)
    requires Grounded(log, tl) && |log'| == |log| + 1 && log <= log'
    requires log'[|log|].term in tl && tl[log'[|log|].term] == log'
    ensures Grounded(log', tl)
  {
    forall i | 0 <= i < |log'| ensures log'[i].term in tl && Agree(log', tl[log'[i].term], i) {
      if i < |log| {
        assert log'[i] == log[i] && Agree(log, tl[log[i].term], i);
        assert log'[..i + 1] == log[..i + 1];
      }
    }
  }

  /** A leader's own entry extends its reign. */
  lemma ExtendOK(h: Reigns, t: nat, e: LogEntry)
    requires HistoryOK(h) && t in h.leaders && e.term == t && e.index == |h.termLog[t]|
    ensures var h' := Extend(h, t, h.termLog[t] + [e]);
      Grows(h, h') && HistoryOK(h') && Grounded(h'.termLog[t], h'.termLog)
  {
    var h' := Extend(h, t, h.termLog[t] + [e]);
    assert Grows(h, h');
    forall u | u in h'.termLog ensures TermLogOK(u, h'.termLog, h'.leaders) {
      assert TermLogOK(u, h.termLog, h.leaders);
      GroundedGrows(h.termLog[u], h, h');
      if u == t {
        ExtendGrounded(h.termLog[t], h'.termLog[t], h'.termLog);
      }
    }
  }

  lemma ProposeKeeps(c: State, a: Addr, command: Command)
    requires Inv(c) && Enabled(c, Propose(a, command)) && SoleLeader(c, Propose(a, command))
    ensures Inv(Apply(c, Propose(a, command)))
  {
    var n := c.nodes[a];
    assert NodeOK(n, c.hist.reigns);
    ExtendOK(c.hist.reigns, n.term, LogEntry(|n.log|, n.term, command));
    forall b | b in c.nodes && b != a && c.nodes[b].role == Leader ensures c.nodes[b].term != n.term {
      assert NodeOK(c.nodes[b], c.hist.reigns);
    }
    GrowingStep(c, DoPropose(c, a, command), a);
  }

  lemma SendAppendKeeps(c: State, a: Addr, to: Addr, beat: Beat)
    requires Inv(c) && Enabled(c, SendAppend(a, to, beat)) && SoleLeader(c, SendAppend(a, to, beat))
    ensures Inv(Apply(c, SendAppend(a, to, beat)))
  {
    var n := c.nodes[a];
    var m := MakeAppendRequest(n, to, beat.term, beat.commit);
    assert NodeOK(n, c.hist.reigns) && TermLogOK(n.term, c.hist.reigns.termLog, c.hist.reigns.leaders);
    assert RequestOK(m, c.hist.reigns);
    QuietStep(c, DoSendAppend(c, a, to, beat), a);
  }

  lemma AdoptCommitFrame(n: NodeState, leaderCommit: nat)
    ensures var r := AdoptCommit(n, leaderCommit);
      r == n.(commitIndex := r.commitIndex, lastApplied := r.lastApplied, applied := r.applied, members :=
        r.members, role := r.role)
    ensures AdoptCommit(n, leaderCommit).role == n.role || AdoptCommit(n, leaderCommit).role == Follower
  {
    if leaderCommit > n.commitIndex {
      ApplyCommittedFrame(n.(commitIndex := if leaderCommit < LastIndex(n.log) then leaderCommit
        else LastIndex(n.log)));
    }
  }

  /** What handling a request does to identity, term, vote, role and log. */
  lemma HandleAppendEntriesFrame(n: NodeState, req: AppendRequest, pick: NodeID)
    ensures var (r, resp) := HandleAppendEntries(n, req, pick);
      && r.id == n.id && r.addr == n.addr && r.mode == n.mode && r.matchIndex == n.matchIndex
      && (req.term < n.term ==> r == n && !resp.success)
      && (req.term >= n.term ==>
          && r.term == req.term && r.role == Follower
          && (r.term == n.term ==> r.votedFor == n.votedFor) && (r.term > n.term ==> r.votedFor == "")
          && resp.success == PrevMatches(n.log, req)
          && r.log == (if PrevMatches(n.log, req) then AppendTo(n.log, req) else n.log))
  {
    if req.term >= n.term && PrevMatches(n.log, req) {
      var n1 := FollowLeader(n, req, pick);
      AdoptCommitFrame(n1.(log := AppendTo(n1.log, req)), req.leaderCommit);
    }
  }

  lemma RecvAppendNodeOK(n: NodeState, h: Reigns, req: AppendRequest, pick: NodeID)
    requires HistoryOK(h) && NodeOK(n, h) && RequestOK(req, h)
    ensures NodeOK(HandleAppendEntries(n, req, pick).0, h)
  {
    HandleAppendEntriesFrame(n, req, pick);
    if req.term >= n.term && PrevMatches(n.log, req) {
      if IsProbe(req) {
        ProbeFails(n, h, req);
        assert false;
      }
      AcceptedAgrees(n.log, h, req);
      assert TermLogOK(req.term, h.termLog, h.leaders);
    }
  }

  lemma HandleAppendReplyFrame(n: NodeState, from: Addr, req: AppendRequest, resp: AppendResponse)
    ensures var r := HandleAppendReply(n, from, req, resp);
      && r.log == n.log && r.id == n.id && r.addr == n.addr && r.mode == n.mode && r.term >= n.term
      && (r.role == n.role || r.role == Follower)
      && (r.term == n.term ==> r.votedFor == n.votedFor)
      && (r.term > n.term ==> r == StepDown(n, r.term))
  {
    if resp.term <= n.term && resp.success {
      var n1 := n.(matchIndex := n.matchIndex[from := req.End()], nextIndex := n.nextIndex[from := req.End() + 1]);
      ApplyCommittedFrame(n1.(commitIndex := BestCommit(n1, LastIndex(n1.log))));
    }
  }

  lemma StepKeeps(c: State, s: Step)
    requires Inv(c) && Enabled(c, s) && SoleLeader(c, s)
    ensures Inv(Apply(c, s))
  {
    var n := c.nodes[s.a];
    assert NodeOK(n, c.hist.reigns);
    match s
    case TakeLead(a) => TakeLeadKeeps(c, a);
    case Propose(a, command) => ProposeKeeps(c, a, command);
    case SendAppend(a, to, beat) => SendAppendKeeps(c, a, to, beat);
    case RecvAppend(a, req, pick) =>
      RecvAppendNodeOK(n, c.hist.reigns, req, pick);
      HandleAppendEntriesFrame(n, req, pick);
      QuietStep(c, Apply(c, s), a);
    case RecvAppendReply(a, reply) =>
      HandleAppendReplyFrame(n, reply.from, reply.req, reply.resp);
      QuietStep(c, Apply(c, s), a);
    case _ =>
      SmallStepFrame(c, s);
      QuietStep(c, Apply(c, s), s.a);
  }

  // ----- over runs -----

  lemma {:induction false} RunInv(c: State, steps: seq<Step>)
    requires Inv(c) && Run(c, steps, SoleLeader)
    ensures Inv(After(c, steps, SoleLeader))
    decreases |steps|
  {
    if steps != [] {
      StepKeeps(c, steps[0]);
      RunInv(Apply(c, steps[0]), steps[1..]);
    }
  }
}
