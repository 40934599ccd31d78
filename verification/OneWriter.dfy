/** The Log Matching Property (section 5.3 of the Raft paper) over all runs in which a term gets one leader and
    only that leader appends in it. Who sends, in which term and in which order does not matter. */
module OneWriter {
  import opened RaftTypes
  import opened RaftNode
  import opened Cluster
  import opened LogMatching

  /** The two hypotheses the code does not enforce. */
  ghost predicate Writes(c: State, s: Step) {
    Enabled(c, s) &&
    (s.TakeLead? ==> c.nodes[s.a].term !in c.hist.reigns.leaders) && (s.Propose? ==> c.nodes[s.a].role == Leader)
  }

  // ----- the invariant -----

  predicate GroundedLog(log: seq<LogEntry>, h: Reigns) {
    |log| > 0 && log[0] == SENTINEL && Grounded(log, h.termLog)
  }

  ghost predicate TermLogsOK(h: Reigns) {
    && h.termLog.Keys == {0} + h.leaders.Keys && 0 !in h.leaders && h.termLog[0] == [SENTINEL]
    && forall t {:trigger h.termLog[t]} :: t in h.termLog ==> GroundedLog(h.termLog[t], h)
  }

  predicate WriterOK(n: NodeState, h: Reigns) {
    && GroundedLog(n.log, h)
    && (n.role == Leader ==>
          n.term in h.leaders && h.leaders[n.term].addr == n.addr && n.term in h.termLog && n.log == h.termLog[n.term])
  }

  /** The entries of `m` are the end of `log`. */
  predicate EndsIn(m: AppendRequest, log: seq<LogEntry>) {
    |log| == m.End() + 1 && log[m.prevIndex].term == m.prevTerm && m.entries == log[m.prevIndex + 1..]
  }

  ghost predicate CarriesGrounded(m: AppendRequest, h: Reigns) {
    m.entries != [] ==> exists log :: GroundedLog(log, h) && EndsIn(m, log)
  }

  ghost predicate WriterInv(c: State) {
    && TermLogsOK(c.hist.reigns)
    && (forall a {:trigger WriterOK(c.nodes[a], c.hist.reigns)} :: a in c.nodes ==>
      c.nodes[a].addr == a && WriterOK(c.nodes[a], c.hist.reigns))
    && (forall m {:trigger CarriesGrounded(m, c.hist.reigns)} :: m in c.appendReqs ==>
      CarriesGrounded(m, c.hist.reigns))
    && (forall a :: a in c.campaigns ==> a in c.nodes && c.nodes[a].term > 0)
  }

  // ----- accepting -----

  lemma AcceptedGrounded(log: Entries, h: Reigns, m: AppendRequest)
    requires GroundedLog(log, h) && CarriesGrounded(m, h) && PrevMatches(log, m)
    ensures GroundedLog(AppendTo(log, m), h)
  {
    if m.entries != [] {
      var sent :| GroundedLog(sent, h) && EndsIn(m, sent);
      if m.prevIndex == 0 {
        assert log[..1] == [SENTINEL] == sent[..1];
      } else {
        GroundedMatch(log, sent, h.termLog, m.prevIndex);
      }
      assert AppendTo(log, m) == sent[..m.prevIndex + 1] + sent[m.prevIndex + 1..] == sent;
    }
  }

  lemma SentGrounded(n: NodeState, h: Reigns, to: Addr, term: nat, commit: nat)
    requires GroundedLog(n.log, h)
    ensures CarriesGrounded(MakeAppendRequest(n, to, term, commit), h)
  {
    var m := MakeAppendRequest(n, to, term, commit);
    if m.entries != [] {
      assert EndsIn(m, n.log);
    }
  }

  // ----- growth -----

  lemma CarriesGrows(m: AppendRequest, h: Reigns, h': Reigns)
    requires Grows(h, h') && CarriesGrounded(m, h)
    ensures CarriesGrounded(m, h')
  {
    if m.entries != [] {
      var log :| GroundedLog(log, h) && EndsIn(m, log);
      GroundedGrows(log, h, h');
    }
  }

  lemma WriterLater(c: State, c': State, a: Addr)
    requires WriterInv(c) && a in c.nodes && a in c'.nodes && c'.nodes == c.nodes[a := c'.nodes[a]]
    requires c'.nodes[a].addr == a
    requires c'.hist.reigns == c.hist.reigns && WriterOK(c'.nodes[a], c.hist.reigns)
    requires c'.nodes[a].term >= c.nodes[a].term
    requires forall m {:trigger CarriesGrounded(m, c.hist.reigns)} :: m in c'.appendReqs && m !in c.appendReqs ==>
      CarriesGrounded(m, c.hist.reigns)
    requires c'.campaigns.Keys <= c.campaigns.Keys + {a} && (a in c'.campaigns ==> c'.nodes[a].term > 0)
    ensures WriterInv(c')
  {
    forall b | b in c'.nodes ensures c'.nodes[b].addr == b && WriterOK(c'.nodes[b], c'.hist.reigns) {
      assert b != a ==> WriterOK(c.nodes[b], c.hist.reigns);
    }
  }

  /** A step of `a` that extends the history of its own term only. */
  lemma WriterGrows(c: State, c': State, a: Addr)
    requires WriterInv(c) && a in c.nodes && a in c'.nodes && c'.nodes == c.nodes[a := c'.nodes[a]]
    requires c'.nodes[a].addr == a
    requires Grows(c.hist.reigns, c'.hist.reigns) && TermLogsOK(c'.hist.reigns) && WriterOK(c'.nodes[a], c'.hist.reigns)
    requires c'.nodes[a].term == c.nodes[a].term
    requires forall t :: t in c.hist.reigns.termLog && t != c.nodes[a].term ==>
      c'.hist.reigns.termLog[t] == c.hist.reigns.termLog[t]
    requires forall b :: b in c.nodes && b != a && c.nodes[b].role == Leader ==> c.nodes[b].term != c.nodes[a].term
    requires c'.appendReqs == c.appendReqs && c'.campaigns.Keys <= c.campaigns.Keys
    ensures WriterInv(c')
  {
    forall b | b in c'.nodes ensures c'.nodes[b].addr == b && WriterOK(c'.nodes[b], c'.hist.reigns) {
      if b != a {
        assert WriterOK(c.nodes[b], c.hist.reigns);
        GroundedGrows(c.nodes[b].log, c.hist.reigns, c'.hist.reigns);
      }
    }
    forall m | m in c'.appendReqs ensures CarriesGrounded(m, c'.hist.reigns) {
      assert CarriesGrounded(m, c.hist.reigns);
      CarriesGrows(m, c.hist.reigns, c'.hist.reigns);
    }
  }

  lemma EnthroneGrounded(h: Reigns, t: nat, w: Win)
    requires TermLogsOK(h) && t > 0 && t !in h.leaders && GroundedLog(w.log, h)
    ensures var h' := Enthrone(h, t, w);
      Grows(h, h') && TermLogsOK(h') && GroundedLog(w.log, h') && h'.termLog[t] == w.log && t !in h.termLog
  {
    var h' := Enthrone(h, t, w);
    assert Grows(h, h');
    GroundedGrows(w.log, h, h');
    forall u | u in h'.termLog ensures GroundedLog(h'.termLog[u], h') {
      if u != t {
        GroundedGrows(h.termLog[u], h, h');
      }
    }
  }

  lemma ExtendTermLog(h: Reigns, t: nat, e: LogEntry)
    requires TermLogsOK(h) && t in h.leaders && e.term == t
    ensures var h' := Extend(h, t, h.termLog[t] + [e]); Grows(h, h') && TermLogsOK(h')
  {
    var h' := Extend(h, t, h.termLog[t] + [e]);
    assert Grows(h, h');
    forall u | u in h'.termLog ensures GroundedLog(h'.termLog[u], h') {
      GroundedGrows(h.termLog[u], h, h');
      if u == t {
        ExtendGrounded(h.termLog[t], h'.termLog[t], h'.termLog);
      }
    }
  }

  lemma OtherTerms(c: State, a: Addr)
    requires WriterInv(c) && a in c.nodes
    requires c.nodes[a].term in c.hist.reigns.leaders ==> c.hist.reigns.leaders[c.nodes[a].term].addr == a
    ensures forall b :: b in c.nodes && b != a && c.nodes[b].role == Leader ==> c.nodes[b].term != c.nodes[a].term
  {
    forall b | b in c.nodes && b != a && c.nodes[b].role == Leader ensures c.nodes[b].term != c.nodes[a].term {
      assert WriterOK(c.nodes[b], c.hist.reigns);
    }
  }

  // ----- each step -----

  lemma TakeLeadWrites(c: State, a: Addr)
    requires WriterInv(c) && Writes(c, TakeLead(a))
    ensures WriterInv(DoTakeLead(c, a))
  {
    var n := c.nodes[a];
    assert WriterOK(n, c.hist.reigns);
    EnthroneGrounded(c.hist.reigns, n.term, Win(a, n.log, c.campaigns[a].granted + {a}));
    OtherTerms(c, a);
    WriterGrows(c, DoTakeLead(c, a), a);
  }

  lemma ProposeWrites(c: State, a: Addr, command: Command)
    requires WriterInv(c) && Writes(c, Propose(a, command))
    ensures WriterInv(DoPropose(c, a, command))
  {
    var n := c.nodes[a];
    assert WriterOK(n, c.hist.reigns);
    ExtendTermLog(c.hist.reigns, n.term, LogEntry(|n.log|, n.term, command));
    OtherTerms(c, a);
    WriterGrows(c, DoPropose(c, a, command), a);
  }

  lemma RecvAppendWrites(c: State, a: Addr, req: AppendRequest, pick: NodeID)
    requires WriterInv(c) && a in c.nodes && req in c.appendReqs
    ensures WriterInv(DoRecvAppend(c, a, req, pick))
  {
    var n := c.nodes[a];
    assert WriterOK(n, c.hist.reigns) && CarriesGrounded(req, c.hist.reigns);
    HandleAppendEntriesFrame(n, req, pick);
    if PrevMatches(n.log, req) { AcceptedGrounded(n.log, c.hist.reigns, req); }
    WriterLater(c, DoRecvAppend(c, a, req, pick), a);
  }

  lemma StepWrites(c: State, s: Step)
    requires WriterInv(c) && Writes(c, s)
    ensures WriterInv(Apply(c, s))
  {
    var n := c.nodes[s.a];
    assert WriterOK(n, c.hist.reigns);
    match s
    case TakeLead(a) => TakeLeadWrites(c, a);
    case Propose(a, command) => ProposeWrites(c, a, command);
    case SendAppend(a, to, beat) =>
      SentGrounded(n, c.hist.reigns, to, beat.term, beat.commit);
      WriterLater(c, DoSendAppend(c, a, to, beat), a);
    case RecvAppend(a, req, pick) => RecvAppendWrites(c, a, req, pick);
    case RecvAppendReply(a, reply) =>
      HandleAppendReplyFrame(n, reply.from, reply.req, reply.resp);
      WriterLater(c, Apply(c, s), a);
    case _ =>
      SmallStepFrame(c, s);
      WriterLater(c, Apply(c, s), s.a);
  }

  lemma {:induction false} RunWrites(c: State, steps: seq<Step>)
    requires WriterInv(c) && Run(c, steps, Writes)
    ensures WriterInv(After(c, steps, Writes))
    decreases |steps|
  {
    if steps != [] {
      StepWrites(c, steps[0]);
      RunWrites(Apply(c, steps[0]), steps[1..]);
    }
  }

  lemma ReachedWriterInv(conf: Config, mode: Mode, peers: map<Addr, set<Addr>>, c: State)
    requires Reaches(InitWith(conf, mode, peers), c, Writes)
    ensures WriterInv(c)
  {
    var c0 := InitWith(conf, mode, peers);
    var steps :| Run(c0, steps, Writes) && After(c0, steps, Writes) == c;
    RunWrites(c0, steps);
  }

  // ----- the theorem -----

  /** The two logs obey Log Matching, and only their sentinels have term 0. */
  predicate Matching(x: Entries, y: Entries) {
    && x[0] == y[0] == SENTINEL
    && (forall i :: 0 < i < |y| ==> y[i].term > 0)
    && (forall i :: 0 <= i < |x| && i < |y| && x[i].term == y[i].term ==> x[..i + 1] == y[..i + 1])
  }

  /** In every reachable state of a static or dynamic cluster, from any peer lists: two logs that hold an entry of
      equal index and term agree on every entry up to it. */
  lemma LogMatchingHolds(conf: Config, mode: Mode, peers: map<Addr, set<Addr>>, c: State, a: Addr, b: Addr)
    requires Reaches(InitWith(conf, mode, peers), c, Writes) && a in c.nodes && b in c.nodes
    ensures Matching(c.nodes[a].log, c.nodes[b].log)
  {
    ReachedWriterInv(conf, mode, peers, c);
    assert WriterOK(c.nodes[a], c.hist.reigns) && WriterOK(c.nodes[b], c.hist.reigns);
    GroundedMatching(c.nodes[a].log, c.nodes[b].log, c.hist.reigns);
  }

  lemma GroundedMatching(x: Entries, y: Entries, h: Reigns)
    requires GroundedLog(x, h) && GroundedLog(y, h) && 0 in h.termLog && h.termLog[0] == [SENTINEL]
    ensures Matching(x, y)
  {
    forall i | 0 < i < |y| ensures y[i].term > 0 {
      assert Agree(y, h.termLog[y[i].term], i);
    }
    forall i | 0 <= i < |x| && i < |y| && x[i].term == y[i].term ensures x[..i + 1] == y[..i + 1] {
      GroundedMatch(x, y, h.termLog, i);
    }
  }
}
