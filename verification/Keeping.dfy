/** What a node has acknowledged it keeps, until a leader elected without it takes it away; and votes show it. This
    holds whatever the voter sets are, so static and dynamic clusters share it. */
module Keeping {
  import opened RaftTypes
  import opened RaftNode
  import opened Cluster
  import opened Safety
  import opened Replication
  import LogMatching
  import Election

  ghost predicate KeepingInv(conf: Config, c: State) {
    AckInv(c) && Election.CastInv(conf, c) && KeepInv(c) && BallotsInv(c.hist) && EndsInv(conf, c)
  }

  /** `a` has the votes it counts, in the term it is in. */
  predicate Voted(conf: Config, c: State, a: Addr)
    requires a in conf && a in c.nodes && a in c.campaigns
  {
    && c.nodes[a].term == c.campaigns[a].term
    && forall v :: v in c.campaigns[a].granted + {a} ==> Election.VotedFor(c.hist, v, c.nodes[a].term, conf[a])
  }

  /** What a step has to obey: requests and replies as in InReign, and a new leader was voted for. */
  ghost predicate Honest(conf: Config, c: State, s: Step) {
    && InReign(c, s) && s.a in conf && c.nodes[s.a].id == conf[s.a]
    && (s.a in c.campaigns ==> c.campaigns[s.a].term <= c.nodes[s.a].term)
    && (s.TakeLead? ==> Voted(conf, c, s.a))
  }

  // ----- what carries over when history grows -----

  lemma OwnEntryBack(r: Reigns, r': Reigns, t: nat, i: nat)
    requires LogMatching.Grows(r, r') && LogMatching.HistoryOK(r) && LogMatching.HistoryOK(r')
    requires OwnEntry(r', t, i) && t in r.termLog && i < |r.termLog[t]|
    ensures OwnEntry(r, t, i)
  {
    assert r'.termLog[t][i] == r.termLog[t][i];
  }

  lemma LostGrows(r: Reigns, r': Reigns, t: nat, i: nat, last: nat, last': nat)
    requires LogMatching.Grows(r, r') && LostBy(r, t, i, last) && last <= last'
    ensures LostBy(r', t, i, last')
  {
    var u: nat :| u <= last && Lost(r, u, t, i);
    assert Lost(r', u, t, i);
  }

  lemma KeepsGrows(c: State, c': State, a: Addr, k: Ack, i: nat)
    requires AcksInv(c) && KeepInv(c) && Onward(c, c', a) && c'.nodes.Keys == c.nodes.Keys
    requires k in c.hist.acks && i <= k.end && OwnEntry(c'.hist.reigns, k.term, i)
    requires k.addr in c'.nodes && c'.nodes[k.addr].log == c.nodes[k.addr].log
    ensures NodeKeeps(c', k, i)
  {
    assert AckOK(c, k);
    OwnEntryBack(c.hist.reigns, c'.hist.reigns, k.term, i);
    assert NodeKeeps(c, k, i);
    if !Kept(c.nodes[k.addr].log, k.term, i) {
      LostGrows(c.hist.reigns, c'.hist.reigns, k.term, i, c.nodes[k.addr].term, c'.nodes[k.addr].term);
    }
  }

  /** Nodes other than `a` keep what they kept. */
  lemma KeepLater(c: State, c': State, a: Addr)
    requires AcksInv(c) && KeepInv(c) && Onward(c, c', a)
    requires forall k, i: nat {:trigger NodeKeeps(c', k, i)} ::
      k in c'.hist.acks && (k.addr == a || k !in c.hist.acks) && i <= k.end && OwnEntry(c'.hist.reigns, k.term, i)
      ==> NodeKeeps(c', k, i)
    ensures KeepInv(c')
  {
    forall k, i: nat | k in c'.hist.acks && i <= k.end && OwnEntry(c'.hist.reigns, k.term, i)
      ensures NodeKeeps(c', k, i)
    {
      if k in c.hist.acks && k.addr != a {
        assert AckOK(c, k);
        KeepsGrows(c, c', a, k, i);
      }
    }
  }

  /** So does `a` when its log has not changed. */
  lemma SameLogKeeps(c: State, c': State, a: Addr)
    requires AcksInv(c) && KeepInv(c) && Onward(c, c', a)
    requires c'.nodes[a].log == c.nodes[a].log && c'.hist.acks == c.hist.acks
    ensures KeepInv(c')
  {
    forall k, i: nat | k in c'.hist.acks && k.addr == a && i <= k.end && OwnEntry(c'.hist.reigns, k.term, i)
      ensures NodeKeeps(c', k, i)
    {
      KeepsGrows(c, c', a, k, i);
    }
    KeepLater(c, c', a);
  }

  lemma ProposeKeeps(c: State, a: Addr, command: Command)
    requires LogMatching.Inv(c) && AcksInv(c) && KeepInv(c) && a in c.nodes && c.nodes[a].role == Leader
    requires Onward(c, DoPropose(c, a, command), a)
    ensures KeepInv(DoPropose(c, a, command))
  {
    var c', n := DoPropose(c, a, command), c.nodes[a];
    assert LogMatching.NodeOK(n, c.hist.reigns);
    forall k, i: nat | k in c'.hist.acks && (k.addr == a || k !in c.hist.acks) && i <= k.end
                       && OwnEntry(c'.hist.reigns, k.term, i)
      ensures NodeKeeps(c', k, i)
    {
      if k in c.hist.acks {
        assert AckOK(c, k);
        OwnEntryBack(c.hist.reigns, c'.hist.reigns, k.term, i);
        assert NodeKeeps(c, k, i);
        if !Kept(n.log, k.term, i) {
          LostGrows(c.hist.reigns, c'.hist.reigns, k.term, i, n.term, n.term);
        }
      }
    }
    KeepLater(c, c', a);
  }

  lemma AcceptKeepsEntry(c: State, a: Addr, req: AppendRequest, k: Ack, i: nat)
    requires Receiving(c, a, req) && KeepInv(c) && k.addr == a && i <= k.end && OwnEntry(c.hist.reigns, k.term, i)
    requires k in c.hist.acks || k == Ack(a, req.term, req.End())
    ensures Kept(AppendTo(c.nodes[a].log, req), k.term, i) || LostBy(c.hist.reigns, k.term, i, req.term)
  {
    var n, r := c.nodes[a], c.hist.reigns;
    var log' := AppendTo(n.log, req);
    AcceptedLog(c, a, req);
    if k == Ack(a, req.term, req.End()) {
      assert log'[i] == log'[..req.End() + 1][i] == r.termLog[req.term][..req.End() + 1][i];
    } else {
      assert AckOK(c, k) && NodeKeeps(c, k, i);
      if req.entries == [] {
        if !Kept(n.log, k.term, i) {
          LostGrows(r, r, k.term, i, n.term, req.term);
        }
      } else if k.term == req.term {
        assert log'[i] == r.termLog[req.term][i];
      } else if Kept(r.leaders[req.term].log, k.term, i) {
        assert log'[i] == r.termLog[req.term][i] == r.leaders[req.term].log[i];
      } else {
        assert Lost(r, req.term, k.term, i);
      }
    }
  }

  lemma AcceptKeeps(c: State, a: Addr, req: AppendRequest, pick: NodeID)
    requires Receiving(c, a, req) && KeepInv(c)
    ensures KeepInv(DoRecvAppend(c, a, req, pick))
  {
    var c', n := DoRecvAppend(c, a, req, pick), c.nodes[a];
    LogMatching.HandleAppendEntriesFrame(n, req, pick);
    forall k, i: nat | k in c'.hist.acks && (k.addr == a || k !in c.hist.acks) && i <= k.end
                       && OwnEntry(c'.hist.reigns, k.term, i)
      ensures NodeKeeps(c', k, i)
    {
      AcceptKeepsEntry(c, a, req, k, i);
    }
    KeepLater(c, c', a);
  }

  lemma RecvAppendKeeps(c: State, a: Addr, req: AppendRequest, pick: NodeID)
    requires AckInv(c) && KeepInv(c) && InReign(c, RecvAppend(a, req, pick))
    requires Onward(c, DoRecvAppend(c, a, req, pick), a)
    ensures KeepInv(DoRecvAppend(c, a, req, pick))
  {
    LogMatching.HandleAppendEntriesFrame(c.nodes[a], req, pick);
    if req.term >= c.nodes[a].term && PrevMatches(c.nodes[a].log, req) {
      AcceptKeeps(c, a, req, pick);
    } else {
      SameLogKeeps(c, DoRecvAppend(c, a, req, pick), a);
    }
  }

  lemma StepKeeps(c: State, s: Step)
    requires AckInv(c) && KeepInv(c) && InReign(c, s) && Onward(c, Apply(c, s), s.a)
    ensures KeepInv(Apply(c, s))
  {
    if s.RecvAppend? {
      RecvAppendKeeps(c, s.a, s.appendReq, s.pick);
    } else if s.Propose? {
      ProposeKeeps(c, s.a, s.command);
    } else {
      SameLogStep(c, s);
      SameLogKeeps(c, Apply(c, s), s.a);
    }
  }

  /** Only handling a request and appending change a log or acknowledge anything. */
  lemma SameLogStep(c: State, s: Step)
    requires Enabled(c, s) && !s.RecvAppend? && !s.Propose?
    ensures s.a in Apply(c, s).nodes && Apply(c, s).nodes[s.a].log == c.nodes[s.a].log
    ensures Apply(c, s).hist.acks == c.hist.acks
  {
    if s.RecvAppendReply? {
      LogMatching.HandleAppendReplyFrame(c.nodes[s.a], s.appendReply.from, s.appendReply.req, s.appendReply.resp);
    } else if Small(s) {
      SmallStepFrame(c, s);
    }
  }

  // ----- ballots -----

  lemma BallotKeepsGrows(h: History, h': History, k: Ack, u: nat, i: nat)
    requires LogMatching.Grows(h.reigns, h'.reigns) && BallotKeeps(h, k, u, i)
    requires (k.addr, u) in h'.ballots && h'.ballots[(k.addr, u)] == h.ballots[(k.addr, u)]
    ensures BallotKeeps(h', k, u, i)
  {
    if !Kept(h.ballots[(k.addr, u)].log, k.term, i) {
      var w: nat :| w <= u && Lost(h.reigns, w, k.term, i) && (w == u ==> k.addr !in h.reigns.leaders[u].voters);
      assert Lost(h'.reigns, w, k.term, i) && (w == u ==> k.addr !in h'.reigns.leaders[u].voters);
    }
  }

  lemma BallotsLater(c: State, c': State, a: Addr)
    requires AcksInv(c) && BallotsInv(c.hist) && Onward(c, c', a)
    requires forall v, u {:trigger BallotLogOK(c'.hist, v, u)} ::
      (v, u) in c'.hist.ballots && (v, u) !in c.hist.ballots ==> BallotLogOK(c'.hist, v, u)
    requires forall k, u: nat, i: nat {:trigger BallotKeeps(c'.hist, k, u, i)} ::
      k in c'.hist.acks && k.term < u && (k.addr, u) in c'.hist.ballots && i <= k.end
      && OwnEntry(c'.hist.reigns, k.term, i) && (k !in c.hist.acks || (k.addr, u) !in c.hist.ballots)
      ==> BallotKeeps(c'.hist, k, u, i)
    ensures BallotsInv(c'.hist)
  {
    var h, h' := c.hist, c'.hist;
    forall v, u | (v, u) in h'.ballots ensures BallotLogOK(h', v, u) {
      if (v, u) in h.ballots {
        assert BallotLogOK(h, v, u);
        LogMatching.GroundedGrows(h.ballots[(v, u)].log, h.reigns, h'.reigns);
      }
    }
    forall k, u: nat, i: nat | k in h'.acks && k.term < u && (k.addr, u) in h'.ballots && i <= k.end
                               && OwnEntry(h'.reigns, k.term, i)
      ensures BallotKeeps(h', k, u, i)
    {
      if k in h.acks && (k.addr, u) in h.ballots {
        assert AckOK(c, k);
        OwnEntryBack(h.reigns, h'.reigns, k.term, i);
        assert BallotKeeps(h, k, u, i);
        BallotKeepsGrows(h, h', k, u, i);
      }
    }
  }

  /** A ballot cast now in `u` shows a log that has kept what the voter acknowledged. */
  lemma NewBallotKeeps(conf: Config, c: State, h': History, a: Addr, u: nat, k: Ack, i: nat)
    requires KeepingInv(conf, c) && a in c.nodes && u >= c.nodes[a].term
    requires h'.reigns == c.hist.reigns && h'.acks == c.hist.acks
    requires (a, u) !in c.hist.ballots && (a, u) in h'.ballots && h'.ballots[(a, u)].log == c.nodes[a].log
    requires k in c.hist.acks && k.addr == a && k.term < u && i <= k.end && OwnEntry(c.hist.reigns, k.term, i)
    ensures BallotKeeps(h', k, u, i)
  {
    assert NodeKeeps(c, k, i);
    if !Kept(c.nodes[a].log, k.term, i) {
      var w: nat :| w <= c.nodes[a].term && Lost(c.hist.reigns, w, k.term, i);
      assert a in c.hist.reigns.leaders[w].voters ==> WinEndOK(c.hist, w, a);
      assert Lost(h'.reigns, w, k.term, i) && (w == u ==> k.addr !in h'.reigns.leaders[u].voters);
    }
  }

  /** A step in which `a` votes. */
  lemma BallotStep(conf: Config, c: State, c': State, a: Addr, u: nat, b: Ballot)
    requires KeepingInv(conf, c) && Onward(c, c', a) && u >= c.nodes[a].term && c'.hist == Vote(c.hist, a, u, b)
    requires b.log == c.nodes[a].log && UpToDate(b.lastIndex, b.lastTerm, b.log)
    ensures BallotsInv(c'.hist)
  {
    assert LogMatching.NodeOK(c.nodes[a], c.hist.reigns);
    if (a, u) !in c.hist.ballots {
      assert BallotLogOK(c'.hist, a, u);
      forall k, i: nat | k in c'.hist.acks && k.addr == a && k.term < u && i <= k.end
                         && OwnEntry(c'.hist.reigns, k.term, i)
        ensures BallotKeeps(c'.hist, k, u, i)
      {
        NewBallotKeeps(conf, c, c'.hist, a, u, k, i);
      }
    }
    BallotsLater(c, c', a);
  }

  lemma VotedUpTo(conf: Config, c: State, a: Addr)
    requires Election.CastInv(conf, c) && a in c.nodes
    ensures forall u :: (a, u) in c.hist.ballots ==> u <= c.nodes[a].term
  {
    forall u | (a, u) in c.hist.ballots ensures u <= c.nodes[a].term {
      assert Election.BallotOK(conf, c, a, u);
    }
  }

  /** A step in which nobody votes: whatever `a` acknowledges now is of a term it has not voted beyond. */
  lemma VotelessStep(conf: Config, c: State, s: Step)
    requires KeepingInv(conf, c) && InReign(c, s) && Onward(c, Apply(c, s), s.a)
    requires !s.StartCampaign? && !s.RecvVote?
    ensures BallotsInv(Apply(c, s).hist)
  {
    VotedUpTo(conf, c, s.a);
    if s.RecvAppend? {
      LogMatching.HandleAppendEntriesFrame(c.nodes[s.a], s.appendReq, s.pick);
    } else if !s.Propose? {
      SameLogStep(c, s);
    }
    BallotsLater(c, Apply(c, s), s.a);
  }

  lemma StepBallots(conf: Config, c: State, s: Step)
    requires KeepingInv(conf, c) && InReign(c, s) && Onward(c, Apply(c, s), s.a)
    ensures BallotsInv(Apply(c, s).hist)
  {
    var n := c.nodes[s.a];
    match s
    case StartCampaign(a) =>
      BallotStep(conf, c, DoStartCampaign(c, a), a, n.term + 1, Ballot(n.id, n.log, LastIndex(n.log), LastTerm(n.log)));
    case RecvVote(a, req) => RecvVoteBallots(conf, c, a, req);
    case _ => VotelessStep(conf, c, s);
  }

  lemma RecvVoteBallots(conf: Config, c: State, a: Addr, req: VoteRequest)
    requires KeepingInv(conf, c) && a in c.nodes && Onward(c, DoRecvVote(c, a, req), a)
    ensures BallotsInv(DoRecvVote(c, a, req).hist)
  {
    var (n', resp) := HandleVoteRequest(c.nodes[a], req);
    if resp.granted {
      BallotStep(conf, c, DoRecvVote(c, a, req), a, req.term,
                 Ballot(req.candidateID, n'.log, req.lastLogIndex, req.lastLogTerm));
    }
  }

  // ----- claimed log ends -----

  /** Whoever campaigns in `c'` did so before with the same log, or is `a` in a term it never claimed before. */
  ghost predicate SameCampaigns(c: State, c': State, a: Addr) {
    && (forall b :: b in c'.campaigns && b != a ==> b in c.campaigns && c'.campaigns[b].term == c.campaigns[b].term)
    && a in c.nodes && a in c'.nodes
    && (forall t: nat :: Campaigning(c', a, t) ==>
          (Campaigning(c, a, t) && c'.nodes[a].log == c.nodes[a].log) || t > c.nodes[a].term)
  }

  lemma EndLater(conf: Config, c: State, c': State, a: Addr, id: NodeID, t: nat, index: nat, term: nat)
    requires Onward(c, c', a) && SameCampaigns(c, c', a)
    requires EndOK(conf, c, id, t, index, term) && Election.Claim(conf, c, id, t)
    ensures EndOK(conf, c', id, t, index, term)
  {
    var b := Election.Owner(conf, id);
    if Campaigning(c', b, t) && b != a {
      assert Campaigning(c, b, t);
    }
  }

  lemma EndsLater(conf: Config, c: State, c': State, a: Addr)
    requires EndsInv(conf, c) && Election.CastInv(conf, c) && Onward(c, c', a) && SameCampaigns(c, c', a)
    requires forall v, t {:trigger BallotEndOK(conf, c', v, t)} ::
      (v, t) in c'.hist.ballots && (v, t) !in c.hist.ballots ==> BallotEndOK(conf, c', v, t)
    requires forall m {:trigger EndOK(conf, c', m.candidateID, m.term, m.lastLogIndex, m.lastLogTerm)} ::
      m in c'.voteReqs && m !in c.voteReqs ==> EndOK(conf, c', m.candidateID, m.term, m.lastLogIndex, m.lastLogTerm)
    requires forall t, v {:trigger WinEndOK(c'.hist, t, v)} ::
      t in c'.hist.reigns.leaders && t !in c.hist.reigns.leaders && v in c'.hist.reigns.leaders[t].voters
      ==> WinEndOK(c'.hist, t, v)
    ensures EndsInv(conf, c')
  {
    forall v, t | (v, t) in c'.hist.ballots ensures BallotEndOK(conf, c', v, t) {
      if (v, t) in c.hist.ballots {
        var b := c.hist.ballots[(v, t)];
        assert BallotEndOK(conf, c, v, t) && Election.BallotOK(conf, c, v, t);
        EndLater(conf, c, c', a, b.candidate, t, b.lastIndex, b.lastTerm);
      }
    }
    forall m | m in c'.voteReqs ensures EndOK(conf, c', m.candidateID, m.term, m.lastLogIndex, m.lastLogTerm) {
      if m in c.voteReqs {
        assert EndOK(conf, c, m.candidateID, m.term, m.lastLogIndex, m.lastLogTerm);
        assert Election.Claim(conf, c, m.candidateID, m.term);
        EndLater(conf, c, c', a, m.candidateID, m.term, m.lastLogIndex, m.lastLogTerm);
      }
    }
    forall t, v | t in c'.hist.reigns.leaders && v in c'.hist.reigns.leaders[t].voters ensures WinEndOK(c'.hist, t, v) {
      if t in c.hist.reigns.leaders {
        assert WinEndOK(c.hist, t, v);
      }
    }
  }

  lemma OwnClaim(conf: Config, c: State, a: Addr)
    requires ValidConfig(conf) && a in conf && a in c.nodes && c.nodes[a].id == conf[a]
    requires (a, c.nodes[a].term + 1) !in c.hist.ballots
    ensures BallotEndOK(conf, DoStartCampaign(c, a), a, c.nodes[a].term + 1)
  {
    Election.OwnerOf(conf, a);
  }

  lemma StartCampaigns(c: State, a: Addr)
    requires a in c.nodes
    ensures SameCampaigns(c, DoStartCampaign(c, a), a)
  {
  }

  lemma StartCampaignEnds(conf: Config, c: State, a: Addr)
    requires ValidConfig(conf) && KeepingInv(conf, c) && a in conf && a in c.nodes && c.nodes[a].id == conf[a]
    requires a !in c.campaigns && Onward(c, DoStartCampaign(c, a), a)
    ensures EndsInv(conf, DoStartCampaign(c, a))
  {
    Election.StartCampaignLater(conf, c, a);
    OwnClaim(conf, c, a);
    StartCampaigns(c, a);
    EndsLater(conf, c, DoStartCampaign(c, a), a);
  }

  lemma SendVoteEnds(conf: Config, c: State, a: Addr)
    requires ValidConfig(conf) && KeepingInv(conf, c) && a in conf && a in c.nodes && c.nodes[a].id == conf[a]
    requires a in c.campaigns && Onward(c, Apply(c, SendVote(a)), a)
    ensures EndsInv(conf, Apply(c, SendVote(a)))
  {
    var m, c' := MakeVoteRequest(c.nodes[a], c.campaigns[a].term), Apply(c, SendVote(a));
    Election.OwnerOf(conf, a);
    assert EndOK(conf, c', m.candidateID, m.term, m.lastLogIndex, m.lastLogTerm);
    EndsLater(conf, c, c', a);
  }

  lemma RecvVoteEnds(conf: Config, c: State, a: Addr, req: VoteRequest)
    requires KeepingInv(conf, c) && a in c.nodes && req in c.voteReqs && Onward(c, DoRecvVote(c, a, req), a)
    ensures EndsInv(conf, DoRecvVote(c, a, req))
  {
    var c' := DoRecvVote(c, a, req);
    assert EndOK(conf, c, req.candidateID, req.term, req.lastLogIndex, req.lastLogTerm);
    assert Election.Claim(conf, c, req.candidateID, req.term);
    EndLater(conf, c, c', a, req.candidateID, req.term, req.lastLogIndex, req.lastLogTerm);
    if (a, req.term) in c'.hist.ballots && (a, req.term) !in c.hist.ballots {
      assert BallotEndOK(conf, c', a, req.term);
    }
    EndsLater(conf, c, c', a);
  }

  /** The winner's log is the one its voters were shown. */
  lemma WinnerEnd(conf: Config, c: State, a: Addr, v: Addr)
    requires ValidConfig(conf) && KeepingInv(conf, c) && a in conf && a in c.nodes && a in c.campaigns
    requires Voted(conf, c, a) && c.nodes[a].term !in c.hist.reigns.leaders && v in c.campaigns[a].granted + {a}
    ensures WinEndOK(DoTakeLead(c, a).hist, c.nodes[a].term, v)
  {
    Election.OwnerOf(conf, a);
    assert Campaigning(c, a, c.nodes[a].term) && Election.VotedFor(c.hist, v, c.nodes[a].term, conf[a]);
    assert BallotEndOK(conf, c, v, c.nodes[a].term);
  }

  lemma TakeLeadEnds(conf: Config, c: State, a: Addr)
    requires ValidConfig(conf) && KeepingInv(conf, c) && a in conf && a in c.nodes && a in c.campaigns
    requires Voted(conf, c, a) && c.nodes[a].term !in c.hist.reigns.leaders && Onward(c, DoTakeLead(c, a), a)
    ensures EndsInv(conf, DoTakeLead(c, a))
  {
    forall v | v in c.campaigns[a].granted + {a} ensures WinEndOK(DoTakeLead(c, a).hist, c.nodes[a].term, v) {
      WinnerEnd(conf, c, a, v);
    }
    assert DoTakeLead(c, a).hist.reigns.leaders[c.nodes[a].term].voters == c.campaigns[a].granted + {a};
    TakeLeadCampaigns(c, a);
    EndsLater(conf, c, DoTakeLead(c, a), a);
  }

  lemma TakeLeadCampaigns(c: State, a: Addr)
    requires a in c.nodes && a in c.campaigns
    ensures SameCampaigns(c, DoTakeLead(c, a), a)
  {
  }

  /** Steps that neither ask for votes nor vote nor take the lead. */
  predicate Aside(s: Step) { !s.StartCampaign? && !s.SendVote? && !s.RecvVote? && !s.TakeLead? }

  lemma AsideEnds(conf: Config, c: State, s: Step)
    requires KeepingInv(conf, c) && InReign(c, s) && Onward(c, Apply(c, s), s.a) && Aside(s)
    ensures EndsInv(conf, Apply(c, s))
  {
    AsideCampaigns(c, s);
    EndsLater(conf, c, Apply(c, s), s.a);
  }

  /** Whoever follows a leader is no longer campaigning. */
  lemma FollowerCampaigns(c: State, a: Addr, req: AppendRequest, pick: NodeID)
    requires LogMatching.Inv(c) && a in c.nodes && req in c.appendReqs
    ensures SameCampaigns(c, DoRecvAppend(c, a, req, pick), a)
  {
    assert LogMatching.RequestOK(req, c.hist.reigns);
    LogMatching.HandleAppendEntriesFrame(c.nodes[a], req, pick);
  }

  lemma AsideCampaigns(c: State, s: Step)
    requires LogMatching.Inv(c) && InReign(c, s) && Aside(s)
    ensures SameCampaigns(c, Apply(c, s), s.a) && Apply(c, s).hist.ballots == c.hist.ballots
    ensures Apply(c, s).voteReqs == c.voteReqs && Apply(c, s).hist.reigns.leaders == c.hist.reigns.leaders
  {
    if s.RecvAppend? {
      FollowerCampaigns(c, s.a, s.appendReq, s.pick);
    } else if s.RecvAppendReply? {
      LogMatching.HandleAppendReplyFrame(c.nodes[s.a], s.appendReply.from, s.appendReply.req, s.appendReply.resp);
    } else if s.Propose? {
      assert LogMatching.NodeOK(c.nodes[s.a], c.hist.reigns);
    } else if Small(s) {
      SmallStepFrame(c, s);
    }
  }

  lemma StepEnds(conf: Config, c: State, s: Step)
    requires ValidConfig(conf) && KeepingInv(conf, c) && Honest(conf, c, s) && Onward(c, Apply(c, s), s.a)
    ensures EndsInv(conf, Apply(c, s))
  {
    match s
    case StartCampaign(a) => StartCampaignEnds(conf, c, a);
    case SendVote(a) => SendVoteEnds(conf, c, a);
    case RecvVote(a, req) => RecvVoteEnds(conf, c, a, req);
    case TakeLead(a) => TakeLeadEnds(conf, c, a);
    case _ => AsideEnds(conf, c, s);
  }

  // ----- all steps -----

  lemma StepKeeping(conf: Config, c: State, s: Step)
    requires ValidConfig(conf) && KeepingInv(conf, c) && Honest(conf, c, s)
    ensures KeepingInv(conf, Apply(c, s)) && Onward(c, Apply(c, s), s.a)
  {
    StepAcks(c, s);
    StepOnward(c, s);
    Election.StepCast(conf, c, s);
    StepKeeps(c, s);
    StepBallots(conf, c, s);
    StepEnds(conf, c, s);
  }

  /** Before anything has happened there is nothing to keep. */
  lemma InitKeeping(conf: Config, mode: Mode, peers: map<Addr, set<Addr>>)
    ensures KeepingInv(conf, InitWith(conf, mode, peers))
  {
    InitAcks(conf, mode, peers);
  }

  // ----- a new leader -----

  lemma NoOwnEntriesYet(n: NodeState, r: Reigns)
    requires LogMatching.HistoryOK(r) && LogMatching.NodeOK(n, r) && n.term > 0 && n.term !in r.leaders
    ensures forall i :: 0 <= i < |n.log| ==> n.log[i].term != n.term
  {
  }

  // ----- applying -----

  lemma OneMore(log: Entries, i: nat)
    requires 0 < i < |log|
    ensures log[1..i + 1] == log[1..i] + [log[i]]
  {
  }

  lemma {:induction false} ApplyCommittedApplies(n: NodeState)
    requires n.lastApplied <= n.commitIndex < |n.log| && n.applied == n.log[1..n.lastApplied + 1]
    ensures AppliedOK(ApplyCommitted(n))
    decreases n.commitIndex - n.lastApplied
  {
    if n.lastApplied < n.commitIndex {
      var n1 := n.(lastApplied := n.lastApplied + 1);
      ApplyEntryFrame(n1);
      assert ApplyEntry(n1).applied == n.applied + [n.log[n1.lastApplied]];
      OneMore(n.log, n.lastApplied + 1);
      ApplyCommittedApplies(ApplyEntry(n1));
    }
  }

  lemma AdoptCommitApplies(n: NodeState, leaderCommit: nat)
    requires AppliedOK(n) && leaderCommit <= LastIndex(n.log)
    ensures var r := AdoptCommit(n, leaderCommit);
      AppliedOK(r) && r.commitIndex == (if leaderCommit > n.commitIndex then leaderCommit else n.commitIndex)
  {
    if leaderCommit > n.commitIndex {
      var n1 := n.(commitIndex := leaderCommit);
      assert (if leaderCommit < LastIndex(n.log) then leaderCommit else LastIndex(n.log)) == leaderCommit;
      ApplyCommittedApplies(n1);
      ApplyCommittedFrame(n1);
    }
  }

  lemma SuccessAdvances(n: NodeState, from: Addr, req: AppendRequest, resp: AppendResponse)
    requires resp.success && resp.term <= n.term
    ensures HandleAppendReply(n, from, req, resp) == MaybeAdvanceCommitIndex(Matched(n, from, req.End()))
  {
  }
}
