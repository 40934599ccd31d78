/** Every guarded step of a dynamic cluster keeps the invariant of module DynamicSafety. */
module DynamicSteps {
  import opened RaftTypes
  import opened RaftNode
  import opened Cluster
  import opened Safety
  import opened Replication
  import opened Keeping
  import opened Configs
  import opened DynamicSafety
  import Membership
  import LogMatching
  import Election

  // ----- what carries over when history and chronicle grow -----

  lemma TermLogGrows(r: Reigns, r': Reigns, t: nat, k: nat)
    requires LogMatching.Grows(r, r') && t in r.termLog && k < |r.termLog[t]|
    ensures t in r'.termLog && LogMatching.Agree(r'.termLog[t], r.termLog[t], k)
  {
    assert r'.termLog[t][..|r.termLog[t]|] == r.termLog[t];
    assert r'.termLog[t][..k + 1] == r.termLog[t][..k + 1];
  }

  lemma CoveredGrows(r: Reigns, r': Reigns, xs: seq<Commit>, xs': seq<Commit>, m: nat, m': nat, log: Log, log': Log,
                     k: nat, last: nat, last': nat)
    requires LogMatching.Grows(r, r') && xs <= xs' && m <= m' && last <= last' && Covered(r, xs, m, log, k, last)
    requires k > 0 ==> LogMatching.Agree(log', log, k)
    ensures Covered(r', xs', m', log', k, last')
  {
    if k > 0 {
      var j :| 0 <= j < m && j < |xs| && Covers(r, xs[j], log, k, last);
      AgreeVia(log', log, r.termLog[xs[j].term], k, k, k);
      AgreeGrows(log', r, r', xs[j].term, k);
      assert Covers(r', xs'[j], log', k, last');
    }
  }

  lemma HeldGrows(h: History, h': History, voters: set<NodeID>, t: nat, i: nat)
    requires h.acks <= h'.acks && HeldBy(h, voters, t, i)
    ensures HeldBy(h', voters, t, i)
  {
    var q :| MajorityOf(q, voters) && AllAcked(h, q, t, i);
    forall v | v in q ensures Acked(h', v, t, i) {
      assert Acked(h, v, t, i);
    }
    assert AllAcked(h', q, t, i);
  }

  lemma CommitGrows(v0: set<NodeID>, h: History, h': History, xs: seq<Commit>, xs': seq<Commit>, m: nat)
    requires LogMatching.Grows(h.reigns, h'.reigns) && h.acks <= h'.acks && xs <= xs' && m < |xs|
    requires RecordOK(v0, h, xs, m)
    ensures RecordOK(v0, h', xs', m)
  {
    var x := xs[m];
    var tl, tl' := h.reigns.termLog[x.term], h'.reigns.termLog[x.term];
    TermLogGrows(h.reigns, h'.reigns, x.term, x.index);
    assert tl'[x.index] == tl[x.index];
    TermLogGrows(h.reigns, h'.reigns, x.term, LastIndex(h.reigns.leaders[x.term].log));
    SameChanges(tl', tl, x.prev, LastIndex(h.reigns.leaders[x.term].log));
    ShorterAgree(tl', tl, x.index, x.prev);
    SameVoters(v0, tl', tl, x.prev);
    HeldGrows(h, h', VotersAt(v0, tl, x.prev), x.term, x.index);
    CoveredGrows(h.reigns, h'.reigns, xs, xs', m, m, tl, tl', x.prev, x.term, x.term);
  }

  lemma StandGrows(v0: set<NodeID>, r: Reigns, r': Reigns, xs: seq<Commit>, xs': seq<Commit>, s: Stand, w: nat)
    requires LogMatching.Grows(r, r') && xs <= xs' && StandOK(v0, r, xs, s, w)
    ensures StandOK(v0, r', xs', s, w)
  {
    LogMatching.GroundedGrows(s.log, r, r');
    CoveredGrows(r, r', xs, xs', |xs|, |xs'|, s.log, s.log, s.commit, w - 1, w - 1);
  }

  /** Only `a` changed and nothing recorded or noted was lost. */
  ghost predicate Advance(c: State, g: Chronicle, c': State, g': Chronicle, a: Addr) {
    && Onward(c, c', a) && g.commits <= g'.commits
    && (forall k :: k in g.stands ==> k in g'.stands && g'.stands[k] == g.stands[k])
  }

  lemma WinGrows(v0: set<NodeID>, c: State, g: Chronicle, c': State, g': Chronicle, a: Addr, w: nat)
    requires Advance(c, g, c', g', a) && w in c.hist.reigns.leaders && WinOK(v0, c.hist, g, w)
    ensures w in c'.hist.reigns.leaders && WinOK(v0, c'.hist, g', w)
  {
    var win := c.hist.reigns.leaders[w];
    var s := g.stands[(win.addr, w)];
    StandGrows(v0, c.hist.reigns, c'.hist.reigns, g.commits, g'.commits, s, w);
    forall v | v in win.voters ensures VotedOn(c'.hist, v, w, win.addr, s.log) {
      assert VotedOn(c.hist, v, w, win.addr, s.log);
    }
  }

  lemma RecordedLater(v0: set<NodeID>, c: State, g: Chronicle, c': State, g': Chronicle, a: Addr)
    requires Recorded(v0, c.hist, g) && Advance(c, g, c', g', a) && BallotsInv(c'.hist)
    requires forall m {:trigger RecordOK(v0, c'.hist, g'.commits, m)} ::
      |g.commits| <= m < |g'.commits| ==> RecordOK(v0, c'.hist, g'.commits, m)
    requires forall i, j {:trigger Upwards(g'.commits, i, j)} ::
      0 <= i < j && |g.commits| <= j < |g'.commits| ==> Upwards(g'.commits, i, j)
    requires forall w {:trigger WinOK(v0, c'.hist, g', w)} ::
      w in c'.hist.reigns.leaders && w !in c.hist.reigns.leaders ==> WinOK(v0, c'.hist, g', w)
    ensures Recorded(v0, c'.hist, g')
  {
    forall m | 0 <= m < |g'.commits| ensures RecordOK(v0, c'.hist, g'.commits, m) {
      if m < |g.commits| {
        assert RecordOK(v0, c.hist, g.commits, m);
        CommitGrows(v0, c.hist, c'.hist, g.commits, g'.commits, m);
      }
    }
    forall i, j | 0 <= i < |g'.commits| && 0 <= j < |g'.commits| ensures Upwards(g'.commits, i, j) {
      if i < j < |g.commits| {
        assert Upwards(g.commits, i, j);
      }
    }
    forall w | w in c'.hist.reigns.leaders ensures WinOK(v0, c'.hist, g', w) {
      if w in c.hist.reigns.leaders {
        assert WinOK(v0, c.hist, g, w);
        WinGrows(v0, c, g, c', g', a, w);
      }
    }
  }

  // ----- nodes -----

  lemma AckedGrows(h: History, h': History, a: Addr, t: nat, i: nat)
    requires h.acks <= h'.acks && Acked(h, a, t, i)
    ensures Acked(h', a, t, i)
  {
  }

  /** A node that keeps its commit index and its log through there, in the same term or a later one. */
  lemma NodeCoveredLater(h: History, h': History, xs: seq<Commit>, xs': seq<Commit>, n: NodeState, n': NodeState)
    requires LogMatching.Grows(h.reigns, h'.reigns) && h.acks <= h'.acks && xs <= xs' && NodeCovered(h, xs, n)
    requires n'.id == n.id && n'.commitIndex == n.commitIndex && n'.term >= n.term
    requires LogMatching.Agree(n'.log, n.log, n.commitIndex)
    ensures NodeCovered(h', xs', n')
  {
    if n.commitIndex > 0 {
      var k := n.commitIndex;
      var j :| 0 <= j < |xs| && Covers(h.reigns, xs[j], n.log, k, n.term)
               && (xs[j].term < n.term || Acked(h, n.id, xs[j].term, k));
      AgreeVia(n'.log, n.log, h.reigns.termLog[xs[j].term], k, k, k);
      AgreeGrows(n'.log, h.reigns, h'.reigns, xs[j].term, k);
      assert Covers(h'.reigns, xs'[j], n'.log, k, n'.term);
      assert xs'[j].term < n'.term || Acked(h', n'.id, xs'[j].term, k);
    }
  }

  /** The node's log, commit index and voters are as before. */
  predicate CalmNode(n: NodeState, n': NodeState) {
    && n'.id == n.id && n'.log == n.log && n'.term >= n.term
    && (n'.role == Leader ==> n.role == Leader && n'.term == n.term)
    && n'.commitIndex == n.commitIndex && n'.lastApplied == n.lastApplied && n'.applied == n.applied
    && ByAddress(n'.members) && Membership.VoterIDs(n'.members) == Membership.VoterIDs(n.members)
  }

  lemma CalmFits(v0: set<NodeID>, h: History, h': History, xs: seq<Commit>, xs': seq<Commit>, n: NodeState,
                 n': NodeState)
    requires LogMatching.Grows(h.reigns, h'.reigns) && h.acks <= h'.acks && xs <= xs' && CalmNode(n, n')
    requires NodeFits(v0, h, xs, n) && LeaderFits(v0, h, n)
    ensures NodeFits(v0, h', xs', n') && LeaderFits(v0, h', n')
  {
    NodeCoveredLater(h, h', xs, xs', n, n');
    if n'.role == Leader {
      forall i | 0 <= i < |n'.log| && n'.log[i].term == n'.term ensures Acked(h', n'.id, n'.term, i) {
        assert n.log[i].term == n.term;
        AckedGrows(h, h', n.id, n.term, i);
      }
    }
  }

  /** New commits are those of `a`, leading in a term of its own. */
  ghost predicate OwnCommits(c: State, g: Chronicle, g': Chronicle, a: Addr)
    requires a in c.nodes
  {
    forall j {:trigger g'.commits[j]} :: |g.commits| <= j < |g'.commits| ==>
      c.nodes[a].role == Leader && g'.commits[j].term == c.nodes[a].term
  }

  lemma StillReached(c: State, g: Chronicle, g': Chronicle, a: Addr, b: Addr)
    requires LogMatching.Inv(c) && a in c.nodes && b in c.nodes && a != b && g.commits <= g'.commits
    requires OwnCommits(c, g, g', a) && Reached(g.commits, c.nodes[b])
    ensures Reached(g'.commits, c.nodes[b])
  {
    assert LogMatching.NodeOK(c.nodes[a], c.hist.reigns) && LogMatching.NodeOK(c.nodes[b], c.hist.reigns);
    forall j | 0 <= j < |g'.commits| && g'.commits[j].term == c.nodes[b].term && c.nodes[b].role == Leader
      ensures g'.commits[j].index <= c.nodes[b].commitIndex
    {
      if j < |g.commits| {
        assert g'.commits[j] == g.commits[j];
      }
    }
  }

  lemma NodesLater(v0: set<NodeID>, c: State, g: Chronicle, c': State, g': Chronicle, a: Addr)
    requires NodesInv(v0, c, g) && LogMatching.Inv(c) && Advance(c, g, c', g', a) && c'.nodes[a].id == a
    requires NodeFits(v0, c'.hist, g'.commits, c'.nodes[a]) && LeaderFits(v0, c'.hist, c'.nodes[a])
    requires OwnCommits(c, g, g', a) && Reached(g'.commits, c'.nodes[a])
    ensures NodesInv(v0, c', g')
  {
    forall b | b in c'.nodes
      ensures c'.nodes[b].id == b && NodeFits(v0, c'.hist, g'.commits, c'.nodes[b])
      ensures LeaderFits(v0, c'.hist, c'.nodes[b])
      ensures Reached(g'.commits, c'.nodes[b])
    {
      if b != a {
        assert NodeFits(v0, c.hist, g.commits, c.nodes[b]) && LeaderFits(v0, c.hist, c.nodes[b]);
        assert Reached(g.commits, c.nodes[b]);
        CalmFits(v0, c.hist, c'.hist, g.commits, g'.commits, c.nodes[b], c'.nodes[b]);
        StillReached(c, g, g', a, b);
      }
    }
  }

  lemma CalmNodes(v0: set<NodeID>, c: State, g: Chronicle, c': State, g': Chronicle, a: Addr)
    requires NodesInv(v0, c, g) && LogMatching.Inv(c) && Advance(c, g, c', g', a) && g'.commits == g.commits
    requires CalmNode(c.nodes[a], c'.nodes[a])
    ensures NodesInv(v0, c', g')
  {
    assert c.nodes[a].id == a && NodeFits(v0, c.hist, g.commits, c.nodes[a]) && LeaderFits(v0, c.hist, c.nodes[a]);
    assert Reached(g.commits, c.nodes[a]);
    CalmFits(v0, c.hist, c'.hist, g.commits, g'.commits, c.nodes[a], c'.nodes[a]);
    NodesLater(v0, c, g, c', g', a);
  }

  // ----- messages -----

  /** The node has entered a new term, or has kept what it had committed. */
  predicate KeepsCommitted(n: NodeState, n': NodeState) {
    n'.term > n.term
    || (n'.term == n.term && n'.commitIndex >= n.commitIndex && LogMatching.Agree(n'.log, n.log, n.commitIndex))
  }

  lemma BeatLater(c: State, g: Chronicle, c': State, g': Chronicle, a: Addr, x: Addr, b: Beat)
    requires BeatFits(c, g.commits, x, b) && Advance(c, g, c', g', a) && KeepsCommitted(c.nodes[a], c'.nodes[a])
    ensures BeatFits(c', g'.commits, x, b)
  {
    if b.term == c'.nodes[x].term {
      var n, n' := c.nodes[x], c'.nodes[x];
      if b.commit > 0 {
        if x == a {
          ShorterAgree(n'.log, n.log, n.commitIndex, b.commit);
        } else {
          var j :| 0 <= j < |g.commits| && Covers(c.hist.reigns, g.commits[j], n.log, b.commit, b.term);
        }
      }
      CoveredGrows(c.hist.reigns, c'.hist.reigns, g.commits, g'.commits, |g.commits|, |g'.commits|, n.log, n'.log,
                   b.commit, b.term, b.term);
    }
  }

  lemma MessagesLater(c: State, g: Chronicle, c': State, g': Chronicle, a: Addr)
    requires MessagesInv(c, g) && LogMatching.Inv(c) && Advance(c, g, c', g', a)
    requires KeepsCommitted(c.nodes[a], c'.nodes[a])
    requires forall m {:trigger RequestFits(c'.hist.reigns, g'.commits, m)} ::
      m in c'.appendReqs && m !in c.appendReqs ==> RequestFits(c'.hist.reigns, g'.commits, m)
    requires forall x, b {:trigger BeatFits(c', g'.commits, x, b)} ::
      (x, b) in c'.beats && (x, b) !in c.beats ==> BeatFits(c', g'.commits, x, b)
    ensures MessagesInv(c', g')
  {
    forall m | m in c'.appendReqs ensures RequestFits(c'.hist.reigns, g'.commits, m) {
      if m in c.appendReqs {
        assert RequestFits(c.hist.reigns, g.commits, m) && LogMatching.RequestOK(m, c.hist.reigns);
        RequestGrows(c.hist.reigns, c'.hist.reigns, g.commits, g'.commits, m);
      }
    }
    forall x, b | (x, b) in c'.beats ensures BeatFits(c', g'.commits, x, b) {
      if (x, b) in c.beats {
        assert BeatFits(c, g.commits, x, b);
        BeatLater(c, g, c', g', a, x, b);
      }
    }
  }

  lemma RequestGrows(r: Reigns, r': Reigns, xs: seq<Commit>, xs': seq<Commit>, m: AppendRequest)
    requires LogMatching.Grows(r, r') && xs <= xs' && RequestFits(r, xs, m)
    ensures RequestFits(r', xs', m)
  {
    var k := m.leaderCommit;
    if k > 0 {
      var j :| 0 <= j < |xs| && Covers(r, xs[j], r.termLog[m.term], k, m.term);
      TermLogGrows(r, r', m.term, k);
    }
    CoveredGrows(r, r', xs, xs', |xs|, |xs'|, r.termLog[m.term], r'.termLog[m.term], k, m.term, m.term);
  }

  // ----- campaigns -----

  /** A campaign that goes on counts as before: its node keeps its log, commit index and voters, or is no longer a
      candidate in that term. */
  lemma CampaignLater(v0: set<NodeID>, c: State, g: Chronicle, c': State, g': Chronicle, a: Addr, b: Addr)
    requires Advance(c, g, c', g', a) && b in c.campaigns && b in c'.campaigns && CampaignFits(v0, c, g, b)
    requires c'.campaigns[b] == c.campaigns[b] && SameCampaigns(c, c', a)
    requires b == a && Campaigning(c', a, c.campaigns[a].term) ==> CalmNode(c.nodes[a], c'.nodes[a])
    ensures CampaignFits(v0, c', g', b)
  {
    var k := c.campaigns[b];
    forall v | v in k.granted + {b} ensures Election.VotedFor(c'.hist, v, k.term, b) {
      assert Election.VotedFor(c.hist, v, k.term, b);
    }
    if Campaigning(c', b, k.term) && b != a {
      assert Campaigning(c, b, k.term);
    }
  }

  lemma StandsLater(v0: set<NodeID>, c: State, g: Chronicle, c': State, g': Chronicle, a: Addr)
    requires CampaignsInv(v0, c, g) && Advance(c, g, c', g', a)
    requires forall b, w {:trigger StandFits(v0, c', g', b, w)} ::
      (b, w) in g'.stands && (b, w) !in g.stands ==> StandFits(v0, c', g', b, w)
    ensures forall b, w {:trigger StandFits(v0, c', g', b, w)} :: (b, w) in g'.stands ==> StandFits(v0, c', g', b, w)
  {
    forall b, w | (b, w) in g'.stands ensures StandFits(v0, c', g', b, w) {
      if (b, w) in g.stands {
        assert StandFits(v0, c, g, b, w);
        StandGrows(v0, c.hist.reigns, c'.hist.reigns, g.commits, g'.commits, g.stands[(b, w)], w);
      }
    }
  }

  /** Steps that take no lead, and in which nobody campaigns who did not. */
  lemma CampaignsLater(v0: set<NodeID>, c: State, g: Chronicle, c': State, g': Chronicle, a: Addr)
    requires CampaignsInv(v0, c, g) && Advance(c, g, c', g', a) && SameCampaigns(c, c', a) && g'.stands == g.stands
    requires c'.hist.reigns.leaders == c.hist.reigns.leaders && c'.hist.wins == c.hist.wins
    requires forall b {:trigger b in c'.campaigns} :: b in c'.campaigns ==>
      b in c.campaigns && (b != a ==> c'.campaigns[b] == c.campaigns[b]) && c'.campaigns[b].term == c.campaigns[b].term
    requires a in c'.campaigns ==> CampaignFits(v0, c', g', a)
    ensures CampaignsInv(v0, c', g')
  {
    StandsLater(v0, c, g, c', g', a);
    forall b | b in c'.campaigns ensures CampaignFits(v0, c', g', b) && Election.NotYetWon(c', b) {
      assert CampaignFits(v0, c, g, b) && Election.NotYetWon(c, b);
      if b != a {
        CampaignLater(v0, c, g, c', g', a, b);
      }
    }
    forall t | t in c'.hist.reigns.leaders ensures WonBy(c', t) {
      assert WonBy(c, t);
    }
  }

  // ----- elections -----

  /** Whoever votes for a candidate has been shown its log. */
  lemma ShownLog(conf: Config, c: State, a: Addr, v: Addr, w: nat)
    requires IDsAreAddresses(conf) && a in conf && EndsInv(conf, c) && Campaigning(c, a, w)
    requires Election.VotedFor(c.hist, v, w, a)
    ensures VotedOn(c.hist, v, w, a, c.nodes[a].log)
  {
    Election.OwnerOf(conf, a);
    assert BallotEndOK(conf, c, v, w);
  }

  /** A candidate in its own term that has counted enough votes is elected by them. */
  lemma Elected(conf: Config, v0: set<NodeID>, c: State, g: Chronicle, a: Addr)
    requires DynamicInv(conf, v0, c, g) && a in c.nodes && Enabled(c, TakeLead(a))
    requires c.nodes[a].term == c.campaigns[a].term && c.nodes[a].role == Candidate
    ensures Elects(v0, c.hist, g, a, c.nodes[a].term, c.campaigns[a].granted + {a})
  {
    var k, w := c.campaigns[a], c.nodes[a].term;
    assert CampaignFits(v0, c, g, a) && StandFits(v0, c, g, a, w) && Campaigning(c, a, w);
    var s := g.stands[(a, w)];
    assert |k.granted + {a}| == |k.granted| + 1;
    forall v | v in k.granted + {a} ensures VotedOn(c.hist, v, w, a, s.log) {
      assert Election.VotedFor(c.hist, v, w, a);
      ShownLog(conf, c, a, v, w);
    }
  }

  lemma NobodyElse(conf: Config, v0: set<NodeID>, c: State, g: Chronicle, a: Addr)
    requires DynamicInv(conf, v0, c, g) && a in c.nodes && Enabled(c, TakeLead(a))
    requires c.nodes[a].term == c.campaigns[a].term && c.nodes[a].role == Candidate
    ensures c.nodes[a].term !in c.hist.reigns.leaders
  {
    var w := c.nodes[a].term;
    Elected(conf, v0, c, g, a);
    if w in c.hist.reigns.leaders {
      var win := c.hist.reigns.leaders[w];
      assert WinOK(v0, c.hist, g, w) && Election.NotYetWon(c, a);
      OneElected(v0, c.hist, g, w, a, c.campaigns[a].granted + {a}, win.addr, win.voters);
      assert false;
    }
  }

  /** A guarded step is what Replication and Keeping ask for: in particular a term gets one leader. */
  lemma GuardedIsHonest(conf: Config, v0: set<NodeID>, c: State, g: Chronicle, s: Step)
    requires DynamicInv(conf, v0, c, g) && Guarded(v0, 1, c, s)
    ensures Honest(conf, c, s) && FreshReign(c, s)
  {
    if s.TakeLead? {
      NobodyElse(conf, v0, c, g, s.a);
    }
    HonestInReign(conf, v0, c, g, s);
  }

  lemma HonestInReign(conf: Config, v0: set<NodeID>, c: State, g: Chronicle, s: Step)
    requires IDsAreAddresses(conf) && c.nodes.Keys == conf.Keys && NodesInv(v0, c, g) && CampaignsInv(v0, c, g)
    requires Guarded(v0, 1, c, s) && (s.TakeLead? ==> c.nodes[s.a].term !in c.hist.reigns.leaders)
    ensures Honest(conf, c, s) && FreshReign(c, s)
  {
    assert c.nodes[s.a].id == s.a;
    if s.a in c.campaigns {
      assert CampaignFits(v0, c, g, s.a);
    }
  }

  // ----- starting a campaign -----

  lemma StandsAlone(v0: set<NodeID>, c: State, g: Chronicle, a: Addr)
    requires CampaignsInv(v0, c, g) && a in c.nodes
    ensures (a, c.nodes[a].term + 1) !in g.stands
  {
    forall w | (a, w) in g.stands ensures w <= c.nodes[a].term {
      assert StandFits(v0, c, g, a, w);
    }
  }

  lemma NewStand(v0: set<NodeID>, h: History, xs: seq<Commit>, n: NodeState)
    requires NodeFits(v0, h, xs, n) && LogMatching.NodeOK(n, h.reigns) && MayCampaign(v0, 1, n)
    ensures StandOK(v0, h.reigns, xs, Stand(n.log, n.commitIndex), n.term + 1)
  {
  }

  /** A node that may campaign knows the voters of what it has committed. */
  lemma SettledSeat(v0: set<NodeID>, n: NodeState)
    requires Seated(v0 + {n.id}, n) && Settled(v0, n)
    ensures Seated(v0, n)
  {
    NamedOnce(v0, n.id, n.log, n.lastApplied);
  }

  lemma NewCampaign(v0: set<NodeID>, c: State, g: Chronicle, a: Addr)
    requires a in c.nodes && c.nodes[a].id == a && NodeFits(v0, c.hist, g.commits, c.nodes[a])
    requires Enabled(c, StartCampaign(a)) && MayCampaign(v0, 1, c.nodes[a])
    requires (a, c.nodes[a].term + 1) !in c.hist.ballots
    ensures CampaignFits(v0, DoStartCampaign(c, a), Note(g, c, StartCampaign(a)), a)
  {
    var n := c.nodes[a];
    SettledSeat(v0, n);
    PeersByAddress(n.members, a);
    assert {} + {a} == {a};
  }

  lemma StartCampaignAdvances(v0: set<NodeID>, c: State, g: Chronicle, a: Addr)
    requires CampaignsInv(v0, c, g) && Enabled(c, StartCampaign(a)) && Onward(c, DoStartCampaign(c, a), a)
    ensures Advance(c, g, DoStartCampaign(c, a), Note(g, c, StartCampaign(a)), a)
  {
    StandsAlone(v0, c, g, a);
  }

  lemma StartCampaignStands(v0: set<NodeID>, c: State, g: Chronicle, a: Addr)
    requires CampaignsInv(v0, c, g) && Enabled(c, StartCampaign(a)) && MayCampaign(v0, 1, c.nodes[a])
    requires NodeFits(v0, c.hist, g.commits, c.nodes[a]) && LogMatching.NodeOK(c.nodes[a], c.hist.reigns)
    requires Advance(c, g, DoStartCampaign(c, a), Note(g, c, StartCampaign(a)), a)
    ensures var c', g' := DoStartCampaign(c, a), Note(g, c, StartCampaign(a));
      forall b, w {:trigger StandFits(v0, c', g', b, w)} :: (b, w) in g'.stands ==> StandFits(v0, c', g', b, w)
  {
    NewStand(v0, c.hist, g.commits, c.nodes[a]);
    StandsLater(v0, c, g, DoStartCampaign(c, a), Note(g, c, StartCampaign(a)), a);
  }

  lemma StartCampaignCounts(v0: set<NodeID>, c: State, g: Chronicle, a: Addr)
    requires CampaignsInv(v0, c, g) && Enabled(c, StartCampaign(a))
    requires CampaignFits(v0, DoStartCampaign(c, a), Note(g, c, StartCampaign(a)), a)
    requires Advance(c, g, DoStartCampaign(c, a), Note(g, c, StartCampaign(a)), a)
    ensures var c', g' := DoStartCampaign(c, a), Note(g, c, StartCampaign(a));
      forall b {:trigger CampaignFits(v0, c', g', b)} :: b in c'.campaigns ==> CampaignFits(v0, c', g', b)
  {
    var c', g' := DoStartCampaign(c, a), Note(g, c, StartCampaign(a));
    StartCampaigns(c, a);
    forall b | b in c'.campaigns ensures CampaignFits(v0, c', g', b) {
      if b != a {
        assert CampaignFits(v0, c, g, b);
        CampaignLater(v0, c, g, c', g', a, b);
      }
    }
  }

  lemma StartCampaignWins(v0: set<NodeID>, c: State, g: Chronicle, a: Addr)
    requires CampaignsInv(v0, c, g) && Enabled(c, StartCampaign(a))
    ensures var c' := DoStartCampaign(c, a);
      && (forall b {:trigger Election.NotYetWon(c', b)} :: b in c'.campaigns ==> Election.NotYetWon(c', b))
      && (forall t {:trigger WonBy(c', t)} :: t in c'.hist.reigns.leaders ==> WonBy(c', t))
  {
    var c' := DoStartCampaign(c, a);
    OwnWins(v0, c, g, a);
    forall b | b in c'.campaigns ensures Election.NotYetWon(c', b) {
      assert b != a ==> Election.NotYetWon(c, b);
    }
    forall t | t in c'.hist.reigns.leaders ensures WonBy(c', t) {
      assert WonBy(c, t);
    }
  }

  lemma OwnWins(v0: set<NodeID>, c: State, g: Chronicle, a: Addr)
    requires CampaignsInv(v0, c, g) && a in c.nodes
    ensures forall t :: t in c.hist.reigns.leaders && c.hist.reigns.leaders[t].addr == a ==> t <= c.nodes[a].term
  {
    forall t | t in c.hist.reigns.leaders && c.hist.reigns.leaders[t].addr == a ensures t <= c.nodes[a].term {
      assert WonBy(c, t);
    }
  }

  lemma StartCampaignInv(conf: Config, v0: set<NodeID>, c: State, g: Chronicle, a: Addr)
    requires DynamicInv(conf, v0, c, g) && Guarded(v0, 1, c, StartCampaign(a))
    requires Advance(c, g, DoStartCampaign(c, a), Note(g, c, StartCampaign(a)), a)
    ensures CampaignsInv(v0, DoStartCampaign(c, a), Note(g, c, StartCampaign(a)))
  {
    assert c.nodes[a].id == a && NodeFits(v0, c.hist, g.commits, c.nodes[a]);
    assert LogMatching.NodeOK(c.nodes[a], c.hist.reigns);
    Election.StartCampaignLater(conf, c, a);
    NewCampaign(v0, c, g, a);
    StartCampaignStands(v0, c, g, a);
    StartCampaignCounts(v0, c, g, a);
    StartCampaignWins(v0, c, g, a);
  }

  // ----- counting votes -----

  lemma CountedFits(v0: set<NodeID>, c: State, g: Chronicle, s: Step)
    requires Enabled(c, s) && s.CountVote? && CampaignFits(v0, c, g, s.a) && c.nodes[s.a].id == s.a
    requires Election.ReplyOK(c.hist, s.voteReply)
    ensures CampaignFits(v0, Apply(c, s), g, s.a) && SameCampaigns(c, Apply(c, s), s.a)
  {
    var a, c' := s.a, Apply(c, s);
    assert Campaigning(c', a, c'.campaigns[a].term) ==> Campaigning(c, a, c.campaigns[a].term);
  }

  lemma CountVoteInv(v0: set<NodeID>, c: State, g: Chronicle, s: Step)
    requires CampaignsInv(v0, c, g) && Enabled(c, s) && s.CountVote? && c.nodes[s.a].id == s.a
    requires Election.ReplyOK(c.hist, s.voteReply) && Onward(c, Apply(c, s), s.a)
    ensures CampaignsInv(v0, Apply(c, s), g)
  {
    assert CampaignFits(v0, c, g, s.a);
    CountedFits(v0, c, g, s);
    CampaignsLater(v0, c, g, Apply(c, s), g, s.a);
  }

  // ----- taking the lead -----

  lemma TakeLeadCounts(v0: set<NodeID>, c: State, g: Chronicle, a: Addr)
    requires CampaignsInv(v0, c, g) && a in c.nodes && a in c.campaigns && Onward(c, DoTakeLead(c, a), a)
    ensures var c' := DoTakeLead(c, a);
      forall b {:trigger CampaignFits(v0, c', g, b)} :: b in c'.campaigns ==> CampaignFits(v0, c', g, b)
  {
    var c' := DoTakeLead(c, a);
    TakeLeadCampaigns(c, a);
    forall b | b in c'.campaigns ensures CampaignFits(v0, c', g, b) {
      assert CampaignFits(v0, c, g, b);
      CampaignLater(v0, c, g, c', g, a, b);
    }
  }

  lemma TakeLeadWins(v0: set<NodeID>, c: State, g: Chronicle, a: Addr)
    requires CampaignsInv(v0, c, g) && a in c.nodes && a in c.campaigns && c.nodes[a].term !in c.hist.reigns.leaders
    ensures var c' := DoTakeLead(c, a);
      && (forall b {:trigger Election.NotYetWon(c', b)} :: b in c'.campaigns ==> Election.NotYetWon(c', b))
      && (forall t {:trigger WonBy(c', t)} :: t in c'.hist.reigns.leaders ==> WonBy(c', t))
      && (forall t, b :: (t, b) in c'.hist.wins ==> t in c'.hist.reigns.leaders && c'.hist.reigns.leaders[t].addr == b)
  {
    var c' := DoTakeLead(c, a);
    forall b | b in c'.campaigns ensures Election.NotYetWon(c', b) {
      assert Election.NotYetWon(c, b);
    }
    forall t | t in c'.hist.reigns.leaders ensures WonBy(c', t) {
      assert t in c.hist.reigns.leaders ==> WonBy(c, t);
    }
  }

  lemma TakeLeadInv(v0: set<NodeID>, c: State, g: Chronicle, a: Addr)
    requires CampaignsInv(v0, c, g) && a in c.nodes && a in c.campaigns
    requires c.nodes[a].term !in c.hist.reigns.leaders && Onward(c, DoTakeLead(c, a), a)
    ensures CampaignsInv(v0, DoTakeLead(c, a), g)
  {
    StandsLater(v0, c, g, DoTakeLead(c, a), g, a);
    TakeLeadCounts(v0, c, g, a);
    TakeLeadWins(v0, c, g, a);
  }

  lemma NewLeaderFits(v0: set<NodeID>, c: State, g: Chronicle, a: Addr)
    requires CampaignsInv(v0, c, g) && LogMatching.Inv(c) && a in c.nodes && a in c.campaigns
    requires c.nodes[a].id == a && NodeFits(v0, c.hist, g.commits, c.nodes[a]) && Campaigning(c, a, c.nodes[a].term)
    requires c.nodes[a].term !in c.hist.reigns.leaders
    ensures LeaderFits(v0, DoTakeLead(c, a).hist, BecomeLeader(c.nodes[a]))
  {
    var n := c.nodes[a];
    assert CampaignFits(v0, c, g, a) && StandFits(v0, c, g, a, n.term) && LogMatching.NodeOK(n, c.hist.reigns);
    NoOwnEntriesYet(n, c.hist.reigns);
    assert DoTakeLead(c, a).hist.reigns.leaders[n.term].log == n.log;
  }

  lemma NothingReached(v0: set<NodeID>, h: History, g: Chronicle, n: NodeState)
    requires Recorded(v0, h, g) && n.term !in h.reigns.leaders
    ensures Reached(g.commits, n)
  {
    forall j | 0 <= j < |g.commits| ensures g.commits[j].term != n.term {
      assert RecordOK(v0, h, g.commits, j);
    }
  }

  lemma TakeLeadNodes(v0: set<NodeID>, c: State, g: Chronicle, a: Addr)
    requires NodesInv(v0, c, g) && LogMatching.Inv(c) && a in c.nodes && a in c.campaigns
    requires Onward(c, DoTakeLead(c, a), a) && Reached(g.commits, BecomeLeader(c.nodes[a]))
    requires LeaderFits(v0, DoTakeLead(c, a).hist, BecomeLeader(c.nodes[a]))
    ensures NodesInv(v0, DoTakeLead(c, a), g)
  {
    assert c.nodes[a].id == a && NodeFits(v0, c.hist, g.commits, c.nodes[a]);
    LeadingFits(v0, c.hist, DoTakeLead(c, a).hist, g.commits, c.nodes[a]);
    NodesLater(v0, c, g, DoTakeLead(c, a), g, a);
  }

  lemma LeadingFits(v0: set<NodeID>, h: History, h': History, xs: seq<Commit>, n: NodeState)
    requires NodeFits(v0, h, xs, n) && LogMatching.Grows(h.reigns, h'.reigns) && h.acks <= h'.acks
    ensures NodeFits(v0, h', xs, BecomeLeader(n))
  {
    NodeCoveredLater(h, h', xs, xs, n, BecomeLeader(n));
  }

  lemma NewWin(v0: set<NodeID>, c: State, g: Chronicle, a: Addr)
    requires a in c.nodes && a in c.campaigns && c.nodes[a].term !in c.hist.reigns.leaders
    requires Elects(v0, c.hist, g, a, c.nodes[a].term, c.campaigns[a].granted + {a})
    requires g.stands[(a, c.nodes[a].term)].log == c.nodes[a].log && Onward(c, DoTakeLead(c, a), a)
    ensures WinOK(v0, DoTakeLead(c, a).hist, g, c.nodes[a].term)
  {
    var c', w := DoTakeLead(c, a), c.nodes[a].term;
    var s := g.stands[(a, w)];
    StandGrows(v0, c.hist.reigns, c'.hist.reigns, g.commits, g.commits, s, w);
    forall v | v in c.campaigns[a].granted + {a} ensures VotedOn(c'.hist, v, w, a, s.log) {
      assert VotedOn(c.hist, v, w, a, s.log);
    }
  }

  lemma TakeLeadRecorded(v0: set<NodeID>, c: State, g: Chronicle, a: Addr)
    requires Recorded(v0, c.hist, g) && a in c.nodes && a in c.campaigns && c.nodes[a].term !in c.hist.reigns.leaders
    requires Elects(v0, c.hist, g, a, c.nodes[a].term, c.campaigns[a].granted + {a})
    requires g.stands[(a, c.nodes[a].term)].log == c.nodes[a].log
    requires Onward(c, DoTakeLead(c, a), a) && BallotsInv(DoTakeLead(c, a).hist)
    ensures Recorded(v0, DoTakeLead(c, a).hist, g)
  {
    NewWin(v0, c, g, a);
    RecordedLater(v0, c, g, DoTakeLead(c, a), g, a);
  }

  // ----- appending -----

  lemma LongerVoters(v: set<NodeID>, log: Entries, e: LogEntry, i: nat)
    requires i < |log|
    ensures LogMatching.Agree(log + [e], log, i) && VotersAt(v, log + [e], i) == VotersAt(v, log, i)
  {
    assert (log + [e])[..i + 1] == log[..i + 1];
    SameVoters(v, log + [e], log, i);
  }

  lemma AppendedLeader(v0: set<NodeID>, h: History, h': History, n: NodeState, e: LogEntry)
    requires AppliedOK(n) && LeaderFits(v0, h, n) && n.role == Leader && LogMatching.Grows(h.reigns, h'.reigns)
    requires h.acks <= h'.acks && Ack(n.id, n.term, |n.log|) in h'.acks
    ensures LeaderFits(v0, h', n.(log := n.log + [e]))
  {
    var last := LastIndex(h.reigns.leaders[n.term].log);
    LongerVoters(v0, n.log, e, n.lastApplied);
    LongerVoters(v0, n.log, e, last);
    SameChanges(n.log + [e], n.log, n.commitIndex, last);
    AppendedAcked(h, h', n, e);
  }

  lemma AppendedAcked(h: History, h': History, n: NodeState, e: LogEntry)
    requires OwnAcked(h, n) && h.acks <= h'.acks && Ack(n.id, n.term, |n.log|) in h'.acks
    ensures OwnAcked(h', n.(log := n.log + [e]))
  {
    var n' := n.(log := n.log + [e]);
    forall i | 0 <= i < |n'.log| && n'.log[i].term == n'.term ensures Acked(h', n'.id, n'.term, i) {
      if i < |n.log| {
        assert n.log[i].term == n.term;
        AckedGrows(h, h', n.id, n.term, i);
      }
    }
  }

  lemma AppendedFits(v0: set<NodeID>, h: History, h': History, xs: seq<Commit>, n: NodeState, e: LogEntry)
    requires NodeFits(v0, h, xs, n) && PlainEntry(e) && LogMatching.Grows(h.reigns, h'.reigns) && h.acks <= h'.acks
    ensures NodeFits(v0, h', xs, n.(log := n.log + [e]))
  {
    var n' := n.(log := n.log + [e]);
    LongerVoters(v0 + {n.id}, n.log, e, n.lastApplied);
    NodeCoveredLater(h, h', xs, xs, n, n');
    assert n'.log[1..n.commitIndex + 1] == n.log[1..n.commitIndex + 1];
  }

  lemma ProposeNodes(v0: set<NodeID>, c: State, g: Chronicle, a: Addr, command: Command)
    requires NodesInv(v0, c, g) && LogMatching.Inv(c) && Guarded(v0, 1, c, Propose(a, command))
    requires Onward(c, DoPropose(c, a, command), a)
    ensures NodesInv(v0, DoPropose(c, a, command), g)
  {
    var c', n := DoPropose(c, a, command), c.nodes[a];
    var e := LogEntry(|n.log|, n.term, command);
    assert n.id == a && NodeFits(v0, c.hist, g.commits, n) && LeaderFits(v0, c.hist, n);
    assert c'.nodes[a] == n.(log := n.log + [e]);
    AppendedLeader(v0, c.hist, c'.hist, n, e);
    AppendedFits(v0, c.hist, c'.hist, g.commits, n, e);
    assert Reached(g.commits, n);
    NodesLater(v0, c, g, c', g, a);
  }

  // ----- sending -----

  lemma NodeCovers(h: History, xs: seq<Commit>, n: NodeState)
    requires NodeCovered(h, xs, n)
    ensures Covered(h.reigns, xs, |xs|, n.log, n.commitIndex, n.term)
  {
  }

  /** A leader announces no more than it has committed, all within the log it sends. */
  lemma SentFits(v0: set<NodeID>, c: State, g: Chronicle, a: Addr, to: Addr, beat: Beat)
    requires LogMatching.Inv(c) && a in c.nodes && c.nodes[a].id == a && NodeFits(v0, c.hist, g.commits, c.nodes[a])
    requires BeatFits(c, g.commits, a, beat) && c.nodes[a].role == Leader && beat.term == c.nodes[a].term
    ensures RequestFits(c.hist.reigns, g.commits, MakeAppendRequest(c.nodes[a], to, beat.term, beat.commit))
  {
    assert LogMatching.NodeOK(c.nodes[a], c.hist.reigns);
  }

  // ----- handling requests -----

  lemma CommitWithinRequest(v0: set<NodeID>, c: State, g: Chronicle, a: Addr, req: AppendRequest)
    requires Recorded(v0, c.hist, g) && Receiving(c, a, req) && c.nodes[a].id == a
    requires NodeCovered(c.hist, g.commits, c.nodes[a]) && req.entries != [] && c.nodes[a].commitIndex > 0
    ensures req.term in c.hist.reigns.termLog && c.nodes[a].commitIndex <= req.End()
    ensures LogMatching.Agree(c.nodes[a].log, c.hist.reigns.termLog[req.term], c.nodes[a].commitIndex)
  {
    var n, k, xs := c.nodes[a], c.nodes[a].commitIndex, g.commits;
    AcceptedLog(c, a, req);
    var j :| 0 <= j < |xs| && Covers(c.hist.reigns, xs[j], n.log, k, n.term)
             && (xs[j].term < n.term || Acked(c.hist, n.id, xs[j].term, k));
    CoveredInTermLog(v0, c.hist, g, j, n.log, k, n.term, req.term);
    if xs[j].term < req.term {
      LeaderKeeps(v0, c.hist, g, j, req.term);
    } else {
      var ack :| ack in c.hist.acks && ack.addr == a && ack.term == xs[j].term && ack.end >= k;
    }
  }

  /** What the node had committed survives the truncation. */
  lemma CommitSurvives(v0: set<NodeID>, c: State, g: Chronicle, a: Addr, req: AppendRequest)
    requires Recorded(v0, c.hist, g) && Receiving(c, a, req) && c.nodes[a].id == a
    requires NodeCovered(c.hist, g.commits, c.nodes[a]) && c.nodes[a].commitIndex < |c.nodes[a].log|
    ensures LogMatching.Agree(AppendTo(c.nodes[a].log, req), c.nodes[a].log, c.nodes[a].commitIndex)
  {
    var n, r, k := c.nodes[a], c.hist.reigns, c.nodes[a].commitIndex;
    AcceptedLog(c, a, req);
    assert LogMatching.NodeOK(n, r);
    if req.entries != [] {
      var tl := r.termLog[req.term];
      if k == 0 {
        Sentinels(r, n.log, tl);
      } else {
        CommitWithinRequest(v0, c, g, a, req);
      }
      assert tl[..req.End() + 1][..k + 1] == tl[..k + 1];
    }
  }

  /** With members recorded under their addresses no leader's request renames one. */
  lemma NoRename(n: NodeState, req: AppendRequest, pick: NodeID)
    requires ByAddress(n.members) && req.leaderID == req.leaderAddr
    ensures FollowLeader(n, req, pick).members == n.members
  {
  }

  lemma AcceptedPlain(log: Entries, req: AppendRequest)
    requires PlainLog(log) && PlainLog(req.entries) && PrevMatches(log, req)
    ensures PlainLog(AppendTo(log, req))
  {
  }

  /** The node after the truncation and before it adopts the leader's commit index. */
  lemma TruncatedFits(v0: set<NodeID>, h: History, xs: seq<Commit>, n: NodeState, n': NodeState)
    requires NodeFits(v0, h, xs, n) && PlainLog(n'.log) && LogMatching.Agree(n'.log, n.log, n.commitIndex)
    requires n' == n.(log := n'.log, term := n'.term, votedFor := n'.votedFor, role := n'.role, leaderID := n'.leaderID,
                      leaderAddr := n'.leaderAddr) && n'.term >= n.term
    ensures NodeFits(v0, h, xs, n')
  {
    NodeCoveredLater(h, h, xs, xs, n, n');
    SameVoters(v0 + {n.id}, n'.log, n.log, n.commitIndex);
    assert n'.log[1..n.commitIndex + 1] == n'.log[..n.commitIndex + 1][1..] == n.log[..n.commitIndex + 1][1..]
        == n.log[1..n.commitIndex + 1];
  }

  lemma AdoptedCovered(h: History, xs: seq<Commit>, n: NodeState, req: AppendRequest)
    requires RequestFits(h.reigns, xs, req) && n.term == req.term && n.commitIndex == req.leaderCommit
    requires LogMatching.Agree(n.log, h.reigns.termLog[req.term], req.End()) && Acked(h, n.id, req.term, req.End())
    ensures NodeCovered(h, xs, n)
  {
    var tl, k := h.reigns.termLog[req.term], req.leaderCommit;
    if k > 0 {
      var j :| 0 <= j < |xs| && Covers(h.reigns, xs[j], tl, k, req.term);
      AgreeVia(n.log, tl, h.reigns.termLog[xs[j].term], req.End(), k, k);
      assert Covers(h.reigns, xs[j], n.log, k, n.term);
      assert xs[j].term < n.term || Acked(h, n.id, xs[j].term, k);
    }
  }

  lemma AdoptFits(v0: set<NodeID>, h: History, xs: seq<Commit>, n: NodeState, req: AppendRequest)
    requires NodeFits(v0, h, xs, n) && RequestFits(h.reigns, xs, req) && n.term == req.term
    requires LogMatching.Agree(n.log, h.reigns.termLog[req.term], req.End()) && Acked(h, n.id, req.term, req.End())
    ensures NodeFits(v0, h, xs, AdoptCommit(n, req.leaderCommit))
    ensures AdoptCommit(n, req.leaderCommit).commitIndex >= n.commitIndex
  {
    AdoptCommitApplies(n, req.leaderCommit);
    if req.leaderCommit > n.commitIndex {
      var n1 := n.(commitIndex := req.leaderCommit);
      ApplySeats(v0 + {n.id}, n1);
      ApplyCommittedFrame(n1);
      AdoptedCovered(h, xs, ApplyCommitted(n1), req);
    }
  }

  /** Everything known about the receiver and the request it accepts. */
  ghost predicate Accepting(v0: set<NodeID>, c: State, g: Chronicle, a: Addr, req: AppendRequest) {
    && Recorded(v0, c.hist, g) && Receiving(c, a, req) && c.nodes[a].id == a
    && NodeFits(v0, c.hist, g.commits, c.nodes[a]) && RequestFits(c.hist.reigns, g.commits, req)
  }

  lemma AcceptFits(v0: set<NodeID>, c: State, g: Chronicle, a: Addr, req: AppendRequest, pick: NodeID)
    requires Accepting(v0, c, g, a, req)
    ensures var c' := DoRecvAppend(c, a, req, pick);
      NodeFits(v0, c'.hist, g.commits, c'.nodes[a]) && KeepsCommitted(c.nodes[a], c'.nodes[a])
  {
    var n, h' := c.nodes[a], c.hist.(acks := c.hist.acks + {Ack(a, req.term, req.End())});
    var n2 := FollowLeader(n, req, pick).(log := AppendTo(n.log, req));
    NoRename(n, req, pick);
    AcceptedLog(c, a, req);
    AcceptedPlain(n.log, req);
    CommitSurvives(v0, c, g, a, req);
    TruncatedFits(v0, c.hist, g.commits, n, n2);
    NodeCoveredLater(c.hist, h', g.commits, g.commits, n2, n2);
    AdoptFits(v0, h', g.commits, n2, req);
    assert DoRecvAppend(c, a, req, pick).nodes[a] == AdoptCommit(n2, req.leaderCommit);
    LogMatching.AdoptCommitFrame(n2, req.leaderCommit);
  }

  lemma RecvAppendNodes(v0: set<NodeID>, c: State, g: Chronicle, a: Addr, req: AppendRequest, pick: NodeID)
    requires NodesInv(v0, c, g) && LogMatching.Inv(c) && Accepting(v0, c, g, a, req)
    requires Onward(c, DoRecvAppend(c, a, req, pick), a)
    ensures NodesInv(v0, DoRecvAppend(c, a, req, pick), g)
  {
    AcceptFits(v0, c, g, a, req, pick);
    LogMatching.HandleAppendEntriesFrame(c.nodes[a], req, pick);
    NodesLater(v0, c, g, DoRecvAppend(c, a, req, pick), g, a);
  }

  // ----- handling replies -----

  /** An index the leader finds committable is held by a majority of the voters it knows. */
  lemma CommittableIsHeld(h: History, n: NodeState, index: nat)
    requires ByAddress(n.members) && n.id in Membership.VoterIDs(n.members) && n.role == Leader
    requires MatchBacked(h, n) && OwnAcked(h, n) && index > 0 && Committable(n, index)
    ensures HeldBy(h, Membership.VoterIDs(n.members), n.term, index)
  {
    var s := Supporters(n, index);
    var q := s + {n.id};
    assert |q| == |s| + 1;
    forall v | v in q ensures Acked(h, v, n.term, index) {
      if v == n.id {
        assert n.log[index].term == n.term;
      } else {
        assert n.members[v].addr == v && Lookup(n.matchIndex, v) >= index;
        assert Acked(h, v, n.term, n.matchIndex[v]);
      }
    }
    assert MajorityOf(q, Membership.VoterIDs(n.members)) && AllAcked(h, q, n.term, index);
  }

  /** A leader `n` that finds `best` committable. */
  ghost predicate Committing(v0: set<NodeID>, h: History, xs: seq<Commit>, n: NodeState, best: nat) {
    && NodeFits(v0, h, xs, n) && LeaderFits(v0, h, n) && n.role == Leader && MatchBacked(h, n)
    && LogMatching.HistoryOK(h.reigns) && LogMatching.NodeOK(n, h.reigns)
    && n.commitIndex < best && Committable(n, best)
  }

  lemma NewRecord(v0: set<NodeID>, h: History, xs: seq<Commit>, n: NodeState, best: nat)
    requires Committing(v0, h, xs, n, best)
    ensures RecordOK(v0, h, xs + [Commit(n.term, best, n.commitIndex)], |xs|)
  {
    var xs' := xs + [Commit(n.term, best, n.commitIndex)];
    CommittableIsHeld(h, n, best);
    NodeCovers(h, xs, n);
    CoveredGrows(h.reigns, h.reigns, xs, xs', |xs|, |xs|, n.log, n.log, n.commitIndex, n.term, n.term);
  }

  lemma CommittedFits(v0: set<NodeID>, h: History, xs: seq<Commit>, n: NodeState, best: nat)
    requires Committing(v0, h, xs, n, best)
    ensures var n', xs' := ApplyCommitted(n.(commitIndex := best)), xs + [Commit(n.term, best, n.commitIndex)];
      NodeFits(v0, h, xs', n') && n'.commitIndex == best
  {
    var n1, xs' := n.(commitIndex := best), xs + [Commit(n.term, best, n.commitIndex)];
    ApplyCommittedFrame(n1);
    ApplyCommittedApplies(n1);
    ApplySeats(v0 + {n.id}, n1);
    assert n.log[best].term == n.term;
    var n' := ApplyCommitted(n1);
    assert Covers(h.reigns, xs'[|xs|], n'.log, best, n'.term) && Acked(h, n'.id, n.term, best);
  }

  lemma CommittedLeads(v0: set<NodeID>, h: History, xs: seq<Commit>, n: NodeState, best: nat)
    requires Committing(v0, h, xs, n, best)
    ensures LeaderFits(v0, h, ApplyCommitted(n.(commitIndex := best)))
  {
    var n1 := n.(commitIndex := best);
    ApplyCommittedFrame(n1);
    ApplyCommittedApplies(n1);
    ApplySeats(v0, n1);
    LeaderVotes(n1);
    FewerChanges(n.log, n.commitIndex, best, LastIndex(h.reigns.leaders[n.term].log));
  }

  /** The commits noted when the commit index of `n` moves to `best`. */
  function Noted(xs: seq<Commit>, n: NodeState, best: nat): seq<Commit> {
    if best > n.commitIndex then xs + [Commit(n.term, best, n.commitIndex)] else xs
  }

  lemma AdvanceFits(v0: set<NodeID>, h: History, xs: seq<Commit>, n: NodeState)
    requires NodeFits(v0, h, xs, n) && LeaderFits(v0, h, n) && n.role == Leader && MatchBacked(h, n)
    requires LogMatching.HistoryOK(h.reigns) && LogMatching.NodeOK(n, h.reigns)
    ensures var n' := MaybeAdvanceCommitIndex(n);
      var xs' := Noted(xs, n, n'.commitIndex);
      && NodeFits(v0, h, xs', n') && LeaderFits(v0, h, n') && n'.id == n.id && KeepsCommitted(n, n')
      && (|xs'| > |xs| ==> RecordOK(v0, h, xs', |xs|))
  {
    var best := BestCommit(n, LastIndex(n.log));
    if best > n.commitIndex {
      NewRecord(v0, h, xs, n, best);
      CommittedFits(v0, h, xs, n, best);
      CommittedLeads(v0, h, xs, n, best);
      ApplyCommittedFrame(n.(commitIndex := best));
    }
  }

  lemma MatchedFits(v0: set<NodeID>, h: History, xs: seq<Commit>, n: NodeState, from: Addr, end: nat)
    requires NodeFits(v0, h, xs, n) && LeaderFits(v0, h, n)
    ensures NodeFits(v0, h, xs, Matched(n, from, end)) && LeaderFits(v0, h, Matched(n, from, end))
  {
    CalmFits(v0, h, h, xs, xs, n, Matched(n, from, end));
  }

  /** A success reply in its reign. */
  ghost predicate InTime(c: State, s: Step) {
    && Enabled(c, s) && s.RecvAppendReply? && s.appendReply.resp.success && c.nodes[s.a].role == Leader
    && s.appendReply.resp.term <= c.nodes[s.a].term == s.appendReply.req.term
  }

  lemma SuccessNoted(g: Chronicle, c: State, s: Step)
    requires InTime(c, s)
    ensures var n' := MaybeAdvanceCommitIndex(Matched(c.nodes[s.a], s.appendReply.from, s.appendReply.req.End()));
      && Apply(c, s) == Put(c, n', s.a)
      && Note(g, c, s) == g.(commits := Noted(g.commits, c.nodes[s.a], n'.commitIndex))
  {
    SuccessAdvances(c.nodes[s.a], s.appendReply.from, s.appendReply.req, s.appendReply.resp);
  }

  lemma SuccessFits(v0: set<NodeID>, c: State, g: Chronicle, s: Step)
    requires NodesInv(v0, c, g) && AckInv(c) && InTime(c, s) && MatchBacked(c.hist, c.nodes[s.a])
    ensures var n', g' := Apply(c, s).nodes[s.a], Note(g, c, s);
      && NodeFits(v0, c.hist, g'.commits, n') && LeaderFits(v0, c.hist, n') && n'.id == s.a
      && KeepsCommitted(c.nodes[s.a], n') && g.commits <= g'.commits && |g'.commits| <= |g.commits| + 1
      && (|g'.commits| > |g.commits| ==> RecordOK(v0, c.hist, g'.commits, |g.commits|))
  {
    var n, reply := c.nodes[s.a], s.appendReply;
    assert n.id == s.a && NodeFits(v0, c.hist, g.commits, n) && LeaderFits(v0, c.hist, n);
    assert LogMatching.NodeOK(n, c.hist.reigns);
    MatchedBacked(c, s.a, reply);
    MatchedFits(v0, c.hist, g.commits, n, reply.from, reply.req.End());
    AdvanceFits(v0, c.hist, g.commits, Matched(n, reply.from, reply.req.End()));
    SuccessNoted(g, c, s);
  }

  /** The new commit is beyond what the leader committed before in its term. */
  lemma NotedUpwards(xs: seq<Commit>, n: NodeState, n': NodeState)
    requires Reached(xs, n) && n.role == Leader && n'.commitIndex >= n.commitIndex && n'.term == n.term
    ensures Reached(Noted(xs, n, n'.commitIndex), n')
    ensures var xs' := Noted(xs, n, n'.commitIndex);
      forall i, j {:trigger Upwards(xs', i, j)} :: 0 <= i < j && |xs| <= j < |xs'| ==> Upwards(xs', i, j)
  {
  }

  lemma SuccessOrder(c: State, g: Chronicle, s: Step)
    requires InTime(c, s) && Reached(g.commits, c.nodes[s.a]) && KeepsCommitted(c.nodes[s.a], Apply(c, s).nodes[s.a])
    ensures var g' := Note(g, c, s);
      && Reached(g'.commits, Apply(c, s).nodes[s.a]) && OwnCommits(c, g, g', s.a) && g'.stands == g.stands
      && forall i, j {:trigger Upwards(g'.commits, i, j)} ::
           0 <= i < j && |g.commits| <= j < |g'.commits| ==> Upwards(g'.commits, i, j)
  {
    SuccessNoted(g, c, s);
    SuccessRole(c, s);
    NotedUpwards(g.commits, c.nodes[s.a], Apply(c, s).nodes[s.a]);
  }

  lemma SuccessRole(c: State, s: Step)
    requires InTime(c, s)
    ensures Apply(c, s).nodes[s.a].role != Candidate && Apply(c, s).nodes[s.a].term == c.nodes[s.a].term
  {
    var n1 := Matched(c.nodes[s.a], s.appendReply.from, s.appendReply.req.End());
    SuccessAdvances(c.nodes[s.a], s.appendReply.from, s.appendReply.req, s.appendReply.resp);
    ApplyCommittedFrame(n1.(commitIndex := BestCommit(n1, LastIndex(n1.log))));
  }

  lemma SuccessAdvance(v0: set<NodeID>, c: State, g: Chronicle, s: Step)
    requires NodesInv(v0, c, g) && AckInv(c) && InTime(c, s) && MatchBacked(c.hist, c.nodes[s.a])
    requires Onward(c, Apply(c, s), s.a)
    ensures Advance(c, g, Apply(c, s), Note(g, c, s), s.a) && Note(g, c, s).stands == g.stands
    ensures KeepsCommitted(c.nodes[s.a], Apply(c, s).nodes[s.a])
  {
    SuccessFits(v0, c, g, s);
    assert Reached(g.commits, c.nodes[s.a]);
    SuccessOrder(c, g, s);
  }

  lemma SuccessNodes(v0: set<NodeID>, c: State, g: Chronicle, s: Step)
    requires NodesInv(v0, c, g) && AckInv(c) && InTime(c, s) && MatchBacked(c.hist, c.nodes[s.a])
    requires Advance(c, g, Apply(c, s), Note(g, c, s), s.a)
    ensures NodesInv(v0, Apply(c, s), Note(g, c, s))
  {
    SuccessFits(v0, c, g, s);
    assert Reached(g.commits, c.nodes[s.a]);
    SuccessOrder(c, g, s);
    assert Apply(c, s).hist == c.hist;
    NodesLater(v0, c, g, Apply(c, s), Note(g, c, s), s.a);
  }

  lemma SuccessRecorded(v0: set<NodeID>, c: State, g: Chronicle, s: Step)
    requires NodesInv(v0, c, g) && Recorded(v0, c.hist, g) && AckInv(c) && InTime(c, s)
    requires MatchBacked(c.hist, c.nodes[s.a]) && Advance(c, g, Apply(c, s), Note(g, c, s), s.a)
    ensures Recorded(v0, Apply(c, s).hist, Note(g, c, s))
  {
    SuccessFits(v0, c, g, s);
    assert Reached(g.commits, c.nodes[s.a]);
    SuccessOrder(c, g, s);
    assert Apply(c, s).hist == c.hist;
    RecordedLater(v0, c, g, Apply(c, s), Note(g, c, s), s.a);
  }

  // ----- calm steps -----

  predicate Accepted(c: State, s: Step)
    requires s.a in c.nodes
  {
    s.RecvAppend? && s.appendReq.term >= c.nodes[s.a].term && PrevMatches(c.nodes[s.a].log, s.appendReq)
  }

  /** Steps that change neither log, commit index nor voters. */
  ghost predicate CalmStep(c: State, s: Step) {
    Enabled(c, s) && !s.TakeLead? && !s.Propose? && !Accepted(c, s) && !InTime(c, s)
  }

  lemma RefusedCalm(n: NodeState, req: AppendRequest, pick: NodeID)
    requires ByAddress(n.members) && req.leaderID == req.leaderAddr && !(req.term >= n.term && PrevMatches(n.log, req))
    ensures CalmNode(n, HandleAppendEntries(n, req, pick).0)
  {
    NoRename(n, req, pick);
  }

  lemma JoinCalm(n: NodeState, id: NodeID)
    requires ByAddress(n.members)
    ensures CalmNode(n, AdmitObserver(n, id, id))
  {
    Membership.AddObserverKeepsVoters(n.members, id, id);
  }

  lemma NodeIsCalm(v0: set<NodeID>, c: State, g: Chronicle, s: Step)
    requires Guarded(v0, 1, c, s) && CalmStep(c, s) && ByAddress(c.nodes[s.a].members)
    requires s.RecvAppend? ==> s.appendReq.leaderID == s.appendReq.leaderAddr
    ensures s.a in Apply(c, s).nodes && CalmNode(c.nodes[s.a], Apply(c, s).nodes[s.a])
  {
    if s.RecvAppend? {
      RefusedCalm(c.nodes[s.a], s.appendReq, s.pick);
    } else if s.Join? {
      JoinCalm(c.nodes[s.a], s.newID);
    } else if Small(s) {
      SmallStepFrame(c, s);
    }
  }

  lemma CalmNote(v0: set<NodeID>, c: State, g: Chronicle, s: Step)
    requires Guarded(v0, 1, c, s) && CalmStep(c, s) && !s.StartCampaign?
    ensures Note(g, c, s) == g
  {
  }

  /** Only starting a campaign, counting a vote and taking the lead change what is being counted. */
  predicate Uncounted(s: Step) { !s.StartCampaign? && !s.CountVote? && !s.TakeLead? }

  lemma UncountedSame(c: State, s: Step)
    requires LogMatching.Inv(c) && InReign(c, s) && Uncounted(s)
    ensures var c' := Apply(c, s);
      && SameCampaigns(c, c', s.a) && c'.hist.reigns.leaders == c.hist.reigns.leaders && c'.hist.wins == c.hist.wins
      && (c'.campaigns == c.campaigns || c'.campaigns == c.campaigns - {s.a})
  {
    if s.SendVote? || s.RecvVote? {
      SmallStepFrame(c, s);
    } else {
      AsideCampaigns(c, s);
    }
  }

  /** A campaign that goes on belongs to a node that keeps its log and voters, or it will not be won. */
  lemma UncountedInv(v0: set<NodeID>, c: State, g: Chronicle, s: Step, g': Chronicle)
    requires CampaignsInv(v0, c, g) && LogMatching.Inv(c) && InReign(c, s) && Uncounted(s)
    requires Advance(c, g, Apply(c, s), g', s.a) && g'.stands == g.stands
    requires var n' := Apply(c, s).nodes[s.a];
      CalmNode(c.nodes[s.a], n') || (n'.role != Candidate && n'.term in c.hist.reigns.leaders)
    ensures CampaignsInv(v0, Apply(c, s), g')
  {
    var a, c' := s.a, Apply(c, s);
    UncountedSame(c, s);
    if a in c'.campaigns {
      assert CampaignFits(v0, c, g, a);
      CampaignLater(v0, c, g, c', g', a, a);
    }
    CampaignsLater(v0, c, g, c', g', a);
  }

  lemma PlainMessages(v0: set<NodeID>, c: State, g: Chronicle, s: Step, g': Chronicle)
    requires MessagesInv(c, g) && LogMatching.Inv(c) && Enabled(c, s) && !s.SendAppend? && !s.StartBeat?
    requires Advance(c, g, Apply(c, s), g', s.a) && KeepsCommitted(c.nodes[s.a], Apply(c, s).nodes[s.a])
    ensures MessagesInv(Apply(c, s), g')
  {
    if Small(s) {
      SmallStepFrame(c, s);
    }
    SameBeats(c, s);
    MessagesLater(c, g, Apply(c, s), g', s.a);
  }

  lemma SameBeats(c: State, s: Step)
    requires Enabled(c, s) && !s.StartBeat?
    ensures Apply(c, s).beats == c.beats
  {
    match s
    case StartCampaign(a) =>
    case RecvVote(a, req) =>
    case Join(a, _, _) =>
    case _ =>
  }

  lemma StartBeatMessages(v0: set<NodeID>, c: State, g: Chronicle, a: Addr)
    requires MessagesInv(c, g) && LogMatching.Inv(c) && Enabled(c, StartBeat(a)) && Onward(c, Apply(c, StartBeat(a)), a)
    requires NodeFits(v0, c.hist, g.commits, c.nodes[a])
    ensures MessagesInv(Apply(c, StartBeat(a)), g)
  {
    NodeCovers(c.hist, g.commits, c.nodes[a]);
    MessagesLater(c, g, Apply(c, StartBeat(a)), g, a);
  }

  // ----- each kind of step -----

  lemma TakeLeadSeat(conf: Config, v0: set<NodeID>, c: State, g: Chronicle, a: Addr)
    requires DynamicInv(conf, v0, c, g) && Guarded(v0, 1, c, TakeLead(a)) && c.nodes[a].term !in c.hist.reigns.leaders
    ensures Elects(v0, c.hist, g, a, c.nodes[a].term, c.campaigns[a].granted + {a})
    ensures g.stands[(a, c.nodes[a].term)].log == c.nodes[a].log
    ensures LeaderFits(v0, DoTakeLead(c, a).hist, BecomeLeader(c.nodes[a]))
    ensures Reached(g.commits, BecomeLeader(c.nodes[a]))
  {
    Elected(conf, v0, c, g, a);
    assert CampaignFits(v0, c, g, a) && Campaigning(c, a, c.nodes[a].term);
    assert c.nodes[a].id == a && NodeFits(v0, c.hist, g.commits, c.nodes[a]);
    NewLeaderFits(v0, c, g, a);
    NothingReached(v0, c.hist, g, BecomeLeader(c.nodes[a]));
  }

  lemma TakeLeadMessages(v0: set<NodeID>, c: State, g: Chronicle, a: Addr)
    requires MessagesInv(c, g) && NodesInv(v0, c, g) && LogMatching.Inv(c) && Enabled(c, TakeLead(a))
    requires Onward(c, DoTakeLead(c, a), a)
    ensures MessagesInv(DoTakeLead(c, a), g)
  {
    assert NodeFits(v0, c.hist, g.commits, c.nodes[a]);
    MessagesLater(c, g, DoTakeLead(c, a), g, a);
  }

  lemma TakeLeadRest(conf: Config, v0: set<NodeID>, c: State, g: Chronicle, a: Addr)
    requires DynamicInv(conf, v0, c, g) && Guarded(v0, 1, c, TakeLead(a)) && c.nodes[a].term !in c.hist.reigns.leaders
    requires Onward(c, DoTakeLead(c, a), a) && BallotsInv(DoTakeLead(c, a).hist)
    ensures Rest(v0, DoTakeLead(c, a), g)
  {
    TakeLeadSeat(conf, v0, c, g, a);
    TakeLeadNodes(v0, c, g, a);
    TakeLeadRecorded(v0, c, g, a);
    TakeLeadInv(v0, c, g, a);
    TakeLeadMessages(v0, c, g, a);
  }

  lemma ProposeMessages(v0: set<NodeID>, c: State, g: Chronicle, a: Addr, command: Command)
    requires MessagesInv(c, g) && NodesInv(v0, c, g) && LogMatching.Inv(c) && Enabled(c, Propose(a, command))
    requires Onward(c, DoPropose(c, a, command), a)
    ensures MessagesInv(DoPropose(c, a, command), g)
  {
    var n := c.nodes[a];
    assert AppliedOK(n) by { assert NodeFits(v0, c.hist, g.commits, n); }
    LongerVoters(v0, n.log, LogEntry(|n.log|, n.term, command), n.commitIndex);
    MessagesLater(c, g, DoPropose(c, a, command), g, a);
  }

  lemma ProposeRest(v0: set<NodeID>, c: State, g: Chronicle, a: Addr, command: Command)
    requires Rest(v0, c, g) && LogMatching.Inv(c) && Guarded(v0, 1, c, Propose(a, command))
    requires InReign(c, Propose(a, command))
    requires Onward(c, DoPropose(c, a, command), a) && BallotsInv(DoPropose(c, a, command).hist)
    ensures Rest(v0, DoPropose(c, a, command), g)
  {
    var c' := DoPropose(c, a, command);
    assert LogMatching.NodeOK(c.nodes[a], c.hist.reigns);
    ProposeNodes(v0, c, g, a, command);
    RecordedLater(v0, c, g, c', g, a);
    ProposeMessages(v0, c, g, a, command);
    UncountedInv(v0, c, g, Propose(a, command), g);
  }

  lemma AcceptRest(v0: set<NodeID>, c: State, g: Chronicle, a: Addr, req: AppendRequest, pick: NodeID)
    requires Rest(v0, c, g) && AckInv(c) && InReign(c, RecvAppend(a, req, pick))
    requires Accepted(c, RecvAppend(a, req, pick))
    requires Onward(c, DoRecvAppend(c, a, req, pick), a) && BallotsInv(DoRecvAppend(c, a, req, pick).hist)
    ensures Rest(v0, DoRecvAppend(c, a, req, pick), g)
  {
    var s, c' := RecvAppend(a, req, pick), DoRecvAppend(c, a, req, pick);
    assert c.nodes[a].id == a && NodeFits(v0, c.hist, g.commits, c.nodes[a]);
    assert RequestFits(c.hist.reigns, g.commits, req) && LogMatching.RequestOK(req, c.hist.reigns);
    LogMatching.HandleAppendEntriesFrame(c.nodes[a], req, pick);
    AcceptFits(v0, c, g, a, req, pick);
    RecvAppendNodes(v0, c, g, a, req, pick);
    RecordedLater(v0, c, g, c', g, a);
    PlainMessages(v0, c, g, s, g);
    UncountedInv(v0, c, g, s, g);
  }

  lemma SuccessRest(v0: set<NodeID>, c: State, g: Chronicle, s: Step)
    requires Rest(v0, c, g) && AckInv(c) && InReign(c, s) && InTime(c, s) && MatchBacked(c.hist, c.nodes[s.a])
    requires Onward(c, Apply(c, s), s.a)
    ensures Rest(v0, Apply(c, s), Note(g, c, s))
  {
    assert LogMatching.NodeOK(c.nodes[s.a], c.hist.reigns);
    SuccessRole(c, s);
    SuccessAdvance(v0, c, g, s);
    SuccessNodes(v0, c, g, s);
    SuccessRecorded(v0, c, g, s);
    PlainMessages(v0, c, g, s, Note(g, c, s));
    UncountedInv(v0, c, g, s, Note(g, c, s));
  }

  lemma SendAppendMessages(v0: set<NodeID>, c: State, g: Chronicle, a: Addr, to: Addr, beat: Beat)
    requires Rest(v0, c, g) && LogMatching.Inv(c) && Guarded(v0, 1, c, SendAppend(a, to, beat))
    requires Onward(c, DoSendAppend(c, a, to, beat), a)
    ensures MessagesInv(DoSendAppend(c, a, to, beat), g)
  {
    assert c.nodes[a].id == a && NodeFits(v0, c.hist, g.commits, c.nodes[a]);
    assert BeatFits(c, g.commits, a, beat);
    SentFits(v0, c, g, a, to, beat);
    MessagesLater(c, g, DoSendAppend(c, a, to, beat), g, a);
  }

  lemma CalmCampaigns(conf: Config, v0: set<NodeID>, c: State, g: Chronicle, s: Step)
    requires DynamicInv(conf, v0, c, g) && Guarded(v0, 1, c, s) && InReign(c, s) && CalmStep(c, s)
    requires Advance(c, g, Apply(c, s), Note(g, c, s), s.a) && CalmNode(c.nodes[s.a], Apply(c, s).nodes[s.a])
    ensures CampaignsInv(v0, Apply(c, s), Note(g, c, s))
  {
    if s.StartCampaign? {
      StartCampaignInv(conf, v0, c, g, s.a);
    } else {
      CalmNote(v0, c, g, s);
      if s.CountVote? {
        assert c.nodes[s.a].id == s.a && Election.ReplyOK(c.hist, s.voteReply);
        CountVoteInv(v0, c, g, s);
      } else {
        UncountedInv(v0, c, g, s, g);
      }
    }
  }

  lemma CalmAdvances(v0: set<NodeID>, c: State, g: Chronicle, s: Step)
    requires CampaignsInv(v0, c, g) && Guarded(v0, 1, c, s) && CalmStep(c, s) && Onward(c, Apply(c, s), s.a)
    ensures Advance(c, g, Apply(c, s), Note(g, c, s), s.a) && Note(g, c, s).commits == g.commits
    ensures Apply(c, s).hist.reigns == c.hist.reigns
  {
    if s.StartCampaign? {
      StartCampaignAdvances(v0, c, g, s.a);
    } else {
      CalmNote(v0, c, g, s);
    }
    if Small(s) {
      SmallStepFrame(c, s);
    }
  }

  lemma CalmMessages(v0: set<NodeID>, c: State, g: Chronicle, s: Step)
    requires Rest(v0, c, g) && LogMatching.Inv(c) && Guarded(v0, 1, c, s) && CalmStep(c, s)
    requires Advance(c, g, Apply(c, s), Note(g, c, s), s.a) && CalmNode(c.nodes[s.a], Apply(c, s).nodes[s.a])
    ensures MessagesInv(Apply(c, s), Note(g, c, s))
  {
    assert AppliedOK(c.nodes[s.a]) by { assert NodeFits(v0, c.hist, g.commits, c.nodes[s.a]); }
    if s.SendAppend? {
      SendAppendMessages(v0, c, g, s.a, s.to, s.beat);
    } else if s.StartBeat? {
      assert NodeFits(v0, c.hist, g.commits, c.nodes[s.a]);
      StartBeatMessages(v0, c, g, s.a);
    } else {
      PlainMessages(v0, c, g, s, Note(g, c, s));
    }
  }

  lemma CalmRest(conf: Config, v0: set<NodeID>, c: State, g: Chronicle, s: Step)
    requires DynamicInv(conf, v0, c, g) && Guarded(v0, 1, c, s) && InReign(c, s) && CalmStep(c, s)
    requires Onward(c, Apply(c, s), s.a) && BallotsInv(Apply(c, s).hist)
    ensures Rest(v0, Apply(c, s), Note(g, c, s))
  {
    assert NodeFits(v0, c.hist, g.commits, c.nodes[s.a]);
    assert s.RecvAppend? ==> RequestFits(c.hist.reigns, g.commits, s.appendReq);
    NodeIsCalm(v0, c, g, s);
    CalmAdvances(v0, c, g, s);
    CalmNodes(v0, c, g, Apply(c, s), Note(g, c, s), s.a);
    RecordedLater(v0, c, g, Apply(c, s), Note(g, c, s), s.a);
    CalmMessages(v0, c, g, s);
    CalmCampaigns(conf, v0, c, g, s);
  }

  // ----- all steps -----

  lemma StepRest(conf: Config, v0: set<NodeID>, c: State, g: Chronicle, s: Step)
    requires DynamicInv(conf, v0, c, g) && Guarded(v0, 1, c, s) && InReign(c, s)
    requires Onward(c, Apply(c, s), s.a) && BallotsInv(Apply(c, s).hist)
    ensures Rest(v0, Apply(c, s), Note(g, c, s))
  {
    if s.TakeLead? {
      TakeLeadRest(conf, v0, c, g, s.a);
    } else if s.Propose? {
      ProposeRest(v0, c, g, s.a, s.command);
    } else if Accepted(c, s) {
      AcceptRest(v0, c, g, s.a, s.appendReq, s.pick);
    } else if InTime(c, s) {
      assert MatchBacked(c.hist, c.nodes[s.a]);
      SuccessRest(v0, c, g, s);
    } else {
      CalmRest(conf, v0, c, g, s);
    }
  }

  lemma StepShared(conf: Config, c: State, s: Step)
    requires Shared(conf, c) && Honest(conf, c, s) && FreshReign(c, s)
    ensures Shared(conf, Apply(c, s)) && Onward(c, Apply(c, s), s.a)
  {
    StepKeeping(conf, c, s);
    StepBackedIff(c, s);
    StepTouchesOne(c, s);
  }

  lemma StepInv(conf: Config, v0: set<NodeID>, c: State, g: Chronicle, s: Step)
    requires DynamicInv(conf, v0, c, g) && Guarded(v0, 1, c, s)
    ensures DynamicInv(conf, v0, Apply(c, s), Note(g, c, s))
  {
    GuardedIsHonest(conf, v0, c, g, s);
    StepShared(conf, c, s);
    StepRest(conf, v0, c, g, s);
  }
}
