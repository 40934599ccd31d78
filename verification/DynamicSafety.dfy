/** Leader Completeness, Election Safety and State Machine Safety for clusters whose voter set changes, under guards
    that a node can test itself: what a run keeps, and what follows from it. */
module DynamicSafety {
  import opened RaftTypes
  import opened RaftNode
  import opened Cluster
  import opened Safety
  import opened Configs
  import Replication
  import Keeping
  import Membership
  import LogMatching
  import Election

  // ----- the rule -----

  /** An initial voter, or a node that has applied an entry naming it: before that a joining node counts itself as a
      voter when nobody else does. */
  predicate Settled(v0: set<NodeID>, n: NodeState) {
    n.id in v0 || exists i :: 0 < i <= n.lastApplied && i < |n.log| && Names(n.log[i], n.id)
  }

  /** A node may campaign if it is a voter in its own view, has learnt of its own admission, and has at most `limit`
      membership entries in its log that it has not committed. */
  predicate MayCampaign(v0: set<NodeID>, limit: nat, n: NodeState) {
    && n.id in Membership.VoterIDs(n.members) && Settled(v0, n)
    && Changes(n.log, n.commitIndex, LastIndex(n.log)) <= limit
  }

  /** The rule for a cluster that starts with the voters `v0`:
      - a node campaigns only if it may, and takes the lead only as a candidate in the term it campaigned for, with
        no matchIndex left over;
      - it appends and sends only while it leads, and sends in its current term; voters are added under their
        addresses, as observers are admitted; how many changes are under way does not matter;
      - requests with entries are accepted in order, and success replies handled in their reign. */
  ghost predicate Guarded(v0: set<NodeID>, limit: nat, c: State, s: Step) {
    Enabled(c, s) &&
    var n := c.nodes[s.a];
    match s
    case StartCampaign(_) => MayCampaign(v0, limit, n)
    case TakeLead(a) => n.term == c.campaigns[a].term && n.role == Candidate && Replication.NoStaleMatch(n)
    case SendAppend(_, _, beat) => n.role == Leader && beat.term == n.term
    case Propose(_, command) => n.role == Leader && PlainEntry(LogEntry(|n.log|, n.term, command))
    case Join(_, newID, newAddr) => newID == newAddr
    case RecvAppend(a, req, _) => InTurn(c, a, req)
    case RecvAppendReply(_, reply) =>
      reply.resp.success && reply.resp.term <= n.term ==> n.role == Leader && n.term == reply.req.term
    case _ => true
  }

  ghost function GuardedRule(v0: set<NodeID>, limit: nat): (State, Step) -> bool { (c, s) => Guarded(v0, limit, c, s) }

  /** A dynamic cluster of fresh nodes, all of which list the initial voters `v0` as peers. */
  function Begin(conf: Config, v0: set<NodeID>): State { InitWith(conf, Dynamic, map a | a in conf :: v0 - {a}) }

  // ----- what is noted along a run -----

  /** The leader of `term` moved its commit index from `prev` to `index`. */
  datatype Commit = Commit(term: nat, index: nat, prev: nat)

  /** The log and the commit index with which a node started a campaign. */
  datatype Stand = Stand(log: Entries, commit: nat)

  datatype Chronicle = Chronicle(commits: seq<Commit>, stands: map<(Addr, nat), Stand>)

  /** The chronicle after step `s` of `c`. */
  ghost function Note(g: Chronicle, c: State, s: Step): Chronicle
    requires Enabled(c, s)
  {
    var n := c.nodes[s.a];
    match s
    case StartCampaign(a) => g.(stands := g.stands[(a, n.term + 1) := Stand(n.log, n.commitIndex)])
    case RecvAppendReply(_, reply) =>
      var n' := HandleAppendReply(n, reply.from, reply.req, reply.resp);
      if n'.commitIndex > n.commitIndex
      then g.(commits := g.commits + [Commit(n.term, n'.commitIndex, n.commitIndex)])
      else g
    case _ => g
  }

  // ----- commits -----

  /** `log` through `k` is what commit `x` committed, in a term no later than `last`. */
  predicate Covers(r: Reigns, x: Commit, log: Log, k: nat, last: nat) {
    x.term <= last && k == x.index && x.term in r.termLog && LogMatching.Agree(log, r.termLog[x.term], k)
  }

  /** Nothing is committed, or one of the first `m` commits covers it. */
  ghost predicate Covered(r: Reigns, xs: seq<Commit>, m: nat, log: Log, k: nat, last: nat) {
    k == 0 || exists j :: 0 <= j < m && j < |xs| && Covers(r, xs[j], log, k, last)
  }

  ghost predicate HeldBy(h: History, voters: set<NodeID>, t: nat, i: nat) {
    exists q :: MajorityOf(q, voters) && AllAcked(h, q, t, i)
  }

  /** How many changes of earlier terms the leader of `t` still has to commit after `k`. */
  function Inherited(r: Reigns, t: nat, log: Log, k: nat): nat
    requires t in r.leaders && LastIndex(r.leaders[t].log) < |log|
  {
    Changes(log, k, LastIndex(r.leaders[t].log))
  }

  /** Commit `m`: an entry of its leader's own term, acknowledged by a majority of the voters as of what had been
      committed before; at most one change of an earlier term lay between. */
  ghost predicate RecordOK(v0: set<NodeID>, h: History, xs: seq<Commit>, m: nat)
    requires m < |xs|
  {
    var x := xs[m];
    && OwnEntry(h.reigns, x.term, x.index) && x.prev < x.index
    && |h.reigns.leaders[x.term].log| <= |h.reigns.termLog[x.term]|
    && Inherited(h.reigns, x.term, h.reigns.termLog[x.term], x.prev) <= 1
    && HeldBy(h, VotersAt(v0, h.reigns.termLog[x.term], x.prev), x.term, x.index)
    && Covered(h.reigns, xs, m, h.reigns.termLog[x.term], x.prev, x.term)
  }

  /** A leader commits upwards. */
  predicate Upwards(xs: seq<Commit>, i: nat, j: nat)
    requires i < |xs| && j < |xs|
  {
    i < j && xs[i].term == xs[j].term ==> xs[i].index <= xs[j].prev
  }

  // ----- campaigns and wins -----

  /** The voters whose votes `s` needs. */
  function Electors(v0: set<NodeID>, s: Stand): set<NodeID>
    requires s.commit < |s.log|
  {
    VotersAt(v0, s.log, s.commit)
  }

  ghost predicate StandOK(v0: set<NodeID>, r: Reigns, xs: seq<Commit>, s: Stand, w: nat) {
    && s.commit < |s.log| && w > 0 && LastTerm(s.log) < w && LogMatching.Grounded(s.log, r.termLog)
    && Changes(s.log, s.commit, LastIndex(s.log)) <= 1
    && Covered(r, xs, |xs|, s.log, s.commit, w - 1)
  }

  /** `v` voted in `w` for `a`, which claimed the end of `log`. */
  predicate VotedOn(h: History, v: Addr, w: nat, a: NodeID, log: Entries) {
    && Election.VotedFor(h, v, w, a)
    && h.ballots[(v, w)].lastIndex == LastIndex(log) && h.ballots[(v, w)].lastTerm == LastTerm(log)
  }

  /** `voters` are enough to elect `a` in `w`. */
  ghost predicate Elects(v0: set<NodeID>, h: History, g: Chronicle, a: Addr, w: nat, voters: set<Addr>) {
    (a, w) in g.stands &&
    var s := g.stands[(a, w)];
    && StandOK(v0, h.reigns, g.commits, s, w) && MajorityOf(voters, Electors(v0, s))
    && forall v {:trigger VotedOn(h, v, w, a, s.log)} :: v in voters ==> VotedOn(h, v, w, a, s.log)
  }

  ghost predicate WinOK(v0: set<NodeID>, h: History, g: Chronicle, w: nat)
    requires w in h.reigns.leaders
  {
    var win := h.reigns.leaders[w];
    Elects(v0, h, g, win.addr, w, win.voters) && g.stands[(win.addr, w)].log == win.log
  }

  /** What the history and the chronicle keep. */
  ghost predicate Recorded(v0: set<NodeID>, h: History, g: Chronicle) {
    && LogMatching.HistoryOK(h.reigns) && BallotsInv(h)
    && (forall m {:trigger RecordOK(v0, h, g.commits, m)} :: 0 <= m < |g.commits| ==> RecordOK(v0, h, g.commits, m))
    && (forall i, j {:trigger Upwards(g.commits, i, j)} ::
          0 <= i < |g.commits| && 0 <= j < |g.commits| ==> Upwards(g.commits, i, j))
    && (forall w {:trigger WinOK(v0, h, g, w)} :: w in h.reigns.leaders ==> WinOK(v0, h, g, w))
  }

  // ----- Leader Completeness -----

  /** What the leader of `u` was elected with agrees with what was committed before. */
  lemma KeptInTermLog(r: Reigns, u: nat, t: nat, i: nat)
    requires LogMatching.HistoryOK(r) && u in r.leaders && Kept(r.leaders[u].log, t, i)
    ensures t in r.termLog && u in r.termLog && LogMatching.Agree(r.termLog[u], r.termLog[t], i)
  {
    assert LogMatching.TermLogOK(u, r.termLog, r.leaders);
    var log, tl := r.leaders[u].log, r.termLog[u];
    assert tl[i] == log[i];
    assert LogMatching.Agree(tl, r.termLog[tl[i].term], i);
  }

  lemma AgreeVia(x: Log, y: Log, z: Log, j: nat, k: nat, i: nat)
    requires LogMatching.Agree(x, y, j) && LogMatching.Agree(y, z, k) && i <= j && i <= k
    ensures LogMatching.Agree(x, z, i) && LogMatching.Agree(z, x, i)
  {
    Replication.ShorterAgree(x, y, j, i);
    Replication.ShorterAgree(y, z, k, i);
  }

  /** The logs in which two commits happened agree as far as both go. */
  lemma {:induction false} CommitsAgree(v0: set<NodeID>, h: History, g: Chronicle, m: nat, j: nat, w: nat)
    requires Recorded(v0, h, g) && m < |g.commits| && j < |g.commits|
    requires g.commits[m].term < w && g.commits[j].term < w
    ensures var x, y, tl := g.commits[m], g.commits[j], h.reigns.termLog;
      && x.term in tl && y.term in tl
      && LogMatching.Agree(tl[x.term], tl[y.term], if x.index <= y.index then x.index else y.index)
    decreases w, 0, m
  {
    var x, y, r := g.commits[m], g.commits[j], h.reigns;
    assert RecordOK(v0, h, g.commits, m) && RecordOK(v0, h, g.commits, j);
    var i := if x.index <= y.index then x.index else y.index;
    if x.term < y.term {
      LeaderKeeps(v0, h, g, m, y.term);
      KeptInTermLog(r, y.term, x.term, x.index);
      AgreeVia(r.termLog[y.term], r.termLog[x.term], r.termLog[x.term], x.index, x.index, i);
    } else if y.term < x.term {
      LeaderKeeps(v0, h, g, j, x.term);
      KeptInTermLog(r, x.term, y.term, y.index);
      AgreeVia(r.termLog[x.term], r.termLog[y.term], r.termLog[y.term], y.index, y.index, i);
    }
  }

  /** The log a candidate stands with agrees, as far as its commit index goes, with what was committed. */
  lemma {:induction false} CommittedPartAgrees(v0: set<NodeID>, h: History, g: Chronicle, m: nat, s: Stand, w: nat)
    requires Recorded(v0, h, g) && m < |g.commits| && g.commits[m].term < w && StandOK(v0, h.reigns, g.commits, s, w)
    ensures var x := g.commits[m];
      x.term in h.reigns.termLog
      && LogMatching.Agree(s.log, h.reigns.termLog[x.term], if x.index <= s.commit then x.index else s.commit)
    decreases w, 1, m
  {
    var x, tl := g.commits[m], h.reigns.termLog;
    var k := if x.index <= s.commit then x.index else s.commit;
    assert RecordOK(v0, h, g.commits, m);
    if s.commit == 0 {
      Sentinels(h.reigns, s.log, tl[x.term]);
    } else {
      var j :| 0 <= j < |g.commits| && Covers(h.reigns, g.commits[j], s.log, s.commit, w - 1);
      CommitsAgree(v0, h, g, j, m, w);
      var y := g.commits[j];
      AgreeVia(s.log, tl[y.term], tl[x.term], s.commit, if y.index <= x.index then y.index else x.index, k);
    }
  }

  lemma Sentinels(r: Reigns, x: Entries, y: Entries)
    requires LogMatching.HistoryOK(r) && LogMatching.Grounded(x, r.termLog)
    requires exists t :: t in r.termLog && r.termLog[t] == y
    ensures LogMatching.Agree(x, y, 0)
  {
    LogMatching.EntriesIndexed(x, r);
    var t :| t in r.termLog && r.termLog[t] == y;
    assert LogMatching.TermLogOK(t, r.termLog, r.leaders);
    assert x[..1] == [SENTINEL] == y[..1];
  }

  lemma {:induction false} LeaderKeeps(v0: set<NodeID>, h: History, g: Chronicle, m: nat, u: nat)
    requires Recorded(v0, h, g) && m < |g.commits| && g.commits[m].term < u && u in h.reigns.leaders
    ensures Kept(h.reigns.leaders[u].log, g.commits[m].term, g.commits[m].index)
    decreases u, 3, m
  {
    assert WinOK(v0, h, g, u);
    ElectedKeeps(v0, h, g, m, h.reigns.leaders[u].addr, u, h.reigns.leaders[u].voters, true);
  }

  /** Whoever is elected in `w`, or could be, has everything committed in earlier terms. */
  lemma {:induction false} ElectedKeeps(v0: set<NodeID>, h: History, g: Chronicle, m: nat, a: Addr, w: nat,
                                        voters: set<Addr>, leads: bool)
    requires Recorded(v0, h, g) && m < |g.commits| && g.commits[m].term < w && Elects(v0, h, g, a, w, voters)
    requires leads ==> w in h.reigns.leaders && voters == h.reigns.leaders[w].voters
    ensures Kept(g.stands[(a, w)].log, g.commits[m].term, g.commits[m].index)
    decreases w, if leads then 2 else 4, m
  {
    var s, x := g.stands[(a, w)], g.commits[m];
    assert RecordOK(v0, h, g.commits, m);
    CommittedPartAgrees(v0, h, g, m, s, w);
    if s.commit < x.index {
      if x.prev > 0 {
        var j :| 0 <= j < m && Covers(h.reigns, g.commits[j], h.reigns.termLog[x.term], x.prev, x.term);
        ElectedKeeps(v0, h, g, j, a, w, voters, leads);
        KeptCovered(h.reigns, g.commits[j], s.log, h.reigns.termLog[x.term], x.prev, x.term);
      } else {
        Sentinels(h.reigns, s.log, h.reigns.termLog[x.term]);
      }
      Near(v0, h, g, m, s, w);
      var v := CommonVoter(v0, h, g, m, s, w, voters);
      forall u | x.term < u < w && u in h.reigns.leaders ensures Kept(h.reigns.leaders[u].log, x.term, x.index) {
        LeaderKeeps(v0, h, g, m, u);
      }
      if w in h.reigns.leaders && !leads {
        LeaderKeeps(v0, h, g, m, w);
      }
      assert VotedOn(h, v, w, a, s.log);
      VoteKeeps(h, s.log, w, v, x.term, x.index);
    } else {
      AgreeAt(s.log, h.reigns.termLog[x.term], x.index);
    }
  }

  lemma AgreeAt(x: Log, y: Log, i: nat)
    requires LogMatching.Agree(x, y, i)
    ensures x[i] == y[i]
  {
    assert x[..i + 1][i] == y[..i + 1][i];
  }

  /** A log that has kept commit `y` has what `y` covers. */
  lemma KeptCovered(r: Reigns, y: Commit, log: Entries, tl: Log, k: nat, last: nat)
    requires LogMatching.Grounded(log, r.termLog) && Kept(log, y.term, y.index) && Covers(r, y, tl, k, last)
    ensures LogMatching.Agree(log, tl, k)
  {
    KeptAgrees(log, r, y.term, y.index);
    AgreeVia(tl, r.termLog[y.term], r.termLog[y.term], k, k, k);
    AgreeVia(log, r.termLog[y.term], tl, y.index, k, k);
  }

  /** At most one change lies between the voters who committed and the voters who elect. */
  lemma {:induction false} Near(v0: set<NodeID>, h: History, g: Chronicle, m: nat, s: Stand, w: nat)
    requires Recorded(v0, h, g) && m < |g.commits| && g.commits[m].term < w && StandOK(v0, h.reigns, g.commits, s, w)
    requires RecordOK(v0, h, g.commits, m) && s.commit < g.commits[m].index
    requires var x, tl := g.commits[m], h.reigns.termLog[g.commits[m].term];
      LogMatching.Agree(s.log, tl, x.prev) && LogMatching.Agree(s.log, tl, s.commit)
    ensures var x := g.commits[m];
      Neighbours(Electors(v0, s), VotersAt(v0, h.reigns.termLog[x.term], x.prev))
    decreases w, 1, m
  {
    var x, tl := g.commits[m], h.reigns.termLog[g.commits[m].term];
    if s.commit <= x.prev {
      ChangesSplit(s.log, s.commit, x.prev, LastIndex(s.log));
      OneChangeApart(v0, s.log, s.commit, x.prev);
      SameVoters(v0, s.log, tl, x.prev);
    } else {
      StandsWithin(v0, h, g, m, s, w);
      ChangesSplit(tl, x.prev, s.commit, LastIndex(h.reigns.leaders[x.term].log));
      OneChangeApart(v0, tl, x.prev, s.commit);
      SameVoters(v0, s.log, tl, s.commit);
      NeighboursBack(VotersAt(v0, tl, x.prev), VotersAt(v0, tl, s.commit));
    }
  }

  /** A commit index strictly between two of a leader's own was reached before that leader's election. */
  lemma {:induction false} StandsWithin(v0: set<NodeID>, h: History, g: Chronicle, m: nat, s: Stand, w: nat)
    requires Recorded(v0, h, g) && m < |g.commits| && g.commits[m].term < w && StandOK(v0, h.reigns, g.commits, s, w)
    requires RecordOK(v0, h, g.commits, m) && g.commits[m].prev < s.commit < g.commits[m].index
    ensures s.commit < |h.reigns.leaders[g.commits[m].term].log|
    decreases w, 0, m
  {
    var x, r := g.commits[m], h.reigns;
    var j :| 0 <= j < |g.commits| && Covers(r, g.commits[j], s.log, s.commit, w - 1);
    var y := g.commits[j];
    assert RecordOK(v0, h, g.commits, j) && Upwards(g.commits, j, m) && Upwards(g.commits, m, j);
    if y.term < x.term {
      LeaderKeeps(v0, h, g, j, x.term);
    } else if x.term < y.term {
      LeaderKeeps(v0, h, g, m, y.term);
      OwnBeyondKept(r, y.term, x.term, x.index, y.index);
    }
  }

  /** A leader's own entries come after those it was elected with. */
  lemma OwnBeyondKept(r: Reigns, u: nat, t: nat, i: nat, j: nat)
    requires LogMatching.HistoryOK(r) && u in r.leaders && Kept(r.leaders[u].log, t, i) && OwnEntry(r, u, j)
    ensures i < j
  {
    assert LogMatching.TermLogOK(u, r.termLog, r.leaders);
  }

  lemma CommonVoter(v0: set<NodeID>, h: History, g: Chronicle, m: nat, s: Stand, w: nat, voters: set<Addr>)
    returns (v: Addr)
    requires m < |g.commits| && RecordOK(v0, h, g.commits, m) && s.commit < |s.log|
    requires MajorityOf(voters, Electors(v0, s))
    requires var x := g.commits[m];
      Neighbours(Electors(v0, s), VotersAt(v0, h.reigns.termLog[x.term], x.prev))
    ensures v in voters && Acked(h, v, g.commits[m].term, g.commits[m].index)
  {
    var x, tl := g.commits[m], h.reigns.termLog[g.commits[m].term];
    var q :| MajorityOf(q, VotersAt(v0, tl, x.prev)) && AllAcked(h, q, x.term, x.index);
    NeighboursMeet(Electors(v0, s), VotersAt(v0, tl, x.prev), voters, q);
    v :| v in voters && v in q;
    assert Acked(h, v, x.term, x.index);
  }

  // ----- Election Safety -----

  /** Of two candidates that could both be elected in `w`, the one that has committed more has at most one change
      more. */
  lemma ElectorsMeet(v0: set<NodeID>, h: History, g: Chronicle, w: nat, a: Addr, q: set<Addr>, b: Addr, r: set<Addr>)
    requires Recorded(v0, h, g) && Elects(v0, h, g, a, w, q) && Elects(v0, h, g, b, w, r)
    requires g.stands[(a, w)].commit <= g.stands[(b, w)].commit
    ensures exists v :: v in q && v in r
  {
    var s, s' := g.stands[(a, w)], g.stands[(b, w)];
    if s'.commit > 0 {
      var j :| 0 <= j < |g.commits| && Covers(h.reigns, g.commits[j], s'.log, s'.commit, w - 1);
      ElectedKeeps(v0, h, g, j, a, w, q, false);
      KeptCovered(h.reigns, g.commits[j], s.log, s'.log, s'.commit, w - 1);
      ChangesSplit(s.log, s.commit, s'.commit, LastIndex(s.log));
      OneChangeApart(v0, s.log, s.commit, s'.commit);
      SameVoters(v0, s.log, s'.log, s'.commit);
    } else {
      OneChangeApart(v0, s.log, 0, 0);
    }
    NeighboursMeet(Electors(v0, s), Electors(v0, s'), q, r);
  }

  /** Only one candidate can be elected in a term. */
  lemma OneElected(v0: set<NodeID>, h: History, g: Chronicle, w: nat, a: Addr, q: set<Addr>, b: Addr, r: set<Addr>)
    requires Recorded(v0, h, g) && Elects(v0, h, g, a, w, q) && Elects(v0, h, g, b, w, r)
    ensures a == b
  {
    var s, s' := g.stands[(a, w)], g.stands[(b, w)];
    if s.commit <= s'.commit {
      ElectorsMeet(v0, h, g, w, a, q, b, r);
    } else {
      ElectorsMeet(v0, h, g, w, b, r, a, q);
    }
    var v :| v in q && v in r;
    assert VotedOn(h, v, w, a, s.log) && VotedOn(h, v, w, b, s'.log);
  }

  // ----- the invariant -----

  /** Every ID is its node's address. */
  predicate IDsAreAddresses(conf: Config) { forall a :: a in conf ==> a != "" && conf[a] == a }

  ghost predicate NodeCovered(h: History, xs: seq<Commit>, n: NodeState) {
    n.commitIndex == 0 || exists j ::
      && 0 <= j < |xs| && Covers(h.reigns, xs[j], n.log, n.commitIndex, n.term)
      && (xs[j].term < n.term || Acked(h, n.id, xs[j].term, n.commitIndex))
  }

  /** A node's voters follow its log, and what it has committed was committed by a leader. */
  ghost predicate NodeFits(v0: set<NodeID>, h: History, xs: seq<Commit>, n: NodeState) {
    && ByAddress(n.members) && PlainLog(n.log) && AppliedOK(n) && Seated(v0 + {n.id}, n)
    && NodeCovered(h, xs, n)
  }

  ghost predicate OwnAcked(h: History, n: NodeState) {
    forall i {:trigger n.log[i]} :: 0 <= i < |n.log| && n.log[i].term == n.term ==> Acked(h, n.id, n.term, i)
  }

  /** A leader is a voter, knows who the others are, and inherited at most one membership change that is still to be
      committed. */
  ghost predicate LeaderFits(v0: set<NodeID>, h: History, n: NodeState) {
    n.role == Leader ==>
      && Seated(v0, n) && n.id in Membership.VoterIDs(n.members) && OwnAcked(h, n)
      && n.term in h.reigns.leaders && |h.reigns.leaders[n.term].log| <= |n.log|
      && Inherited(h.reigns, n.term, n.log, n.commitIndex) <= 1
  }

  /** A leader's commit index is beyond all it has committed in its term. */
  predicate Reached(xs: seq<Commit>, n: NodeState) {
    n.role == Leader ==> forall j :: 0 <= j < |xs| && xs[j].term == n.term ==> xs[j].index <= n.commitIndex
  }

  ghost predicate RequestFits(r: Reigns, xs: seq<Commit>, m: AppendRequest) {
    && m.leaderID == m.leaderAddr && PlainLog(m.entries) && m.leaderCommit <= m.End() && m.term in r.termLog
    && Covered(r, xs, |xs|, r.termLog[m.term], m.leaderCommit, m.term)
  }

  /** A campaign counts the votes of those who are voters by what its node had committed when it started. */
  ghost predicate CampaignFits(v0: set<NodeID>, c: State, g: Chronicle, a: Addr)
    requires a in c.campaigns
  {
    var k := c.campaigns[a];
    a in c.nodes && 0 < k.term <= c.nodes[a].term && (a, k.term) in g.stands &&
    var s, n := g.stands[(a, k.term)], c.nodes[a];
    && s.commit < |s.log| && a in Electors(v0, s)
    && k.needed == |Electors(v0, s)| / 2 + 1 && k.peers == Electors(v0, s) - {a} && k.granted <= k.peers
    && (forall v :: v in k.granted + {a} ==> Election.VotedFor(c.hist, v, k.term, a))
    && (Campaigning(c, a, k.term) ==> n.log == s.log && n.commitIndex == s.commit && Seated(v0, n))
  }

  ghost predicate StandFits(v0: set<NodeID>, c: State, g: Chronicle, a: Addr, w: nat)
    requires (a, w) in g.stands
  {
    a in c.nodes && w <= c.nodes[a].term && StandOK(v0, c.hist.reigns, g.commits, g.stands[(a, w)], w)
  }

  ghost predicate WonBy(c: State, t: nat)
    requires t in c.hist.reigns.leaders
  {
    c.hist.reigns.leaders[t].addr in c.nodes && t <= c.nodes[c.hist.reigns.leaders[t].addr].term
  }

  ghost predicate NodesInv(v0: set<NodeID>, c: State, g: Chronicle) {
    && (forall a {:trigger c.nodes[a]} :: a in c.nodes ==> c.nodes[a].id == a)
    && (forall a {:trigger NodeFits(v0, c.hist, g.commits, c.nodes[a])} ::
          a in c.nodes ==> NodeFits(v0, c.hist, g.commits, c.nodes[a]))
    && (forall a {:trigger LeaderFits(v0, c.hist, c.nodes[a])} :: a in c.nodes ==> LeaderFits(v0, c.hist, c.nodes[a]))
    && (forall a {:trigger Reached(g.commits, c.nodes[a])} :: a in c.nodes ==> Reached(g.commits, c.nodes[a]))
  }

  /** What a broadcast captured in its node's current term was committed, and still is. */
  ghost predicate BeatFits(c: State, xs: seq<Commit>, a: Addr, b: Beat) {
    && BeatOK(c, a, b)
    && (b.term == c.nodes[a].term ==> Covered(c.hist.reigns, xs, |xs|, c.nodes[a].log, b.commit, b.term))
  }

  ghost predicate MessagesInv(c: State, g: Chronicle) {
    && (forall m {:trigger RequestFits(c.hist.reigns, g.commits, m)} ::
          m in c.appendReqs ==> RequestFits(c.hist.reigns, g.commits, m))
    && (forall a, b {:trigger BeatFits(c, g.commits, a, b)} :: (a, b) in c.beats ==> BeatFits(c, g.commits, a, b))
  }

  ghost predicate CampaignsInv(v0: set<NodeID>, c: State, g: Chronicle) {
    && (forall a {:trigger CampaignFits(v0, c, g, a)} :: a in c.campaigns ==> CampaignFits(v0, c, g, a))
    && (forall a {:trigger Election.NotYetWon(c, a)} :: a in c.campaigns ==> Election.NotYetWon(c, a))
    && (forall a, w {:trigger StandFits(v0, c, g, a, w)} :: (a, w) in g.stands ==> StandFits(v0, c, g, a, w))
    && (forall t {:trigger WonBy(c, t)} :: t in c.hist.reigns.leaders ==> WonBy(c, t))
    && (forall t, a :: (t, a) in c.hist.wins ==> t in c.hist.reigns.leaders && c.hist.reigns.leaders[t].addr == a)
  }

  /** What holds whatever the voter sets are. */
  ghost predicate Shared(conf: Config, c: State) {
    IDsAreAddresses(conf) && c.nodes.Keys == conf.Keys && Keeping.KeepingInv(conf, c) && Replication.AllBacked(c)
  }

  ghost predicate Rest(v0: set<NodeID>, c: State, g: Chronicle) {
    Recorded(v0, c.hist, g) && NodesInv(v0, c, g) && MessagesInv(c, g) && CampaignsInv(v0, c, g)
  }

  ghost predicate DynamicInv(conf: Config, v0: set<NodeID>, c: State, g: Chronicle) {
    Shared(conf, c) && Rest(v0, c, g)
  }

  // ----- what follows -----

  /** A commit, and what it covers, is in the log of every leader from then on. */
  lemma CoveredInTermLog(v0: set<NodeID>, h: History, g: Chronicle, j: nat, log: Log, k: nat, last: nat, u: nat)
    requires Recorded(v0, h, g) && j < |g.commits| && Covers(h.reigns, g.commits[j], log, k, last)
    requires g.commits[j].term <= u && u in h.reigns.leaders
    ensures u in h.reigns.termLog && LogMatching.Agree(log, h.reigns.termLog[u], k)
  {
    var x, r := g.commits[j], h.reigns;
    if x.term < u {
      LeaderKeeps(v0, h, g, j, u);
      KeptInTermLog(r, u, x.term, x.index);
      AgreeVia(r.termLog[u], r.termLog[x.term], r.termLog[x.term], x.index, x.index, x.index);
      AgreeVia(log, r.termLog[x.term], r.termLog[u], k, x.index, k);
    }
  }

  /** What two commits cover agrees as far as both go. */
  lemma CoveredAgree(v0: set<NodeID>, h: History, g: Chronicle, x: Log, i: nat, p: nat, last: nat,
                     y: Log, j: nat, q: nat, last': nat, k: nat)
    requires Recorded(v0, h, g) && p < |g.commits| && q < |g.commits| && k <= i && k <= j
    requires Covers(h.reigns, g.commits[p], x, i, last) && Covers(h.reigns, g.commits[q], y, j, last')
    ensures LogMatching.Agree(x, y, k)
  {
    var s, t, tl := g.commits[p], g.commits[q], h.reigns.termLog;
    CommitsAgree(v0, h, g, p, q, if s.term < t.term then t.term + 1 else s.term + 1);
    var both := if s.index <= t.index then s.index else t.index;
    AgreeVia(x, tl[s.term], tl[t.term], i, both, k);
    AgreeVia(y, tl[t.term], tl[t.term], j, j, k);
    AgreeVia(x, tl[t.term], y, k, k, k);
  }

  lemma CommittedAgree(v0: set<NodeID>, h: History, g: Chronicle, n: NodeState, m: NodeState)
    requires Recorded(v0, h, g) && NodeCovered(h, g.commits, n) && NodeCovered(h, g.commits, m)
    requires 0 < n.commitIndex <= m.commitIndex
    ensures LogMatching.Agree(n.log, m.log, n.commitIndex)
  {
    var i :| 0 <= i < |g.commits| && Covers(h.reigns, g.commits[i], n.log, n.commitIndex, n.term);
    var j :| 0 <= j < |g.commits| && Covers(h.reigns, g.commits[j], m.log, m.commitIndex, m.term);
    CoveredAgree(v0, h, g, n.log, n.commitIndex, i, n.term, m.log, m.commitIndex, j, m.term, n.commitIndex);
  }

  /** The node that has committed less has applied a prefix of what the other has. */
  lemma AppliedWithin(v0: set<NodeID>, h: History, g: Chronicle, n: NodeState, m: NodeState)
    requires Recorded(v0, h, g) && NodeFits(v0, h, g.commits, n) && NodeFits(v0, h, g.commits, m)
    requires n.commitIndex <= m.commitIndex
    ensures n.applied <= m.applied
  {
    if n.commitIndex > 0 {
      CommittedAgree(v0, h, g, n, m);
      forall p: nat | 0 < p <= n.commitIndex ensures n.log[p] == m.log[p] {
        assert n.log[..n.commitIndex + 1][p] == m.log[..n.commitIndex + 1][p];
      }
    }
    AppliedPrefix(n, m);
  }

  /** Two nodes have applied the same entries in the same order, as far as both have got. */
  lemma AppliedCompare(conf: Config, v0: set<NodeID>, c: State, g: Chronicle, a: Addr, b: Addr)
    requires DynamicInv(conf, v0, c, g) && a in c.nodes && b in c.nodes
    ensures c.nodes[a].applied <= c.nodes[b].applied || c.nodes[b].applied <= c.nodes[a].applied
  {
    assert NodeFits(v0, c.hist, g.commits, c.nodes[a]) && NodeFits(v0, c.hist, g.commits, c.nodes[b]);
    if c.nodes[a].commitIndex <= c.nodes[b].commitIndex {
      AppliedWithin(v0, c.hist, g, c.nodes[a], c.nodes[b]);
    } else {
      AppliedWithin(v0, c.hist, g, c.nodes[b], c.nodes[a]);
    }
  }
}
