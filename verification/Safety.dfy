/** Leader Completeness and State Machine Safety (sections 5.4.2 and 5.4.3 of the Raft paper): the
    invariant of a static cluster whose messages are handled in an orderly way, and what follows from it. */
module Safety {
  import opened RaftTypes
  import opened RaftNode
  import opened Cluster
  import Membership
  import LogMatching
  import Election

  /** What the code leaves to chance, as hypotheses on single steps:
      - a node takes the lead only in the term it campaigned for;
      - a node appends and sends only while it leads, and sends in its current term;
      - a request with entries is not accepted after the same node has accepted a longer request of the
        same term, which holds when the requests of a term arrive in the order they were built
        (Requests.LaterRequestsReachFurther);
      - a success reply is handled only while its receiver leads in the term of the request. */
  ghost predicate Orderly(c: State, s: Step) {
    Enabled(c, s) &&
    var n := c.nodes[s.a];
    match s
    case TakeLead(a) => n.term == c.campaigns[a].term
    case SendAppend(_, _, beat) => n.role == Leader && beat.term == n.term
    case Propose(_, _) => n.role == Leader
    case RecvAppend(a, req, _) => InTurn(c, a, req)
    case RecvAppendReply(_, reply) =>
      reply.resp.success && reply.resp.term <= n.term ==> n.role == Leader && n.term == reply.req.term
    case _ => true
  }

  /** Requests that the node turns down itself may come at any time. */
  predicate InTurn(c: State, a: Addr, req: AppendRequest)
    requires a in c.nodes
  {
    req.term >= c.nodes[a].term && PrevMatches(c.nodes[a].log, req) ==> NotOvertaken(c.hist, a, req)
  }

  predicate NotOvertaken(h: History, a: Addr, req: AppendRequest) {
    req.entries != [] ==> forall k :: k in h.acks && k.addr == a && k.term == req.term ==> k.end <= req.End()
  }

  predicate Majority(conf: Config, q: set<Addr>) { q <= conf.Keys && |q| >= |conf.Keys| / 2 + 1 }

  // ----- entries and what became of them -----

  /** Entry `i` of the leader of `t` was created in that term. */
  predicate OwnEntry(r: Reigns, t: nat, i: nat) {
    t in r.leaders && t in r.termLog && i < |r.termLog[t]| && r.termLog[t][i].term == t
  }

  /** `log` still has an entry of term `t` at `i`. */
  predicate Kept(log: seq<LogEntry>, t: nat, i: nat) { i < |log| && log[i].term == t }

  /** The leader of `u` was elected without that entry. */
  predicate Lost(r: Reigns, u: nat, t: nat, i: nat) { t < u && u in r.leaders && !Kept(r.leaders[u].log, t, i) }

  ghost predicate LostBy(r: Reigns, t: nat, i: nat, last: nat) { exists u: nat :: u <= last && Lost(r, u, t, i) }

  /** `a` has acknowledged the log of the leader of `t` at least through `i`. */
  ghost predicate Acked(h: History, a: Addr, t: nat, i: nat) {
    exists k :: k in h.acks && k.addr == a && k.term == t && k.end >= i
  }

  ghost predicate AllAcked(h: History, q: set<Addr>, t: nat, i: nat) {
    forall v {:trigger Acked(h, v, t, i)} :: v in q ==> Acked(h, v, t, i)
  }

  /** An entry of its leader's own term that a majority has acknowledged. */
  ghost predicate Committed(conf: Config, h: History, t: nat, i: nat) {
    OwnEntry(h.reigns, t, i) && exists q :: Majority(conf, q) && AllAcked(h, q, t, i)
  }

  // ----- the invariant -----

  predicate AckOK(c: State, k: Ack) {
    && k.addr in c.nodes && k.term in c.hist.reigns.leaders && k.term in c.hist.reigns.termLog
    && k.end < |c.hist.reigns.termLog[k.term]|
    && k.term <= c.nodes[k.addr].term
    && (k.term == c.nodes[k.addr].term ==> LogMatching.Agree(c.nodes[k.addr].log, c.hist.reigns.termLog[k.term], k.end))
  }

  /** A node keeps what it acknowledged, until a leader elected without it could have taken it away. */
  ghost predicate NodeKeeps(c: State, k: Ack, i: nat) {
    k.addr in c.nodes
    && (Kept(c.nodes[k.addr].log, k.term, i) || LostBy(c.hist.reigns, k.term, i, c.nodes[k.addr].term))
  }

  /** The same for a voter's log when it voted in `u`; if it was the leader of `u` who lacked the entry,
      the vote came too late to help elect that leader. */
  ghost predicate BallotKeeps(h: History, k: Ack, u: nat, i: nat) {
    (k.addr, u) in h.ballots
    && (Kept(h.ballots[(k.addr, u)].log, k.term, i)
        || exists w: nat ::
          w <= u && Lost(h.reigns, w, k.term, i) && (w == u ==> k.addr !in h.reigns.leaders[u].voters))
  }

  predicate BallotLogOK(h: History, v: Addr, u: nat) {
    (v, u) in h.ballots
    && var b := h.ballots[(v, u)];
       LogMatching.Grounded(b.log, h.reigns.termLog) && UpToDate(b.lastIndex, b.lastTerm, b.log)
  }

  /** `a` is campaigning in its current term and has not heard from a leader in it. */
  predicate Campaigning(c: State, a: Addr, t: nat) {
    && a in c.nodes && a in c.campaigns && c.campaigns[a].term == t == c.nodes[a].term
    && (t !in c.hist.reigns.leaders || c.nodes[a].role == Candidate)
  }

  /** While a node campaigns its log is the one it claimed to have. */
  ghost predicate EndOK(conf: Config, c: State, id: NodeID, t: nat, index: nat, term: nat) {
    id in conf.Values && var a := Election.Owner(conf, id);
    Campaigning(c, a, t) ==> index == LastIndex(c.nodes[a].log) && term == LastTerm(c.nodes[a].log)
  }

  /** So does the winner, to each of its voters. */
  predicate WinEndOK(h: History, t: nat, v: Addr) {
    t in h.reigns.leaders && (v, t) in h.ballots
    && h.ballots[(v, t)].lastIndex == LastIndex(h.reigns.leaders[t].log)
    && h.ballots[(v, t)].lastTerm == LastTerm(h.reigns.leaders[t].log)
  }

  ghost predicate MatchOK(conf: Config, c: State, a: Addr) {
    a in c.nodes && var n := c.nodes[a];
    n.role == Leader ==>
      && (forall f :: f in conf && f != a && Lookup(n.matchIndex, f) > 0 ==> Acked(c.hist, f, n.term, n.matchIndex[f]))
      && (forall i :: 0 <= i < |n.log| && n.log[i].term == n.term ==> Acked(c.hist, a, n.term, i))
  }

  /** `log` through `k` is part of something committed in a term no later than `last`. */
  ghost predicate Certified(conf: Config, h: History, log: seq<LogEntry>, k: nat, t: nat, i: nat, last: nat) {
    Committed(conf, h, t, i) && k <= i && t <= last && LogMatching.Agree(log, h.reigns.termLog[t], k)
  }

  ghost predicate CommitOK(conf: Config, c: State, a: Addr) {
    a in c.nodes && var n := c.nodes[a];
    && n.commitIndex < |n.log|
    && (n.commitIndex > 0 ==> exists t: nat, i: nat ::
          Certified(conf, c.hist, n.log, n.commitIndex, t, i, n.term)
          && (t < n.term || Acked(c.hist, a, t, n.commitIndex)))
  }

  ghost predicate SentOK(conf: Config, h: History, m: AppendRequest) {
    && m.leaderCommit <= m.End()
    && m.term in h.reigns.termLog
    && (m.leaderCommit > 0 ==> exists t: nat, i: nat ::
      Certified(conf, h, h.reigns.termLog[m.term], m.leaderCommit, t, i, m.term))
  }

  predicate BeatOK(c: State, a: Addr, b: Beat) {
    a in c.nodes && b.term <= c.nodes[a].term && (b.term == c.nodes[a].term ==> b.commit <= c.nodes[a].commitIndex)
  }

  /** What a node has applied is exactly the committed part of its log, in order. */
  predicate AppliedOK(n: NodeState) {
    n.lastApplied == n.commitIndex < |n.log| && n.applied == n.log[1..n.commitIndex + 1]
  }

  ghost predicate AcksInv(c: State) {
    forall k {:trigger AckOK(c, k)} :: k in c.hist.acks ==> AckOK(c, k)
  }

  ghost predicate KeepInv(c: State) {
    forall k, i: nat {:trigger NodeKeeps(c, k, i)} ::
      k in c.hist.acks && i <= k.end && OwnEntry(c.hist.reigns, k.term, i) ==> NodeKeeps(c, k, i)
  }

  ghost predicate BallotsInv(h: History) {
    && (forall v, u {:trigger BallotLogOK(h, v, u)} :: (v, u) in h.ballots ==> BallotLogOK(h, v, u))
    && (forall k, u: nat, i: nat {:trigger BallotKeeps(h, k, u, i)} ::
          k in h.acks && k.term < u && (k.addr, u) in h.ballots && i <= k.end && OwnEntry(h.reigns, k.term, i)
          ==> BallotKeeps(h, k, u, i))
  }

  ghost predicate EndsInv(conf: Config, c: State) {
    && (forall v, t {:trigger BallotEndOK(conf, c, v, t)} :: (v, t) in c.hist.ballots ==> BallotEndOK(conf, c, v, t))
    && (forall m {:trigger EndOK(conf, c, m.candidateID, m.term, m.lastLogIndex, m.lastLogTerm)} ::
          m in c.voteReqs ==> EndOK(conf, c, m.candidateID, m.term, m.lastLogIndex, m.lastLogTerm))
    && (forall t, v {:trigger WinEndOK(c.hist, t, v)} ::
          t in c.hist.reigns.leaders && v in c.hist.reigns.leaders[t].voters ==> WinEndOK(c.hist, t, v))
  }

  ghost predicate BallotEndOK(conf: Config, c: State, v: Addr, t: nat) {
    (v, t) in c.hist.ballots
    && var b := c.hist.ballots[(v, t)]; EndOK(conf, c, b.candidate, t, b.lastIndex, b.lastTerm)
  }

  ghost predicate CommitInv(conf: Config, c: State) {
    && (forall a {:trigger MatchOK(conf, c, a)} :: a in c.nodes ==> MatchOK(conf, c, a))
    && (forall a {:trigger CommitOK(conf, c, a)} :: a in c.nodes ==> CommitOK(conf, c, a))
    && (forall a {:trigger AppliedOK(c.nodes[a])} :: a in c.nodes ==> AppliedOK(c.nodes[a]))
    && (forall m {:trigger SentOK(conf, c.hist, m)} :: m in c.appendReqs ==> SentOK(conf, c.hist, m))
    && (forall a, b {:trigger BeatOK(c, a, b)} :: (a, b) in c.beats ==> BeatOK(c, a, b))
    && (forall r {:trigger AckedReply(c.hist, r)} :: r in c.appendReplies ==> AckedReply(c.hist, r))
  }

  predicate AckedReply(h: History, r: AppendReply) {
    r.resp.success ==> Ack(r.from, r.req.term, r.req.End()) in h.acks
  }

  ghost predicate Inv(conf: Config, c: State) {
    && ValidConfig(conf)
    && LogMatching.Inv(c) && Election.StaticInv(conf, c) && Election.VotesInv(conf, c)
    && AcksInv(c) && KeepInv(c) && BallotsInv(c.hist) && EndsInv(conf, c) && CommitInv(conf, c)
  }

  // ----- Leader Completeness -----

  lemma KeptAgrees(log: seq<LogEntry>, r: Reigns, t: nat, i: nat)
    requires LogMatching.Grounded(log, r.termLog) && Kept(log, t, i)
    ensures t in r.termLog && LogMatching.Agree(log, r.termLog[t], i)
  {
  }

  lemma TermsAscend(log: seq<LogEntry>, r: Reigns, i: nat, j: nat)
    requires LogMatching.HistoryOK(r) && LogMatching.Grounded(log, r.termLog) && i <= j < |log|
    ensures log[i].term <= log[j].term
  {
    var t := log[j].term;
    assert LogMatching.Agree(log, r.termLog[t], j);
    assert LogMatching.TermLogOK(t, r.termLog, r.leaders);
    assert log[..j + 1][i] == r.termLog[t][..j + 1][i];
  }

  /** A log that is at least as up to date as one that kept an entry keeps it too, provided every
      leader of a later term up to the log's last one did. */
  lemma UpToDateKeeps(log: Entries, other: Entries, r: Reigns, t: nat, i: nat)
    requires LogMatching.HistoryOK(r) && LogMatching.Grounded(log, r.termLog) && LogMatching.Grounded(other, r.termLog)
    requires UpToDate(LastIndex(log), LastTerm(log), other) && Kept(other, t, i)
    requires LastTerm(log) > t && LastTerm(log) in r.leaders ==> Kept(r.leaders[LastTerm(log)].log, t, i)
    ensures Kept(log, t, i)
  {
    var u := LastTerm(log);
    TermsAscend(other, r, i, |other| - 1);
    assert LogMatching.Agree(log, r.termLog[u], |log| - 1) && log[..|log|] == log;
    assert LogMatching.TermLogOK(u, r.termLog, r.leaders);
    if u == LastTerm(other) {
      assert LogMatching.Agree(other, r.termLog[u], |other| - 1) && other[..|other|] == other;
      assert log[i] == r.termLog[u][i] == other[i];
    } else {
      assert u in r.leaders && u > t;
      assert log[|log| - 1] == r.termLog[u][|log| - 1];
      assert |r.leaders[u].log| < |log|;
      assert r.leaders[u].log[i] == r.termLog[u][i] == log[i];
    }
  }

  /** A log shown to a voter that had acknowledged an entry has that entry, provided every later leader so far had
      it when elected; the voter may have helped elect the leader of `w`. */
  lemma VoteKeeps(h: History, log: Entries, w: nat, v: Addr, t: nat, i: nat)
    requires LogMatching.HistoryOK(h.reigns) && BallotsInv(h) && LogMatching.Grounded(log, h.reigns.termLog)
    requires OwnEntry(h.reigns, t, i) && t < w && Acked(h, v, t, i) && LastTerm(log) < w
    requires (v, w) in h.ballots
    requires h.ballots[(v, w)].lastIndex == LastIndex(log) && h.ballots[(v, w)].lastTerm == LastTerm(log)
    requires forall u :: t < u < w && u in h.reigns.leaders ==> Kept(h.reigns.leaders[u].log, t, i)
    requires w in h.reigns.leaders ==> v in h.reigns.leaders[w].voters || Kept(h.reigns.leaders[w].log, t, i)
    ensures Kept(log, t, i)
  {
    var k :| k in h.acks && k.addr == v && k.term == t && k.end >= i;
    assert BallotKeeps(h, k, w, i) && BallotLogOK(h, v, w);
    assert Kept(h.ballots[(v, w)].log, t, i);
    UpToDateKeeps(log, h.ballots[(v, w)].log, h.reigns, t, i);
  }

  /** A leader elected after something was committed has it in its log from the start. */
  lemma {:induction false} LeaderCompleteness(conf: Config, c: State, t: nat, i: nat, w: nat)
    requires Inv(conf, c) && Committed(conf, c.hist, t, i)
    requires w in c.hist.reigns.leaders && w > t
    ensures Kept(c.hist.reigns.leaders[w].log, t, i)
    decreases w
  {
    var h, r := c.hist, c.hist.reigns;
    var win := r.leaders[w];
    var q :| Majority(conf, q) && AllAcked(h, q, t, i);
    assert Election.ReignOK(conf, c, w);
    Membership.Overlap(q, win.voters, conf.Keys);
    var v :| v in q && v in win.voters;
    assert Acked(h, v, t, i);
    forall u | t < u < w && u in r.leaders ensures Kept(r.leaders[u].log, t, i) {
      LeaderCompleteness(conf, c, t, i, u);
    }
    assert WinEndOK(h, w, v);
    WinLog(c, w);
    VoteKeeps(h, win.log, w, v, t, i);
  }

  /** A leader's log at election is grounded and of older terms. */
  lemma WinLog(c: State, w: nat)
    requires LogMatching.Inv(c) && w in c.hist.reigns.leaders
    ensures var log := c.hist.reigns.leaders[w].log;
      LogMatching.Grounded(log, c.hist.reigns.termLog) && LastTerm(log) < w
      && log <= c.hist.reigns.termLog[w]
  {
    var r := c.hist.reigns;
    var log := r.leaders[w].log;
    assert LogMatching.TermLogOK(w, r.termLog, r.leaders);
    assert log == r.termLog[w][..|log|];
    LogMatching.GroundedPrefix(r.termLog[w], r.termLog, |log|);
    assert log[|log| - 1] == r.termLog[w][|log| - 1];
  }

  /** Two certified stretches of log agree as far as both go. */
  lemma CertifiedAgree(conf: Config, c: State, x: seq<LogEntry>, j: nat, t: nat, i: nat,
                       y: seq<LogEntry>, k: nat, u: nat, l: nat, last: nat, last': nat)
    requires Inv(conf, c) && t <= u
    requires Certified(conf, c.hist, x, j, t, i, last) && Certified(conf, c.hist, y, k, u, l, last')
    ensures forall p :: 0 <= p <= j && p <= k ==> x[p] == y[p]
  {
    CertifiedInTermLog(conf, c, x, j, t, i, last, u);
    forall p | 0 <= p <= j && p <= k ensures x[p] == y[p] {
      var tl := c.hist.reigns.termLog[u];
      assert x[..j + 1][p] == tl[..j + 1][p];
      assert y[..k + 1][p] == tl[..k + 1][p];
    }
  }

  /** What is certified is in the log of every leader from then on. */
  lemma CertifiedInTermLog(conf: Config, c: State, x: seq<LogEntry>, j: nat, t: nat, i: nat, last: nat, u: nat)
    requires Inv(conf, c) && Certified(conf, c.hist, x, j, t, i, last) && t <= u && u in c.hist.reigns.leaders
    ensures u in c.hist.reigns.termLog && LogMatching.Agree(x, c.hist.reigns.termLog[u], j)
    ensures u > t ==> LogMatching.Agree(x, c.hist.reigns.leaders[u].log, j)
  {
    var r := c.hist.reigns;
    if t < u {
      LeaderCompleteness(conf, c, t, i, u);
      var log := r.leaders[u].log;
      WinLog(c, u);
      KeptAgrees(log, r, t, i);
      assert log[..j + 1] == log[..i + 1][..j + 1] == r.termLog[t][..i + 1][..j + 1] == r.termLog[t][..j + 1];
      assert r.termLog[u][..j + 1] == log[..j + 1];
    }
  }

  lemma CertifiedEitherWay(conf: Config, c: State, x: seq<LogEntry>, j: nat, t: nat, i: nat,
                           y: seq<LogEntry>, k: nat, u: nat, l: nat, last: nat, last': nat)
    requires Inv(conf, c)
    requires Certified(conf, c.hist, x, j, t, i, last) && Certified(conf, c.hist, y, k, u, l, last')
    ensures forall p :: 0 <= p <= j && p <= k ==> x[p] == y[p]
  {
    if t <= u {
      CertifiedAgree(conf, c, x, j, t, i, y, k, u, l, last, last');
    } else {
      CertifiedAgree(conf, c, y, k, u, l, x, j, t, i, last', last);
    }
  }

  lemma CommittedLogsAgree(conf: Config, c: State, a: Addr, b: Addr, p: nat)
    requires Inv(conf, c) && CommitOK(conf, c, a) && CommitOK(conf, c, b)
    requires 0 < p <= c.nodes[a].commitIndex && p <= c.nodes[b].commitIndex
    ensures c.nodes[a].log[p] == c.nodes[b].log[p]
  {
    var n, m := c.nodes[a], c.nodes[b];
    var t: nat, i: nat :| Certified(conf, c.hist, n.log, n.commitIndex, t, i, n.term);
    var u: nat, l: nat :| Certified(conf, c.hist, m.log, m.commitIndex, u, l, m.term);
    CertifiedEitherWay(conf, c, n.log, n.commitIndex, t, i, m.log, m.commitIndex, u, l, n.term, m.term);
  }

  lemma AppliedPrefix(n: NodeState, m: NodeState)
    requires AppliedOK(n) && AppliedOK(m) && n.commitIndex <= m.commitIndex
    requires forall p :: 0 < p <= n.commitIndex ==> n.log[p] == m.log[p]
    ensures n.applied <= m.applied
  {
    assert forall p :: 0 <= p < |n.applied| ==> n.applied[p] == n.log[p + 1] == m.log[p + 1] == m.applied[p];
  }

  /** Two nodes have applied the same entries in the same order, as far as both have got. */
  lemma AppliedAgree(conf: Config, c: State, a: Addr, b: Addr)
    requires Inv(conf, c) && a in c.nodes && b in c.nodes
    ensures c.nodes[a].applied <= c.nodes[b].applied || c.nodes[b].applied <= c.nodes[a].applied
  {
    assert CommitOK(conf, c, a) && CommitOK(conf, c, b) && AppliedOK(c.nodes[a]) && AppliedOK(c.nodes[b]);
    forall p: nat | 0 < p <= c.nodes[a].commitIndex && p <= c.nodes[b].commitIndex
      ensures c.nodes[a].log[p] == c.nodes[b].log[p]
    {
      CommittedLogsAgree(conf, c, a, b, p);
    }
    if c.nodes[a].commitIndex <= c.nodes[b].commitIndex {
      AppliedPrefix(c.nodes[a], c.nodes[b]);
    } else {
      AppliedPrefix(c.nodes[b], c.nodes[a]);
    }
  }
}
