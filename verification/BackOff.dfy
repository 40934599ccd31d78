/** A leader finding the common point with a follower: how nextIndex backs off until a request is accepted. */
module BackOff {
  import opened RaftTypes
  import opened RaftNode
  import opened Cluster
  import opened OneWriter
  import LogMatching

  /** One exchange: the leader's request to `to`, the follower's answer, the leader's reaction. */
  function Exchange(l: NodeState, f: NodeState, to: Addr, pick: NodeID): (NodeState, NodeState, bool) {
    var m := MakeAppendRequest(l, to, l.term, l.commitIndex);
    var (f', resp) := HandleAppendEntries(f, m, pick);
    (HandleAppendReply(NoteNext(l, to), to, m, resp), f', resp.success)
  }

  /** A rejection happens only past index 1, leaves both logs and the leader's term alone, and strictly
      lowers nextIndex, never below 1. */
  lemma RejectionLowers(l: NodeState, f: NodeState, to: Addr, pick: NodeID)
    requires f.term <= l.term && !Exchange(l, f, to, pick).2
    ensures var (l', f', _) := Exchange(l, f, to, pick);
      && 1 <= NextFor(l', to) < NextFor(l, to)
      && l'.log == l.log && l'.term == l.term && l'.role == l.role && l'.commitIndex == l.commitIndex
      && f'.log == f.log && f'.term == l.term
  {
    LogMatching.HandleAppendEntriesFrame(f, MakeAppendRequest(l, to, l.term, l.commitIndex), pick);
  }

  /** Exchanges repeated until one is accepted; how many were rejected, and both nodes' states after. */
  function Settle(l: NodeState, f: NodeState, to: Addr, pick: NodeID): (nat, NodeState, NodeState)
    requires f.term <= l.term
    decreases NextFor(l, to)
  {
    var (l', f', accepted) := Exchange(l, f, to, pick);
    if accepted then (0, l', f')
    else
      RejectionLowers(l, f, to, pick);
      var (k, l'', f'') := Settle(l', f', to, pick);
      (k + 1, l'', f'')
  }

  /** The consistency check passes only where both logs agree already. */
  lemma CheckedPrefix(l: Entries, f: Entries, m: AppendRequest)
    requires Matching(l, f) && PrevMatches(f, m) && m.prevTerm == (if m.prevIndex < |l| then l[m.prevIndex].term else 0)
    ensures LogMatching.Agree(f, l, m.prevIndex)
  {
    if m.prevIndex == 0 {
      assert f[..1] == [SENTINEL] == l[..1];
    }
  }

  lemma AppendedRest(l: Entries, f: Entries, m: AppendRequest)
    requires PrevMatches(f, m) && LogMatching.Agree(f, l, m.prevIndex) && m.entries == l[m.prevIndex + 1..]
    ensures LogMatching.Agree(AppendTo(f, m), l, LastIndex(l))
  {
    if m.entries != [] {
      assert AppendTo(f, m) == l[..m.prevIndex + 1] + l[m.prevIndex + 1..] == l;
    } else {
      assert m.prevIndex == LastIndex(l);
    }
  }

  /** On acceptance the follower agrees with the leader to the end of the leader's log. */
  lemma AcceptanceAgrees(l: NodeState, f: NodeState, to: Addr, pick: NodeID)
    requires f.term <= l.term && Matching(l.log, f.log) && Exchange(l, f, to, pick).2
    ensures LogMatching.Agree(Exchange(l, f, to, pick).1.log, l.log, LastIndex(l.log))
  {
    var m := MakeAppendRequest(l, to, l.term, l.commitIndex);
    LogMatching.HandleAppendEntriesFrame(f, m, pick);
    CheckedPrefix(l.log, f.log, m);
    AppendedRest(l.log, f.log, m);
  }

  /** Back-off terminates: fewer than nextIndex rejections, after which the follower's log agrees with
      the leader's to its end, wherever nextIndex stood to begin with. */
  lemma {:induction false} BackOffTerminates(l: NodeState, f: NodeState, to: Addr, pick: NodeID)
    requires f.term <= l.term && Matching(l.log, f.log)
    ensures var (k, _, f') := Settle(l, f, to, pick);
      k < NextFor(l, to) && LogMatching.Agree(f'.log, l.log, LastIndex(l.log))
    decreases NextFor(l, to)
  {
    var (l', f', accepted) := Exchange(l, f, to, pick);
    if accepted {
      AcceptanceAgrees(l, f, to, pick);
    } else {
      RejectionLowers(l, f, to, pick);
      BackOffTerminates(l', f', to, pick);
    }
  }

  /** So it does between any two nodes of any state that one writer a term allows, whatever else happened. */
  lemma BackOffInEveryRun(conf: Config, mode: Mode, peers: map<Addr, set<Addr>>, c: State, a: Addr, b: Addr,
                          pick: NodeID)
    requires Reaches(InitWith(conf, mode, peers), c, Writes) && a in c.nodes && b in c.nodes
    requires c.nodes[b].term <= c.nodes[a].term
    ensures var (k, _, f) := Settle(c.nodes[a], c.nodes[b], b, pick);
      k < NextFor(c.nodes[a], b) && LogMatching.Agree(f.log, c.nodes[a].log, LastIndex(c.nodes[a].log))
  {
    LogMatchingHolds(conf, mode, peers, c, a, b);
    BackOffTerminates(c.nodes[a], c.nodes[b], b, pick);
  }
}
