/** Why a candidate may have at most one membership entry above its commit index: with two, everything else in force,
    two nodes apply different entries. A node adopts a change when it applies the entry, not when it appends it, so a
    candidate can be several committed changes behind and count a quorum that nobody else knows any more. */
module DynamicCommit {
  import opened RaftTypes
  import opened RaftNode
  import opened Cluster
  import opened Replication
  import opened Necessity
  import opened Configs
  import Membership
  import Keeping

  // ----- the leader `p`, which removes both other voters -----

  function Removal(id: NodeID): Command { Membership(MembershipChange(ActionRemoveVoter, id, "")) }

  /** `p` in term 1: what it has appended, committed and applied, its members, and what it notes about `r`. */
  ghost predicate Boss(k: Cast, n: NodeState, log: Entries, commit: nat, ms: Members, next: nat, matched: nat) {
    && n.id == k.p && n.addr == k.p && n.mode == Dynamic && n.role == Leader && n.term == 1 && n.log == log
    && n.members == ms
    && n.commitIndex == n.lastApplied == commit < |log| && n.applied == log[1..commit + 1]
    && Lookup(n.nextIndex, k.r) == next && Lookup(n.matchIndex, k.r) == matched
  }

  predicate Full(gap: Gap, k: Cast) { Careful(gap) && gap.v0 == k.vs }

  /** A heartbeat of the broadcast that `p` started before it had committed anything. */
  lemma SendsOld(gap: Gap, reach: State -> bool, k: Cast, c: State, log: Entries, commit: nat, ms: Members, next: nat,
                 matched: nat) returns (c': State)
    requires Closed(gap, reach) && reach(c) && k.p in c.nodes && Boss(k, c.nodes[k.p], log, commit, ms, next, matched)
    requires 0 < next <= |log|
    requires (k.p, Beat(1, 0)) in c.beats && k.r in ms && ms[k.r].addr == k.r && k.r != k.p && k.r != ""
    ensures reach(c') && Steady(c, c') && c'.nodes == c.nodes && c'.beats == c.beats && c'.hist.acks == c.hist.acks
    ensures c'.appendReplies == c.appendReplies && c'.appendReqs == c.appendReqs + {Req(k.p, 1, log, next)}
  {
    var n := c.nodes[k.p];
    assert k.r in Membership.PeerAddrs(ms, k.p);
    c' := Take(gap, reach, c, SendAppend(k.p, k.r, Beat(1, 0)));
    assert NoteNext(n, k.r) == n && MakeAppendRequest(n, k.r, 1, 0) == Req(k.p, 1, log, next);
  }

  /** Committing the last entry of the log, everything before it being applied. */
  lemma CommitOne(n: NodeState, i: nat)
    requires n.commitIndex == n.lastApplied == i - 1 && i == LastIndex(n.log) && Committable(n, i)
    ensures MaybeAdvanceCommitIndex(n) == ApplyEntry(n.(commitIndex := i, lastApplied := i))
  {
    assert BestCommit(n, i) == i;
    var n1 := n.(commitIndex := i);
    var n2 := ApplyEntry(n1.(lastApplied := i));
    ApplyEntryFrame(n1.(lastApplied := i));
    assert ApplyCommitted(n1) == ApplyCommitted(n2) == n2;
  }

  function Removed(ms: Members, command: Command): Members {
    if command.Membership? then Membership.ApplyChange(ms, command.change) else ms
  }

  /** `p` handles an acknowledgement that makes its last entry committable. */
  lemma BossCommits(k: Cast, n: NodeState, log: Entries, ms: Members, next: nat, matched: nat, end: nat)
    requires |log| > 1 && Boss(k, n, log, LastIndex(log) - 1, ms, next, matched)
    requires Committable(Matched(n, k.r, end), LastIndex(log))
    requires log[LastIndex(log)].command.Membership? ==> log[LastIndex(log)].command.change.nodeID != k.p
    ensures Boss(k, MaybeAdvanceCommitIndex(Matched(n, k.r, end)), log, LastIndex(log),
      Removed(ms, log[LastIndex(log)].command), end + 1, end)
  {
    var n1, i := Matched(n, k.r, end), LastIndex(log);
    CommitOne(n1, i);
    Keeping.OneMore(log, i);
    ApplyEntryFrame(n1.(commitIndex := i, lastApplied := i));
  }

  lemma HandlesSuccess(gap: Gap, reach: State -> bool, c: State, a: Addr, from: Addr, m: AppendRequest)
    returns (c': State)
    requires Closed(gap, reach) && reach(c) && a in c.nodes && Success(from, m) in c.appendReplies
    requires m.leaderID == c.nodes[a].id && c.nodes[a].role == Leader && c.nodes[a].term == m.term
    ensures reach(c') && Steady(c, c') && Calm(c, c')
    ensures c'.nodes == c.nodes[a := MaybeAdvanceCommitIndex(Matched(c.nodes[a], from, m.End()))]
  {
    Keeping.SuccessAdvances(c.nodes[a], from, m, Success(from, m).resp);
    c' := Take(gap, reach, c, RecvAppendReply(a, Success(from, m)));
  }

  /** The members `ms`, all recorded under their addresses, have the voters `vs`. */
  ghost predicate Roll(ms: Members, vs: set<Addr>) {
    Membership.VoterIDs(ms) == vs && forall id {:trigger ms[id]} :: id in ms ==> ms[id].addr == id && ms[id].id == id
  }

  lemma Supported(n: NodeState, a: Addr, b: Addr, vs: set<Addr>, i: nat)
    requires Roll(n.members, vs) && n.id == a && b in vs && a != b && Lookup(n.matchIndex, b) >= i && |vs| <= 3
    requires i < |n.log| && n.log[i].term == n.term
    ensures Committable(n, i)
  {
    assert b in Membership.VoterIDs(n.members) && n.members[b].addr == b && n.members[b].id == b;
    assert {b} <= Supporters(n, i);
    Membership.SubsetSize({b}, Supporters(n, i));
  }

  lemma Alone(n: NodeState, a: Addr, i: nat)
    requires Roll(n.members, {a}) && i < |n.log| && n.log[i].term == n.term
    ensures Committable(n, i)
  {
  }

  lemma RollWithout(ms: Members, vs: set<Addr>, id: NodeID)
    requires Roll(ms, vs)
    ensures Roll(Removed(ms, Removal(id)), vs - {id})
  {
  }

  // ----- the logs -----

  function First(k: Cast): Entries { Own([SENTINEL], 1, Removal(k.q)) }

  function Second(k: Cast): Entries { Own(First(k), 1, Removal(k.r)) }

  /** What `p` commits alone ... */
  function Third(k: Cast): Entries { Own(Second(k), 1, Admission(k.o)) }

  /** ... and what `r` commits in its place. */
  function Other(k: Cast, y: Command): Entries { Own(Second(k), 2, y) }

  /** What `r` may append with both removals pending: with one change at a time, only data. */
  predicate MayFollow(gap: Gap, y: Command) {
    Careful(gap) && gap.limit >= 2 && y == if gap.OneAtATime? then Data("y") else Y
  }

  lemma RemovalsPending(k: Cast)
    ensures Changes(Second(k), 0, 2) == 2 && Changes([SENTINEL], 0, 0) == 0
  {
    assert Changes(Second(k), 0, 2) == Changes(Second(k), 0, 1) + 1 == Changes(Second(k), 0, 0) + 2;
  }

  // ----- the run -----

  /** `p` leads term 1 and has started a broadcast. */
  ghost predicate Opening(k: Cast, c: State, ms: Members) {
    && Quiet(c, 1) && k.p in c.nodes && Boss(k, c.nodes[k.p], [SENTINEL], 0, ms, 1, 0) && Roll(ms, k.vs)
    && (k.p, Beat(1, 0)) in c.beats
    && Has(k, c, k.q, Follower, 1, [SENTINEL], 0, 0) && Has(k, c, k.r, Follower, 0, [SENTINEL], 0, 0)
    && c.hist.acks == {}
  }

  lemma PlayOpening(gap: Gap, reach: State -> bool, k: Cast, c0: State) returns (c: State, ms: Members)
    requires Four(k) && Full(gap, k) && Closed(gap, reach) && reach(c0) && SceneZero(k, c0)
    ensures reach(c) && Opening(k, c, ms)
  {
    var c1 := PlayFirstVote(gap, reach, k, c0);
    ms := c1.nodes[k.p].members;
    c := Take(gap, reach, c1, StartBeat(k.p));
    assert c.nodes == c1.nodes;
  }

  lemma PlayFirstVote(gap: Gap, reach: State -> bool, k: Cast, c0: State) returns (c: State)
    requires Four(k) && Full(gap, k) && Closed(gap, reach) && reach(c0) && SceneZero(k, c0)
    ensures reach(c) && Quiet(c, 1) && c.hist.acks == {} && Has(k, c, k.p, Leader, 1, [SENTINEL], 0, 0)
    ensures Has(k, c, k.q, Follower, 1, [SENTINEL], 0, 0) && Has(k, c, k.r, Follower, 0, [SENTINEL], 0, 0)
    ensures Lookup(c.nodes[k.p].nextIndex, k.r) == 1
  {
    RemovalsPending(k);
    c := ElectHas(gap, reach, k, c0, k.p, 0, [SENTINEL], 0, 0, k.q, 0);
  }

  /** `p` has the log `log`, all but its last entry committed; `r` has all but that last entry. */
  ghost predicate Round(k: Cast, c: State, log: Entries, log': Entries, ms: Members, t: nat, matched: nat) {
    && Quiet(c, 1) && k.p in c.nodes && Boss(k, c.nodes[k.p], log', LastIndex(log), ms, matched + 1, matched)
    && (k.p, Beat(1, 0)) in c.beats
    && Has(k, c, k.q, Follower, 1, [SENTINEL], 0, 0) && Has(k, c, k.r, Follower, t, log, 0, 0)
    && matched == LastIndex(log) && t <= 1 && Unacked(c, k.r, 1, matched)
  }

  /** The last entry of `log'` goes out to `r` ... */
  lemma PlaySend(gap: Gap, reach: State -> bool, k: Cast, c0: State, log: Entries, e: LogEntry, ms: Members, t: nat,
                 vs: set<Addr>) returns (c: State)
    requires Four(k) && Full(gap, k) && Closed(gap, reach) && reach(c0)
    requires Round(k, c0, log, log + [e], ms, t, LastIndex(log)) && Roll(ms, vs) && k.r in vs
    ensures reach(c) && Quiet(c, 1) && k.p in c.nodes && c.nodes[k.p] == c0.nodes[k.p] && c.beats == c0.beats
    ensures Has(k, c, k.q, Follower, 1, [SENTINEL], 0, 0) && Has(k, c, k.r, Follower, 1, log + [e], 0, 0)
    ensures Success(k.r, Req(k.p, 1, log + [e], |log|)) in c.appendReplies && Unacked(c, k.r, 1, |log|)
  {
    var m := Req(k.p, 1, log + [e], |log|);
    assert k.r in ms && ms[k.r].addr == k.r by { assert k.r in Membership.VoterIDs(ms); }
    var c1 := SendsOld(gap, reach, k, c0, log + [e], LastIndex(log), ms, |log|, LastIndex(log));
    OneEntry(k.p, log, e);
    c := AcceptsHas(gap, reach, k, c1, k.r, Follower, t, log, 0, 0, m, 1);
  }

  lemma OneEntry(a: Addr, log: Entries, e: LogEntry)
    ensures var m := Req(a, 1, log + [e], |log|);
      PrevMatches(log, m) && AppendTo(log, m) == log + [e] && m.End() == |log|
  {
    assert (log + [e])[|log|..] == [e] && log[..|log|] == log;
  }

  /** ... and `p` commits it on the acknowledgement. */
  lemma PlayCommit(gap: Gap, reach: State -> bool, k: Cast, c0: State, log: Entries, e: LogEntry, ms: Members, t: nat,
                   vs: set<Addr>) returns (c: State)
    requires Four(k) && Full(gap, k) && Closed(gap, reach) && reach(c0)
    requires Round(k, c0, log, log + [e], ms, t, LastIndex(log)) && Roll(ms, vs)
    requires k.r in vs && vs <= k.vs && |vs| <= 3 && e.term == 1 && e.command.Membership?
    requires e.command.change.nodeID != k.p
    ensures reach(c) && Quiet(c, 1) && k.p in c.nodes
    ensures Boss(k, c.nodes[k.p], log + [e], |log|, Removed(ms, e.command), |log| + 1, |log|)
    ensures (k.p, Beat(1, 0)) in c.beats && Has(k, c, k.q, Follower, 1, [SENTINEL], 0, 0)
    ensures Has(k, c, k.r, Follower, 1, log + [e], 0, 0)
    ensures Unacked(c, k.r, 1, |log|) && Success(k.r, Req(k.p, 1, log + [e], |log|)) in c.appendReplies
  {
    var m, log' := Req(k.p, 1, log + [e], |log|), log + [e];
    var c1 := PlaySend(gap, reach, k, c0, log, e, ms, t, vs);
    OneEntry(k.p, log, e);
    Supported(Matched(c1.nodes[k.p], k.r, |log|), k.p, k.r, vs, |log|);
    BossCommits(k, c1.nodes[k.p], log', ms, |log|, LastIndex(log), |log|);
    c := HandlesSuccess(gap, reach, c1, k.p, k.r, m);
  }

  /** Both removals, one after the other, each committed before the next is appended. */
  lemma PlayFirst(gap: Gap, reach: State -> bool, k: Cast, c0: State, ms: Members) returns (c: State)
    requires Four(k) && Full(gap, k) && Closed(gap, reach) && reach(c0) && Opening(k, c0, ms) && |k.vs| == 3
    ensures reach(c) && Quiet(c, 1) && k.p in c.nodes
    ensures Boss(k, c.nodes[k.p], First(k), 1, Removed(ms, Removal(k.q)), 2, 1)
    ensures (k.p, Beat(1, 0)) in c.beats && Has(k, c, k.q, Follower, 1, [SENTINEL], 0, 0)
    ensures Has(k, c, k.r, Follower, 1, First(k), 0, 0)
    ensures Unacked(c, k.r, 1, 1)
  {
    var e := LogEntry(1, 1, Removal(k.q));
    var c1 := Proposes(gap, reach, c0, k.p, Removal(k.q));
    assert Round(k, c1, [SENTINEL], [SENTINEL] + [e], ms, 0, 0);
    c := PlayCommit(gap, reach, k, c1, [SENTINEL], e, ms, 0, k.vs);
  }

  lemma PlaySecond(gap: Gap, reach: State -> bool, k: Cast, c0: State, ms: Members) returns (c: State)
    requires Four(k) && Full(gap, k) && Closed(gap, reach) && reach(c0) && Quiet(c0, 1) && Roll(ms, {k.p, k.r})
    requires |k.vs| == 3
    requires k.p in c0.nodes && Boss(k, c0.nodes[k.p], First(k), 1, ms, 2, 1) && (k.p, Beat(1, 0)) in c0.beats
    requires Has(k, c0, k.q, Follower, 1, [SENTINEL], 0, 0) && Has(k, c0, k.r, Follower, 1, First(k), 0, 0)
    requires Unacked(c0, k.r, 1, 1)
    ensures reach(c) && Quiet(c, 1) && k.p in c.nodes
    ensures Boss(k, c.nodes[k.p], Second(k), 2, Removed(ms, Removal(k.r)), 3, 2)
    ensures Has(k, c, k.q, Follower, 1, [SENTINEL], 0, 0) && Has(k, c, k.r, Follower, 1, Second(k), 0, 0)
    ensures Success(k.r, Req(k.p, 1, Second(k), 2)) in c.appendReplies
  {
    var e := LogEntry(2, 1, Removal(k.r));
    var c1 := Proposes(gap, reach, c0, k.p, Removal(k.r));
    assert Round(k, c1, First(k), First(k) + [e], ms, 1, 1);
    assert |{k.p, k.r}| == 2;
    c := PlayCommit(gap, reach, k, c1, First(k), e, ms, 1, {k.p, k.r});
  }

  /** `p`, the only voter left in its own view, commits one more entry by itself. */
  lemma PlayThird(gap: Gap, reach: State -> bool, k: Cast, c0: State, ms: Members) returns (c: State)
    requires Four(k) && Full(gap, k) && Closed(gap, reach) && reach(c0) && Quiet(c0, 1) && Roll(ms, {k.p})
    requires k.p in c0.nodes && Boss(k, c0.nodes[k.p], Second(k), 2, ms, 3, 2)
    requires Success(k.r, Req(k.p, 1, Second(k), 2)) in c0.appendReplies
    requires Has(k, c0, k.q, Follower, 1, [SENTINEL], 0, 0) && Has(k, c0, k.r, Follower, 1, Second(k), 0, 0)
    ensures reach(c) && Quiet(c, 1) && k.p in c.nodes && c.nodes[k.p].applied == Third(k)[1..4]
    ensures Has(k, c, k.q, Follower, 1, [SENTINEL], 0, 0) && Has(k, c, k.r, Follower, 1, Second(k), 0, 0)
  {
    var m := Req(k.p, 1, Second(k), 2);
    var c1 := Proposes(gap, reach, c0, k.p, Admission(k.o));
    assert Second(k)[1..3] == Third(k)[1..3];
    assert Boss(k, c1.nodes[k.p], Third(k), 2, ms, 3, 2);
    Alone(Matched(c1.nodes[k.p], k.r, 2), k.p, 3);
    BossCommits(k, c1.nodes[k.p], Third(k), ms, 3, 2, 2);
    c := HandlesSuccess(gap, reach, c1, k.p, k.r, m);
  }

  /** `r` has both removals in its log and has applied neither: in its view `q` still votes. */
  lemma PlaySuccessor(gap: Gap, reach: State -> bool, k: Cast, y: Command, c0: State) returns (c: State)
    requires Four(k) && MayFollow(gap, y) && Full(gap, k) && Closed(gap, reach) && reach(c0) && Quiet(c0, 1)
    requires k.p in c0.nodes
    requires Has(k, c0, k.q, Follower, 1, [SENTINEL], 0, 0) && Has(k, c0, k.r, Follower, 1, Second(k), 0, 0)
    ensures reach(c) && Quiet(c, 2) && k.p in c.nodes && c.nodes[k.p] == c0.nodes[k.p] && Unacked(c, k.q, 2, 0)
    ensures Has(k, c, k.q, Follower, 2, [SENTINEL], 0, 0) && Has(k, c, k.r, Leader, 2, Other(k, y), 0, 0)
    ensures Lookup(c.nodes[k.r].nextIndex, k.q) == 3
  {
    RemovalsPending(k);
    var c1 := ElectHas(gap, reach, k, c0, k.r, 1, Second(k), 0, 0, k.q, 1);
    c := ProposesHas(gap, reach, k, c1, k.r, Leader, 2, Second(k), 0, 0, y, 2);
  }

  lemma HandlesFailure(gap: Gap, reach: State -> bool, c: State, a: Addr, b: Addr, m: AppendRequest,
                       resp: AppendResponse) returns (c': State)
    requires Closed(gap, reach) && reach(c) && a in c.nodes && AppendReply(b, m, resp) in c.appendReplies
    requires m.leaderID == c.nodes[a].id
    requires !resp.success && resp.term <= c.nodes[a].term && 0 < resp.nextIndex < Lookup(c.nodes[a].nextIndex, b)
    ensures reach(c') && Steady(c, c') && Calm(c, c')
    ensures c'.nodes == c.nodes[a := c.nodes[a].(nextIndex := c.nodes[a].nextIndex[b := resp.nextIndex])]
  {
    c' := Take(gap, reach, c, RecvAppendReply(a, AppendReply(b, m, resp)));
  }

  lemma IsLowered(k: Cast, n: NodeState, a: Addr, t: nat, log: Entries, b: Addr)
    requires Is(k, n, a, Leader, t, log, 0, 0) && b != k.o
    ensures Is(k, n.(nextIndex := n.nextIndex[b := 1]), a, Leader, t, log, 0, 0)
  {
    var n' := n.(nextIndex := n.nextIndex[b := 1]);
    forall f ensures f != b ==> Lookup(n'.nextIndex, f) == Lookup(n.nextIndex, f) {
    }
  }

  /** `q`, which has nothing, rejects the first request, and `r` backs off to the beginning. */
  lemma PlayBackOff(gap: Gap, reach: State -> bool, k: Cast, y: Command, c0: State) returns (c: State)
    requires Four(k) && Full(gap, k) && Closed(gap, reach) && reach(c0) && Quiet(c0, 2) && k.p in c0.nodes
    requires Unacked(c0, k.q, 2, 0)
    requires Has(k, c0, k.q, Follower, 2, [SENTINEL], 0, 0) && Has(k, c0, k.r, Leader, 2, Other(k, y), 0, 0)
    requires Lookup(c0.nodes[k.r].nextIndex, k.q) == 3 && k.q in c0.nodes[k.r].members
    ensures reach(c) && Quiet(c, 2) && k.p in c.nodes && c.nodes[k.p] == c0.nodes[k.p] && Unacked(c, k.q, 2, 0)
    ensures Has(k, c, k.q, Follower, 2, [SENTINEL], 0, 0) && Has(k, c, k.r, Leader, 2, Other(k, y), 0, 0)
    ensures Lookup(c.nodes[k.r].nextIndex, k.q) == 1 && k.q in c.nodes[k.r].members
  {
    var m := Req(k.r, 2, Other(k, y), 3);
    var c1 := BeatsHas(gap, reach, k, c0, k.r, Leader, 2, Other(k, y), 0, 0, k.q, 3, 2);
    var c2 := Rejects(gap, reach, c1, k.q, m);
    IsFollowing(k, c1.nodes[k.q], k.q, Follower, 2, [SENTINEL], 0, 0, m, [SENTINEL]);
    assert Follows(c1.nodes[k.q], m).(log := [SENTINEL]) == Follows(c1.nodes[k.q], m);
    c := HandlesFailure(gap, reach, c2, k.r, k.q, m, AppendResponse(2, false, 1));
    IsLowered(k, c2.nodes[k.r], k.r, 2, Other(k, y), k.q);
  }

  /** Committing with the vote of one other voter applies the whole log. */
  lemma CommitsAll(k: Cast, n: NodeState, a: Addr, b: Addr, t: nat, log: Entries)
    requires Is(k, n, a, Leader, t, log, 0, 0) && b in k.vs && a != b && |log| > 1 && log[LastIndex(log)].term == t
    ensures MaybeAdvanceCommitIndex(Matched(n, b, LastIndex(log))).applied == log[1..]
  {
    var n1, i := Matched(n, b, LastIndex(log)), LastIndex(log);
    Supported(n1, a, b, k.vs, i);
    assert BestCommit(n1, i) == i;
    var n2 := n1.(commitIndex := i);
    assert log[1..1] == [];
    Keeping.ApplyCommittedApplies(n2);
    ApplyCommittedFrame(n2);
    assert log[1..i + 1] == log[1..];
  }

  /** `q` takes over the whole log of `r` ... */
  lemma PlayReplace(gap: Gap, reach: State -> bool, k: Cast, y: Command, c0: State) returns (c: State)
    requires Four(k) && Full(gap, k) && Closed(gap, reach) && reach(c0) && Quiet(c0, 2) && k.p in c0.nodes
    requires Has(k, c0, k.q, Follower, 2, [SENTINEL], 0, 0) && Has(k, c0, k.r, Leader, 2, Other(k, y), 0, 0)
    requires Lookup(c0.nodes[k.r].nextIndex, k.q) == 1 && k.q in c0.nodes[k.r].members && Unacked(c0, k.q, 2, 0)
    ensures reach(c) && k.p in c.nodes && c.nodes[k.p] == c0.nodes[k.p] && Has(k, c, k.r, Leader, 2, Other(k, y), 0, 0)
    ensures Success(k.q, Req(k.r, 2, Other(k, y), 1)) in c.appendReplies
  {
    var c1 := BeatsHas(gap, reach, k, c0, k.r, Leader, 2, Other(k, y), 0, 0, k.q, 1, 2);
    Replaced([SENTINEL], k.r, 2, Other(k, y));
    c := AcceptsHas(gap, reach, k, c1, k.q, Follower, 2, [SENTINEL], 0, 0, Req(k.r, 2, Other(k, y), 1), 2);
  }

  /** ... which makes two of three in the view of `r`. */
  lemma PlayTakeover(gap: Gap, reach: State -> bool, k: Cast, y: Command, c0: State) returns (c: State)
    requires Four(k) && Full(gap, k) && Closed(gap, reach) && reach(c0) && k.p in c0.nodes
    requires Has(k, c0, k.r, Leader, 2, Other(k, y), 0, 0)
    requires Success(k.q, Req(k.r, 2, Other(k, y), 1)) in c0.appendReplies
    ensures reach(c) && k.p in c.nodes && c.nodes[k.p] == c0.nodes[k.p]
    ensures k.r in c.nodes && c.nodes[k.r].applied == Other(k, y)[1..4]
  {
    CommitsAll(k, c0.nodes[k.r], k.r, k.q, 2, Other(k, y));
    c := HandlesSuccess(gap, reach, c0, k.r, k.q, Req(k.r, 2, Other(k, y), 1));
  }

  /** Two nodes have applied different entries at the same index. */
  ghost predicate Diverged(c: State, a: Addr, b: Addr) {
    a in c.nodes && b in c.nodes && !(c.nodes[a].applied <= c.nodes[b].applied)
      && !(c.nodes[b].applied <= c.nodes[a].applied)
  }

  /** From the first removal on: `p` ends up alone in its view and goes on committing. */
  lemma PlayRemovals(gap: Gap, reach: State -> bool, k: Cast, c0: State, ms: Members) returns (c: State)
    requires Four(k) && Full(gap, k) && Closed(gap, reach) && reach(c0) && Opening(k, c0, ms) && |k.vs| == 3
    ensures reach(c) && Quiet(c, 1) && k.p in c.nodes && c.nodes[k.p].applied == Third(k)[1..4]
    ensures Has(k, c, k.q, Follower, 1, [SENTINEL], 0, 0) && Has(k, c, k.r, Follower, 1, Second(k), 0, 0)
  {
    var c1 := PlayFirst(gap, reach, k, c0, ms);
    var ms1 := Removed(ms, Removal(k.q));
    RollWithout(ms, k.vs, k.q);
    assert k.vs - {k.q} == {k.p, k.r};
    c := PlayAlone(gap, reach, k, c1, ms1);
  }

  lemma PlayAlone(gap: Gap, reach: State -> bool, k: Cast, c0: State, ms: Members) returns (c: State)
    requires Four(k) && Full(gap, k) && Closed(gap, reach) && reach(c0) && Quiet(c0, 1) && Roll(ms, {k.p, k.r})
    requires |k.vs| == 3
    requires k.p in c0.nodes && Boss(k, c0.nodes[k.p], First(k), 1, ms, 2, 1) && (k.p, Beat(1, 0)) in c0.beats
    requires Has(k, c0, k.q, Follower, 1, [SENTINEL], 0, 0) && Has(k, c0, k.r, Follower, 1, First(k), 0, 0)
    requires Unacked(c0, k.r, 1, 1)
    ensures reach(c) && Quiet(c, 1) && k.p in c.nodes && c.nodes[k.p].applied == Third(k)[1..4]
    ensures Has(k, c, k.q, Follower, 1, [SENTINEL], 0, 0) && Has(k, c, k.r, Follower, 1, Second(k), 0, 0)
  {
    var c1 := PlaySecond(gap, reach, k, c0, ms);
    RollWithout(ms, {k.p, k.r}, k.r);
    assert {k.p, k.r} - {k.r} == {k.p};
    c := PlayThird(gap, reach, k, c1, Removed(ms, Removal(k.r)));
  }

  lemma PlayDivergence(gap: Gap, reach: State -> bool, k: Cast, y: Command, c0: State) returns (c: State)
    requires Four(k) && MayFollow(gap, y) && Full(gap, k) && Closed(gap, reach) && reach(c0) && SceneZero(k, c0)
    requires |k.vs| == 3
    ensures reach(c) && Diverged(c, k.p, k.r)
  {
    var c0', ms := PlayOpening(gap, reach, k, c0);
    var c1 := PlayRemovals(gap, reach, k, c0', ms);
    c := PlayUsurpation(gap, reach, k, y, c1);
  }

  lemma PlayUsurpation(gap: Gap, reach: State -> bool, k: Cast, y: Command, c0: State) returns (c: State)
    requires Four(k) && MayFollow(gap, y) && Full(gap, k) && Closed(gap, reach) && reach(c0) && Quiet(c0, 1)
    requires k.p in c0.nodes && c0.nodes[k.p].applied == Third(k)[1..4]
    requires Has(k, c0, k.q, Follower, 1, [SENTINEL], 0, 0) && Has(k, c0, k.r, Follower, 1, Second(k), 0, 0)
    ensures reach(c) && Diverged(c, k.p, k.r)
  {
    var c2 := PlaySuccessor(gap, reach, k, y, c0);
    assert k.q in c2.nodes[k.r].members by { assert k.q in Membership.VoterIDs(c2.nodes[k.r].members); }
    var c3 := PlayBackOff(gap, reach, k, y, c2);
    var c4 := PlayReplace(gap, reach, k, y, c3);
    c := PlayTakeover(gap, reach, k, y, c4);
    assert Third(k)[1..4][2] == Third(k)[3] && Other(k, y)[1..4][2] == Other(k, y)[3];
  }

  lemma Diverges(gap: Gap, k: Cast, y: Command)
    requires Four(k) && Full(gap, k) && MayFollow(gap, y)
    ensures exists c :: Reaches(Start(k), c, Rule(gap)) && Diverged(c, k.p, k.r)
  {
    ThreeVoters(k);
    ReachClosed(gap, Start(k));
    StartIsSceneZero(k);
    var c := PlayDivergence(gap, Reach(gap, Start(k)), k, y, Start(k));
  }

  /** The bound on pending entries is tight: in every dynamic cluster of three voters, under the rule of dynamic
      clusters with two instead of one and under all other rules, a run that appends membership entries only ends with
      two nodes
      that have applied different entries at the same index. */
  lemma PendingBoundIsTight(k: Cast)
    requires Four(k)
    ensures exists c :: Reaches(Start(k), c, Rule(Pending(k.vs, 2))) && Diverged(c, k.p, k.r)
  {
    Diverges(Pending(k.vs, 2), k, Y);
  }

  /** Nor does it help that a leader has only one membership change under way at a time. */
  lemma OneChangeAtATimeIsNotEnough(k: Cast)
    requires Four(k)
    ensures exists c :: Reaches(Start(k), c, Rule(OneAtATime(k.vs, 2))) && Diverged(c, k.p, k.r)
  {
    Diverges(OneAtATime(k.vs, 2), k, Data("y"));
  }

  /** Under the rule of dynamic clusters and all others changes do go through: a leader removes both other voters, one
      after the other, and then adds a new one. */
  lemma ChangesGoThrough(k: Cast)
    requires Four(k)
    ensures exists c ::
      Reaches(Start(k), c, Rule(Pending(k.vs, 1))) && k.p in c.nodes && c.nodes[k.p].applied == Third(k)[1..4]
  {
    var gap, reach := Pending(k.vs, 1), Reach(Pending(k.vs, 1), Start(k));
    ThreeVoters(k);
    ReachClosed(gap, Start(k));
    StartIsSceneZero(k);
    var c1, ms := PlayOpening(gap, reach, k, Start(k));
    var c := PlayRemovals(gap, reach, k, c1, ms);
  }
}
