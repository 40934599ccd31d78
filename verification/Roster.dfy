/** The records of the voters over whole runs: which address a leader sends to. */
module Roster {
  import opened RaftTypes
  import opened RaftNode
  import opened Cluster
  import opened MembershipRuns
  import Membership
  import Configs

  /** The `p`-th of the entries is the last one that adds or removes `id`. */
  predicate NamesLast(es: seq<LogEntry>, id: NodeID, p: nat) {
    p < |es| && Configs.Names(es[p], id) && forall q :: p < q < |es| ==> !Configs.Names(es[q], id)
  }

  predicate Unnamed(es: seq<LogEntry>, id: NodeID) { forall q :: 0 <= q < |es| ==> !Configs.Names(es[q], id) }

  /** What a last entry `e` that names `id` leaves under it. */
  predicate AsSaid(v: Members, id: NodeID, e: LogEntry)
    requires e.command.Membership?
  {
    var mc := e.command.change;
    if mc.action.ActionAddVoter? then id in v && v[id] == Member(id, mc.addr, Voter) else id !in v
  }

  predicate SameRecord(v: Members, v': Members, id: NodeID) {
    (id in v' <==> id in v) && (id in v ==> v'[id] == v[id])
  }

  lemma EntrySays(v: Members, e: LogEntry, id: NodeID)
    ensures if Configs.Names(e, id) then AsSaid(ApplyTo(v, e), id, e) else SameRecord(v, ApplyTo(v, e), id)
  {
  }

  /** Folding voters over entries leaves under each ID what the last entry that names it says. */
  lemma {:induction false} FoldSays(v: Members, es: seq<LogEntry>, id: NodeID)
    ensures Unnamed(es, id) ==> SameRecord(v, Fold(v, es), id)
    ensures forall p: nat {:trigger NamesLast(es, id, p)} :: NamesLast(es, id, p) ==> AsSaid(Fold(v, es), id, es[p])
  {
    if es != [] {
      var n := |es| - 1;
      FoldSays(v, es[..n], id);
      EntrySays(Fold(v, es[..n]), es[n], id);
      forall p: nat | NamesLast(es, id, p) ensures AsSaid(Fold(v, es), id, es[p]) {
        if p < n {
          assert forall q :: p < q < n ==> es[..n][q] == es[q];
          assert NamesLast(es[..n], id, p) && !Configs.Names(es[n], id);
        }
      }
      if Unnamed(es, id) {
        assert forall q :: 0 <= q < n ==> es[..n][q] == es[q];
        assert Unnamed(es[..n], id) && !Configs.Names(es[n], id);
      }
    }
  }

  /** The entries that `a` has applied since `c`, and its members in the end. */
  ghost function Since(c: State, steps: seq<Step>, a: Addr): seq<LogEntry>
    requires Run(c, steps, RealIDs) && a in c.nodes && a in After(c, steps, RealIDs).nodes
    requires |c.nodes[a].applied| <= |After(c, steps, RealIDs).nodes[a].applied|
  {
    After(c, steps, RealIDs).nodes[a].applied[|c.nodes[a].applied|..]
  }

  /** From any state, over any run that renames no voter: the voters that `a` knows, and their addresses, are what the
      entries it has applied since say. Whoever an AddVoter entry names last is a voter at that entry's address; whoever
      a RemoveVoter entry names last is none; whoever is not named is recorded as before. */
  lemma VotersAreAsApplied(c: State, steps: seq<Step>, a: Addr, id: NodeID)
    requires Run(c, steps, RealIDs) && a in c.nodes
    ensures a in After(c, steps, RealIDs).nodes
    ensures |c.nodes[a].applied| <= |After(c, steps, RealIDs).nodes[a].applied|
    ensures var ms, ms', es := c.nodes[a].members, After(c, steps, RealIDs).nodes[a].members, Since(c, steps, a);
      && (forall p: nat {:trigger NamesLast(es, id, p)} :: NamesLast(es, id, p) ==>
            var mc := es[p].command.change;
            if mc.action.ActionAddVoter? then id in ms' && ms'[id] == Member(id, mc.addr, Voter)
            else id !in Membership.VoterIDs(ms'))
      && (Unnamed(es, id) ==>
            && (id in Membership.VoterIDs(ms') <==> id in Membership.VoterIDs(ms))
            && (id in Membership.VoterIDs(ms) ==> ms'[id] == ms[id]))
  {
    AppliedMembershipIsAFold(c, steps, a);
    var v, v' := VoterPart(c.nodes[a].members), VoterPart(After(c, steps, RealIDs).nodes[a].members);
    FoldSays(v, Since(c, steps, a), id);
    assert id in v' <==> id in Membership.VoterIDs(After(c, steps, RealIDs).nodes[a].members);
    assert id in v <==> id in Membership.VoterIDs(c.nodes[a].members);
  }

  /** So a node that has applied the admission of another voter asks it for its vote, and sends to it, at the address
      that was given. */
  lemma AddedVoterIsReached(c: State, steps: seq<Step>, a: Addr, id: NodeID, p: nat)
    requires Run(c, steps, RealIDs) && a in c.nodes && a in After(c, steps, RealIDs).nodes
    requires |c.nodes[a].applied| <= |After(c, steps, RealIDs).nodes[a].applied|
    requires NamesLast(Since(c, steps, a), id, p) && Since(c, steps, a)[p].command.change.action.ActionAddVoter?
    requires id != After(c, steps, RealIDs).nodes[a].id && Since(c, steps, a)[p].command.change.addr != ""
    ensures var n, addr := After(c, steps, RealIDs).nodes[a], Since(c, steps, a)[p].command.change.addr;
      addr in Membership.PeerVoters(n.members, n.id) && addr in Membership.PeerAddrs(n.members, n.id)
  {
    VotersAreAsApplied(c, steps, a, id);
    var n := After(c, steps, RealIDs).nodes[a];
    assert id in Membership.VoterIDs(n.members) && n.members[id].addr == Since(c, steps, a)[p].command.change.addr;
  }

  /** A new node knows itself and its peers as voters, the peers by their addresses, and nobody else; it follows in term
      0 and has voted for nobody. A peer whose address is its own ID takes the place of its own record. */
  lemma NewNodeKnows(self: NodeID, addr: Addr, mode: Mode, peers: set<Addr>, id: NodeID)
    ensures var n := NewNode(self, addr, mode, peers);
      && (id in n.members <==> id == self || id in peers)
      && (id in peers ==> n.members[id] == Member(id, id, Voter))
      && (id == self && id !in peers ==> n.members[id] == Member(self, addr, Voter))
      && n.id == self && n.addr == addr && n.role == Follower && n.term == 0 && n.votedFor == "" && n.log == [SENTINEL]
      && n.commitIndex == n.lastApplied == 0 && n.applied == [] && n.leaderID == n.leaderAddr == ""
  {
  }

  // ----- renaming -----

  /** After a node has handled a current request it knows the leader by its real ID: if its members had different
      addresses, nobody else is recorded at the leader's, and whoever was is now recorded under that ID, as voter or
      observer as before. Members at other addresses keep their records, unless the ID was theirs. */
  lemma LeaderIsKnown(n: NodeState, req: AppendRequest, pick: NodeID, id: NodeID)
    requires req.term >= n.term && req.leaderID != "" && req.leaderAddr != "" && Membership.KeyedByID(n.members)
    requires Membership.UniqueAddrs(n.members) && Membership.ValidPick(n.members, req.leaderAddr, req.leaderID, pick)
    ensures var ms := FollowLeader(n, req, pick).members;
      && (id in ms && ms[id].addr == req.leaderAddr ==> id == req.leaderID)
      && (id in n.members && n.members[id].addr == req.leaderAddr ==>
            req.leaderID in ms && ms[req.leaderID] == Member(req.leaderID, req.leaderAddr, n.members[id].kind))
      && (id in n.members && id != req.leaderID && n.members[id].addr != req.leaderAddr ==>
            id in ms && ms[id] == n.members[id])
  {
    assert Membership.Renamable(n.members, req.leaderAddr, req.leaderID, id) ==> pick == id;
  }
}
