/** The voter set that a log prefix stands for, and how far apart two prefixes can be. */
module Configs {
  import opened RaftTypes
  import opened RaftNode
  import Membership
  import LogMatching

  type Log = seq<LogEntry>

  /** The voters after one more applied entry. */
  function Turn(voters: set<NodeID>, e: LogEntry): set<NodeID> {
    if !e.command.Membership? then voters
    else match e.command.change.action
      case ActionAddVoter => voters + {e.command.change.nodeID}
      case ActionRemoveVoter => voters - {e.command.change.nodeID}
      case ActionUnknown => voters
  }

  /** The voters once the log is applied through `i`; the sentinel is never applied. */
  function VotersAt(v0: set<NodeID>, log: Log, i: nat): set<NodeID>
    requires i < |log|
  {
    if i == 0 then v0 else Turn(VotersAt(v0, log, i - 1), log[i])
  }

  /** The number of membership entries after `i`, through `j`. */
  function Changes(log: Log, i: nat, j: nat): nat
    requires j < |log|
  {
    if j <= i then 0 else Changes(log, i, j - 1) + if log[j].command.Membership? then 1 else 0
  }

  // ----- prefixes that agree -----

  lemma {:induction false} SameVoters(v0: set<NodeID>, x: Log, y: Log, i: nat)
    requires LogMatching.Agree(x, y, i)
    ensures VotersAt(v0, x, i) == VotersAt(v0, y, i)
  {
    if i > 0 {
      assert x[..i] == x[..i + 1][..i] == y[..i + 1][..i] == y[..i];
      SameVoters(v0, x, y, i - 1);
      assert x[i] == x[..i + 1][i] == y[..i + 1][i] == y[i];
    }
  }

  lemma {:induction false} SameChanges(x: Log, y: Log, i: nat, j: nat)
    requires LogMatching.Agree(x, y, j)
    ensures Changes(x, i, j) == Changes(y, i, j)
  {
    if j > i {
      assert x[..j] == x[..j + 1][..j] == y[..j + 1][..j] == y[..j];
      SameChanges(x, y, i, j - 1);
      assert x[j] == x[..j + 1][j] == y[..j + 1][j] == y[j];
    }
  }

  lemma {:induction false} ChangesSplit(log: Log, i: nat, j: nat, k: nat)
    requires i <= j <= k < |log|
    ensures Changes(log, i, k) == Changes(log, i, j) + Changes(log, j, k)
  {
    if j < k {
      ChangesSplit(log, i, j, k - 1);
    }
  }

  lemma {:induction false} FewerChanges(log: Log, i: nat, k: nat, j: nat)
    requires i <= k && j < |log|
    ensures Changes(log, k, j) <= Changes(log, i, j)
  {
    if j > i {
      FewerChanges(log, i, k, j - 1);
    }
  }

  // ----- at most one change apart -----

  /** The two sets are equal, or one has a single element more. */
  ghost predicate Neighbours(x: set<NodeID>, y: set<NodeID>) { exists id :: x - {id} == y - {id} }

  lemma NeighboursBack(x: set<NodeID>, y: set<NodeID>)
    requires Neighbours(x, y)
    ensures Neighbours(y, x)
  {
    var id :| x - {id} == y - {id};
    assert y - {id} == x - {id};
  }

  lemma {:induction false} StillThere(v0: set<NodeID>, log: Log, i: nat, j: nat)
    requires i <= j < |log| && Changes(log, i, j) == 0
    ensures VotersAt(v0, log, i) == VotersAt(v0, log, j)
  {
    if i < j {
      StillThere(v0, log, i, j - 1);
    }
  }

  /** With at most one membership entry in between, the voters of two prefixes are neighbours. */
  lemma {:induction false} OneChangeApart(v0: set<NodeID>, log: Log, i: nat, j: nat)
    requires i <= j < |log| && Changes(log, i, j) <= 1
    ensures Neighbours(VotersAt(v0, log, i), VotersAt(v0, log, j))
  {
    if i == j {
      assert VotersAt(v0, log, i) - {""} == VotersAt(v0, log, j) - {""};
    } else if log[j].command.Membership? {
      StillThere(v0, log, i, j - 1);
      var id := log[j].command.change.nodeID;
      assert VotersAt(v0, log, j - 1) - {id} == VotersAt(v0, log, j) - {id};
    } else {
      OneChangeApart(v0, log, i, j - 1);
    }
  }

  /** Enough of `voters` to elect or commit. */
  predicate MajorityOf(q: set<NodeID>, voters: set<NodeID>) { q <= voters && |q| > |voters| / 2 }

  lemma NeighboursMeet(x: set<NodeID>, y: set<NodeID>, q: set<NodeID>, r: set<NodeID>)
    requires Neighbours(x, y) && MajorityOf(q, x) && MajorityOf(r, y)
    ensures exists v :: v in q && v in r
  {
    var id :| x - {id} == y - {id};
    Membership.NeighbouringMajoritiesOverlap(x, y, id, q, r);
  }

  // ----- a node's own view -----

  /** All members are recorded under their addresses. */
  predicate ByAddress(ms: Members) { forall id :: id in ms ==> ms[id].id == id && ms[id].addr == id }

  /** Voters are added under their addresses. */
  predicate PlainEntry(e: LogEntry) {
    e.command.Membership? && e.command.change.action.ActionAddVoter? ==>
      e.command.change.nodeID == e.command.change.addr
  }

  predicate PlainLog(log: Log) { forall i :: 0 <= i < |log| ==> PlainEntry(log[i]) }

  /** The voters the node knows are those of the part of its log it has applied, starting from `v`. */
  predicate Seated(v: set<NodeID>, n: NodeState) {
    n.lastApplied < |n.log| && Membership.VoterIDs(n.members) == VotersAt(v, n.log, n.lastApplied)
  }

  lemma PeersByAddress(ms: Members, a: Addr)
    requires ByAddress(ms)
    ensures Membership.PeerVoters(ms, a) == Membership.VoterIDs(ms) - {a}
  {
    forall v | v in Membership.VoterIDs(ms) - {a} ensures v in Membership.PeerVoters(ms, a) {
      assert ms[v].addr == v;
    }
  }

  lemma ChangeSeats(ms: Members, e: LogEntry)
    requires ByAddress(ms) && PlainEntry(e) && e.command.Membership?
    ensures ByAddress(Membership.ApplyChange(ms, e.command.change))
    ensures Membership.VoterIDs(Membership.ApplyChange(ms, e.command.change)) == Turn(Membership.VoterIDs(ms), e)
  {
  }

  lemma ApplyEntrySeats(v: set<NodeID>, n: NodeState)
    requires ByAddress(n.members) && PlainLog(n.log) && n.lastApplied + 1 < |n.log| && Seated(v, n)
    ensures var n' := ApplyEntry(n.(lastApplied := n.lastApplied + 1)); ByAddress(n'.members) && Seated(v, n')
  {
    var e := n.log[n.lastApplied + 1];
    if e.command.Membership? {
      ChangeSeats(n.members, e);
    }
  }

  /** Applying keeps the view in step with the log. */
  lemma {:induction false} ApplySeats(v: set<NodeID>, n: NodeState)
    requires ByAddress(n.members) && PlainLog(n.log) && n.lastApplied <= n.commitIndex < |n.log| && Seated(v, n)
    ensures ByAddress(ApplyCommitted(n).members) && Seated(v, ApplyCommitted(n))
    decreases n.commitIndex - n.lastApplied
  {
    if n.lastApplied < n.commitIndex {
      ApplyEntryFrame(n.(lastApplied := n.lastApplied + 1));
      ApplyEntrySeats(v, n);
      ApplySeats(v, ApplyEntry(n.(lastApplied := n.lastApplied + 1)));
    }
  }

  /** A leader that applies its own removal steps down; otherwise it goes on voting. */
  lemma {:induction false} LeaderVotes(n: NodeState)
    requires n.id in Membership.VoterIDs(n.members)
    ensures ApplyCommitted(n).role == Leader ==> n.id in Membership.VoterIDs(ApplyCommitted(n).members)
    decreases n.commitIndex - n.lastApplied
  {
    if n.lastApplied < n.commitIndex {
      var n1 := n.(lastApplied := n.lastApplied + 1);
      ApplyEntryFrame(n1);
      if n.id in Membership.VoterIDs(ApplyEntry(n1).members) {
        LeaderVotes(ApplyEntry(n1));
      } else {
        assert ApplyEntry(n1).role == Follower;
        ApplyCommittedFrame(ApplyEntry(n1));
      }
    }
  }

  /** An entry that adds or removes `id`. */
  predicate Names(e: LogEntry, id: NodeID) {
    e.command.Membership? && !e.command.change.action.ActionUnknown? && e.command.change.nodeID == id
  }

  /** A node that counts itself among the initial voters is right from the first entry on that names it. */
  lemma {:induction false} NamedOnce(v0: set<NodeID>, id: NodeID, log: Log, i: nat)
    requires i < |log|
    ensures VotersAt(v0 + {id}, log, i) - {id} == VotersAt(v0, log, i) - {id}
    ensures (id in v0 || exists p :: 0 < p <= i && Names(log[p], id)) ==>
      VotersAt(v0 + {id}, log, i) == VotersAt(v0, log, i)
  {
    if i == 0 {
      assert (v0 + {id}) - {id} == v0 - {id};
      assert id in v0 ==> v0 + {id} == v0;
    } else {
      NamedOnce(v0, id, log, i - 1);
      TurnApart(VotersAt(v0 + {id}, log, i - 1), VotersAt(v0, log, i - 1), log[i], id);
    }
  }

  lemma TurnApart(x: set<NodeID>, y: set<NodeID>, e: LogEntry, id: NodeID)
    requires x - {id} == y - {id}
    ensures Turn(x, e) - {id} == Turn(y, e) - {id}
    ensures Names(e, id) ==> Turn(x, e) == Turn(y, e)
  {
    forall z ensures z in Turn(x, e) - {id} <==> z in Turn(y, e) - {id} {
      assert z in x - {id} <==> z in y - {id};
    }
    if Names(e, id) {
      forall z ensures z in Turn(x, e) <==> z in Turn(y, e) {
        assert z in x - {id} <==> z in y - {id};
      }
    }
  }
}
