/** The voter set of one node, and what majorities of it guarantee. */
module Membership {
  import opened RaftTypes

  // ----- operations on the member map -----

  function AddVoter(ms: Members, id: NodeID, addr: Addr): Members {
    ms[id := Member(id, addr, Voter)]
  }

  function AddObserver(ms: Members, id: NodeID, addr: Addr): Members {
    if id in ms then ms else ms[id := Member(id, addr, Observer)]
  }

  function Remove(ms: Members, id: NodeID): Members { ms - {id} }

  /** `pick` is a member that UpdateID would rename. */
  predicate Renamable(ms: Members, addr: Addr, realID: NodeID, pick: NodeID) {
    pick in ms && ms[pick].addr == addr && pick != realID
  }

  /** `pick` is a possible outcome of UpdateID's scan over the map, whose order is arbitrary: a
      renamable member, or anything at all when there is none. */
  ghost predicate ValidPick(ms: Members, addr: Addr, realID: NodeID, pick: NodeID) {
    Renamable(ms, addr, realID, pick) || forall id :: !Renamable(ms, addr, realID, id)
  }

  function UpdateID(ms: Members, addr: Addr, realID: NodeID, pick: NodeID): Members {
    if Renamable(ms, addr, realID, pick)
    then (ms - {pick})[realID := ms[pick].(id := realID)]
    else ms
  }

  // ----- what is read from it -----

  function VoterIDs(ms: Members): set<NodeID> { set id | id in ms && ms[id].kind == Voter }

  function VoterAddrs(ms: Members): set<Addr> { set id | id in VoterIDs(ms) :: ms[id].addr }

  /** Addresses of the voters other than `self`. */
  function PeerVoters(ms: Members, self: NodeID): set<Addr> {
    set id | id in VoterIDs(ms) && id != self :: ms[id].addr
  }

  /** Addresses of all members other than `self`. */
  function PeerAddrs(ms: Members, self: NodeID): set<Addr> {
    set id | id in ms && id != self && ms[id].addr != "" :: ms[id].addr
  }

  function QuorumSize(ms: Members): nat { |VoterIDs(ms)| / 2 + 1 }

  predicate UniqueAddrs(ms: Members) {
    forall i, j :: i in ms && j in ms && ms[i].addr == ms[j].addr ==> i == j
  }

  /** Every record carries the ID it is stored under. */
  predicate KeyedByID(ms: Members) { forall id :: id in ms ==> ms[id].id == id }

  // ----- set facts -----

  lemma {:induction false} SubsetSize<T>(a: set<T>, b: set<T>)
    requires a <= b
    ensures |a| <= |b|
  {
    assert b == a + (b - a);
  }

  lemma {:induction false} InjectiveImageSize<S, T>(xs: set<S>, f: S -> T, ys: set<T>)
    requires forall x, y :: x in xs && y in xs && f(x) == f(y) ==> x == y
    requires ys == set x | x in xs :: f(x)
    ensures |ys| == |xs|
  {
    if xs != {} {
      var x :| x in xs;
      var xs' := xs - {x};
      var ys' := set y | y in xs' :: f(y);
      assert ys == ys' + {f(x)};
      assert f(x) !in ys';
      InjectiveImageSize(xs', f, ys');
    }
  }

  /** Two sets too large to be disjoint within their common universe share an element. */
  lemma Overlap<T>(q: set<T>, r: set<T>, universe: set<T>)
    requires q <= universe && r <= universe
    requires |q| + |r| > |universe|
    ensures exists v :: v in q && v in r
  {
    SubsetSize(q + r, universe);
    assert |q + r| == |q| + |r| - |q * r|;
    var v :| v in q * r;
  }

  /** Majorities of two sets that differ in at most the element `x` share an element. */
  lemma NeighbouringMajoritiesOverlap<T>(before: set<T>, after: set<T>, x: T, q: set<T>, r: set<T>)
    requires before - {x} == after - {x}
    requires q <= before && |q| > |before| / 2
    requires r <= after && |r| > |after| / 2
    ensures exists v :: v in q && v in r
  {
    var common := before - {x};
    assert before == common || before == common + {x};
    assert after == common || after == common + {x};
    assert |common + {x}| == |common| + 1;
    var universe := before + after;
    assert universe == before || universe == after;
    Overlap(q, r, universe);
  }

  // ----- changing one member at a time -----

  /** `q` is enough of the voters of `ms` to elect or commit. */
  predicate IsQuorum(q: set<NodeID>, ms: Members) {
    q <= VoterIDs(ms) && |q| >= QuorumSize(ms)
  }

  /** The effect of one committed membership entry on the member map. */
  function ApplyChange(ms: Members, mc: MembershipChange): Members {
    match mc.action
    case ActionAddVoter => AddVoter(ms, mc.nodeID, mc.addr)
    case ActionRemoveVoter => Remove(ms, mc.nodeID)
    case ActionUnknown => ms
  }

  /** Every majority before one applied change meets every majority after it. */
  lemma SingleChangeQuorumsOverlap(ms: Members, mc: MembershipChange, q: set<NodeID>, r: set<NodeID>)
    requires IsQuorum(q, ms) && IsQuorum(r, ApplyChange(ms, mc))
    ensures exists v :: v in q && v in r
  {
    var before, after := VoterIDs(ms), VoterIDs(ApplyChange(ms, mc));
    assert before - {mc.nodeID} == after - {mc.nodeID};
    NeighbouringMajoritiesOverlap(before, after, mc.nodeID, q, r);
  }

  lemma VoterAdded(ms: Members, id: NodeID, addr: Addr)
    ensures VoterIDs(AddVoter(ms, id, addr)) == VoterIDs(ms) + {id}
  {
  }

  /** Two changes at once can give disjoint majorities: growing three voters to five. */
  lemma TwoChangesCanSplit()
    returns (ms: Members, a: MembershipChange, b: MembershipChange, q: set<NodeID>, r: set<NodeID>)
    ensures IsQuorum(q, ms) && IsQuorum(r, ApplyChange(ApplyChange(ms, a), b))
    ensures q !! r
  {
    var one := AddVoter(map[], "a", "a");
    var two := AddVoter(one, "b", "b");
    ms := AddVoter(two, "c", "c");
    a := MembershipChange(ActionAddVoter, "d", "d");
    b := MembershipChange(ActionAddVoter, "e", "e");
    q, r := {"a", "b"}, {"c", "d", "e"};
    VoterAdded(map[], "a", "a");
    VoterAdded(one, "b", "b");
    VoterAdded(two, "c", "c");
    VoterAdded(ms, "d", "d");
    VoterAdded(AddVoter(ms, "d", "d"), "e", "e");
    assert VoterIDs(ms) == {"a", "b", "c"} && VoterIDs(ApplyChange(ApplyChange(ms, a), b)) == q + r;
  }

  // ----- what leaves the voters alone -----

  lemma AddObserverKeepsVoters(ms: Members, id: NodeID, addr: Addr)
    ensures var after := AddObserver(ms, id, addr);
      VoterIDs(after) == VoterIDs(ms) && VoterAddrs(after) == VoterAddrs(ms) && QuorumSize(after) == QuorumSize(ms)
  {
    var after := AddObserver(ms, id, addr);
    assert VoterIDs(after) == VoterIDs(ms);
    assert forall v :: v in VoterIDs(ms) ==> after[v] == ms[v];
  }

  /** UpdateID is about to overwrite the record of a voter other than the one it renames. */
  predicate OverwritesVoter(ms: Members, addr: Addr, realID: NodeID, pick: NodeID) {
    Renamable(ms, addr, realID, pick) && realID in ms && ms[realID].kind == Voter
  }

  /** With unique addresses, UpdateID leaves the voter addresses and the quorum alone exactly when
      the real ID does not already belong to another voter; otherwise one voter is lost. */
  lemma UpdateIDKeepsVotersIff(ms: Members, addr: Addr, realID: NodeID, pick: NodeID)
    requires UniqueAddrs(ms)
    ensures var after := UpdateID(ms, addr, realID, pick);
      && UniqueAddrs(after)
      && (VoterAddrs(after) == VoterAddrs(ms) <==> !OverwritesVoter(ms, addr, realID, pick))
      && |VoterIDs(after)| == |VoterIDs(ms)| - (if OverwritesVoter(ms, addr, realID, pick) then 1 else 0)
  {
    if Renamable(ms, addr, realID, pick) {
      RenameVoterAddrs(ms, realID, pick);
      RenameVoterCount(ms, realID, pick);
      if OverwritesVoter(ms, addr, realID, pick) {
        assert ms[realID].addr in VoterAddrs(ms);
      }
    }
  }

  lemma RenameVoterCount(ms: Members, realID: NodeID, pick: NodeID)
    requires pick in ms && pick != realID
    ensures var after := (ms - {pick})[realID := ms[pick].(id := realID)];
      |VoterIDs(after)| == |VoterIDs(ms)| - (if realID in ms && ms[realID].kind == Voter then 1 else 0)
  {
    var after := (ms - {pick})[realID := ms[pick].(id := realID)];
    if ms[pick].kind == Voter {
      assert VoterIDs(after) == VoterIDs(ms) - {pick} - {realID} + {realID};
    } else {
      assert VoterIDs(after) == VoterIDs(ms) - {realID};
    }
  }

  lemma RenameVoterAddrs(ms: Members, realID: NodeID, pick: NodeID)
    requires UniqueAddrs(ms) && pick in ms && pick != realID
    ensures var after := (ms - {pick})[realID := ms[pick].(id := realID)];
      VoterAddrs(after) ==
        if realID in ms && ms[realID].kind == Voter then VoterAddrs(ms) - {ms[realID].addr} else VoterAddrs(ms)
  {
    var after := (ms - {pick})[realID := ms[pick].(id := realID)];
    forall a | a in VoterAddrs(ms) && !(realID in ms && ms[realID].kind == Voter && a == ms[realID].addr)
      ensures a in VoterAddrs(after)
    {
      var id :| id in VoterIDs(ms) && ms[id].addr == a;
      var id' := if id == pick then realID else id;
      assert id' in VoterIDs(after) && after[id'].addr == a;
    }
    forall a | a in VoterAddrs(after)
      ensures a in VoterAddrs(ms) && !(realID in ms && ms[realID].kind == Voter && a == ms[realID].addr)
    {
      var id' :| id' in VoterIDs(after) && after[id'].addr == a;
      var id := if id' == realID then pick else id';
      assert id in VoterIDs(ms) && ms[id].addr == a;
    }
  }
}
