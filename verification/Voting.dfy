/** Who gets a vote, and what a refusal tells the one who asked for it. */
module Voting {
  import opened RaftTypes
  import opened RaftNode
  import opened Cluster
  import Membership
  import Safety
  import Election

  /** The end of a log: the term of its last entry counts first, then the index. */
  datatype End = End(term: nat, index: nat)

  function EndOf(log: Entries): End { End(log[|log| - 1].term, |log| - 1) }

  predicate Before(x: End, y: End) { x.term < y.term || (x.term == y.term && x.index < y.index) }

  // ----- one vote -----

  /** A vote is granted if and only if the request is not stale, the node has not voted for anyone else in its term,
      and the claimed end is not before the end of the node's own log. */
  lemma GrantedIff(n: NodeState, req: VoteRequest)
    ensures HandleVoteRequest(n, req).1.granted <==>
      && req.term >= n.term
      && (req.term == n.term ==> n.votedFor in {"", req.candidateID})
      && !Before(End(req.lastLogTerm, req.lastLogIndex), EndOf(n.log))
  {
  }

  /** A request that is not stale brings the node into its term, as a follower if the term is new; a vote, once given
      in a term, stays. Nothing else about the node changes. */
  lemma VoteEffects(n: NodeState, req: VoteRequest)
    ensures var (n', resp) := HandleVoteRequest(n, req);
      && n' == n.(term := n'.term, role := n'.role, votedFor := n'.votedFor)
      && n'.term == (if req.term > n.term then req.term else n.term)
      && (req.term <= n.term ==> n'.role == n.role) && (req.term > n.term ==> n'.role == Follower)
      && (resp.granted ==> n'.votedFor == req.candidateID && resp.term == req.term)
      && (!resp.granted ==> n'.votedFor == (if req.term > n.term then "" else n.votedFor) && resp.term == n.term)
  {
  }

  /** Asking again changes nothing: a vote is granted to the same candidate every time, with the same answer. */
  lemma VotesAreRepeatable(n: NodeState, req: VoteRequest)
    requires HandleVoteRequest(n, req).1.granted
    ensures var (n', resp) := HandleVoteRequest(n, req); HandleVoteRequest(n', req) == (n', resp)
  {
  }

  /** A candidate that a node of a later term refuses as stale becomes a follower in that term, without a vote, and
      the node that refused is untouched. */
  lemma StaleCandidateStepsDown(a: NodeState, v: NodeState, req: VoteRequest)
    requires req.term <= a.term < v.term
    ensures var (v', resp) := HandleVoteRequest(v, req);
      && v' == v && !resp.granted
      && NoticeTerm(a, resp.term) == a.(role := Follower, term := v.term, votedFor := "")
  {
  }

  /** No other answer makes a candidate in the request's term step down. */
  lemma CurrentCandidateStays(a: NodeState, v: NodeState, req: VoteRequest)
    requires req.term == a.term >= v.term
    ensures NoticeTerm(a, HandleVoteRequest(v, req).1.term) == a
  {
  }

  // ----- somebody can always be elected -----

  /** `v` would vote for `a` in a campaign of `a` in term `t`. */
  predicate WouldVote(v: NodeState, a: NodeState, t: nat) { HandleVoteRequest(v, MakeVoteRequest(a, t)).1.granted }

  lemma WouldVoteIff(v: NodeState, a: NodeState, t: nat)
    requires t > v.term
    ensures WouldVote(v, a, t) <==> !Before(EndOf(a.log), EndOf(v.log))
  {
    GrantedIff(v, MakeVoteRequest(a, t));
  }

  /** Of two nodes at least one would vote for the other in a new term. */
  lemma OneOfTwoVotes(x: NodeState, y: NodeState, t: nat)
    requires t > x.term && t > y.term
    ensures WouldVote(x, y, t) || WouldVote(y, x, t)
  {
    WouldVoteIff(x, y, t);
    WouldVoteIff(y, x, t);
  }

  lemma VotesChain(x: NodeState, y: NodeState, z: NodeState, t: nat)
    requires t > x.term && t > y.term && WouldVote(x, y, t) && WouldVote(y, z, t)
    ensures WouldVote(x, z, t)
  {
    WouldVoteIff(x, y, t);
    WouldVoteIff(y, z, t);
    WouldVoteIff(x, z, t);
  }

  /** Among any nodes there is one for which all of them would vote in a new term. */
  lemma {:induction false} SomebodyFitsAll(ns: set<NodeState>, t: nat) returns (a: NodeState)
    requires ns != {} && forall n :: n in ns ==> n.term < t
    ensures a in ns && forall v :: v in ns ==> WouldVote(v, a, t)
  {
    var x :| x in ns;
    WouldVoteIff(x, x, t);
    if ns == {x} {
      a := x;
    } else {
      var b := SomebodyFitsAll(ns - {x}, t);
      OneOfTwoVotes(x, b, t);
      a := if WouldVote(x, b, t) then b else x;
      forall v | v in ns ensures WouldVote(v, a, t) {
        if a == x && v != x {
          VotesChain(v, b, x, t);
        }
      }
    }
  }

  lemma {:induction false} SomeLaterTerm(ns: set<NodeState>) returns (t: nat)
    ensures forall n :: n in ns ==> n.term < t
  {
    t := 0;
    if ns != {} {
      var x :| x in ns;
      t := SomeLaterTerm(ns - {x});
      t := if t > x.term then t else x.term + 1;
    }
  }

  /** In every state a static cluster can reach, whatever has happened: any majority has a member for whom, in some
      term, all of them would vote, and their votes are a quorum in its own count. */
  lemma AnyMajorityCanElect(conf: Config, c: State, q: set<Addr>) returns (a: Addr, t: nat)
    requires ValidConfig(conf) && Reaches(Init(conf, Static), c, AnyStep) && Safety.Majority(conf, q)
    ensures a in q && q <= c.nodes.Keys && t > c.nodes[a].term
    ensures forall v :: v in q ==> WouldVote(c.nodes[v], c.nodes[a], t)
    ensures q - {a} <= Membership.PeerVoters(c.nodes[a].members, c.nodes[a].id)
    ensures |q| >= Membership.QuorumSize(c.nodes[a].members)
  {
    Election.ReachedBallots(conf, c);
    var ns := set v | v in q :: c.nodes[v];
    t := SomeLaterTerm(ns);
    var v :| v in q;
    assert c.nodes[v] in ns;
    var n := SomebodyFitsAll(ns, t);
    a :| a in q && c.nodes[a] == n;
    assert Election.StaticNode(conf, a, c.nodes[a]);
    Election.MembersCount(conf, c.nodes[a].members, a);
  }
}
