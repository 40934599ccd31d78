/** What every guarded run of a dynamic cluster promises. */
module DynamicTheorems {
  import opened RaftTypes
  import opened RaftNode
  import opened Cluster
  import opened Safety
  import opened Configs
  import opened DynamicSafety
  import Membership
  import LogMatching
  import Replication
  import Keeping
  import DynamicSteps
  import RaftTheorems

  const NOTHING_NOTED := Chronicle([], map[])

  // ----- from the first state on -----

  lemma FreshFits(v0: set<NodeID>, a: Addr)
    ensures NodeFits(v0, NO_HISTORY, [], NewNode(a, a, Dynamic, v0 - {a}))
  {
    var n := NewNode(a, a, Dynamic, v0 - {a});
    assert Membership.VoterIDs(n.members) == v0 + {a};
    assert [SENTINEL][1..1] == [];
  }

  /** Before anything has happened the chronicle is in order. */
  lemma NothingYet(v0: set<NodeID>, c: State)
    requires c.hist == NO_HISTORY && c.beats == {} && c.appendReqs == {} && c.campaigns == map[]
    requires LogMatching.HistoryOK(c.hist.reigns) && BallotsInv(c.hist)
    requires forall a {:trigger c.nodes[a]} :: a in c.nodes ==> c.nodes[a] == NewNode(a, a, Dynamic, v0 - {a})
    ensures Rest(v0, c, NOTHING_NOTED)
  {
    forall a | a in c.nodes ensures NodeFits(v0, c.hist, [], c.nodes[a]) {
      FreshFits(v0, a);
    }
  }

  lemma BeginNodes(conf: Config, v0: set<NodeID>)
    requires IDsAreAddresses(conf)
    ensures forall a {:trigger Begin(conf, v0).nodes[a]} ::
      a in Begin(conf, v0).nodes ==> Begin(conf, v0).nodes[a] == NewNode(a, a, Dynamic, v0 - {a})
    ensures Begin(conf, v0).nodes.Keys == conf.Keys
  {
  }

  lemma InitDynamic(conf: Config, v0: set<NodeID>)
    requires IDsAreAddresses(conf)
    ensures DynamicInv(conf, v0, Begin(conf, v0), NOTHING_NOTED)
  {
    Keeping.InitKeeping(conf, Dynamic, map a | a in conf :: v0 - {a});
    Replication.InitAcks(conf, Dynamic, map a | a in conf :: v0 - {a});
    BeginNodes(conf, v0);
    NothingYet(v0, Begin(conf, v0));
  }

  /** One step, its notes, and that nothing was lost. */
  lemma StepDynamic(conf: Config, v0: set<NodeID>, c: State, g: Chronicle, s: Step)
    requires DynamicInv(conf, v0, c, g) && Enabled(c, s) && GuardedRule(v0, 1)(c, s)
    ensures DynamicInv(conf, v0, Apply(c, s), Note(g, c, s)) && Carried(c, g, Apply(c, s), Note(g, c, s))
  {
    DynamicSteps.StepInv(conf, v0, c, g, s);
    StepCarries(conf, v0, c, g, s);
  }

  lemma CarriedOn(c: State, g: Chronicle, d: State, g': Chronicle, e: State, g'': Chronicle)
    requires Carried(c, g, d, g') && Carried(d, g', e, g'')
    ensures Carried(c, g, e, g'')
  {
  }

  lemma {:induction false} RunDynamic(conf: Config, v0: set<NodeID>, c: State, g: Chronicle, steps: seq<Step>,
                                      rule: (State, Step) -> bool) returns (g': Chronicle)
    requires DynamicInv(conf, v0, c, g) && rule == GuardedRule(v0, 1) && Run(c, steps, rule)
    ensures DynamicInv(conf, v0, After(c, steps, rule), g') && Carried(c, g, After(c, steps, rule), g')
    decreases |steps|
  {
    g' := g;
    if steps != [] {
      var d, g1 := Apply(c, steps[0]), Note(g, c, steps[0]);
      StepDynamic(conf, v0, c, g, steps[0]);
      g' := RunDynamic(conf, v0, d, g1, steps[1..], rule);
      CarriedOn(c, g, d, g1, After(d, steps[1..], rule), g');
    }
  }

  /** Nothing recorded or noted was lost. */
  ghost predicate Carried(c: State, g: Chronicle, d: State, g': Chronicle) {
    LogMatching.Grows(c.hist.reigns, d.hist.reigns) && g.commits <= g'.commits && d.nodes.Keys == c.nodes.Keys
  }

  lemma StepCarries(conf: Config, v0: set<NodeID>, c: State, g: Chronicle, s: Step)
    requires DynamicInv(conf, v0, c, g) && Guarded(v0, 1, c, s)
    ensures Carried(c, g, Apply(c, s), Note(g, c, s))
  {
    DynamicSteps.GuardedIsHonest(conf, v0, c, g, s);
    Replication.StepOnward(c, s);
    NotesStay(g, c, s);
  }

  lemma NotesStay(g: Chronicle, c: State, s: Step)
    requires Enabled(c, s)
    ensures g.commits <= Note(g, c, s).commits
  {
  }

  lemma ReachedDynamic(conf: Config, v0: set<NodeID>, c: State) returns (g: Chronicle)
    requires IDsAreAddresses(conf) && Reaches(Begin(conf, v0), c, GuardedRule(v0, 1))
    ensures DynamicInv(conf, v0, c, g)
  {
    var steps :| Run(Begin(conf, v0), steps, GuardedRule(v0, 1))
      && After(Begin(conf, v0), steps, GuardedRule(v0, 1)) == c;
    InitDynamic(conf, v0);
    g := RunDynamic(conf, v0, Begin(conf, v0), NOTHING_NOTED, steps, GuardedRule(v0, 1));
  }

  lemma LaterDynamic(conf: Config, v0: set<NodeID>, c: State, g: Chronicle, d: State) returns (g': Chronicle)
    requires DynamicInv(conf, v0, c, g) && Reaches(c, d, GuardedRule(v0, 1))
    ensures DynamicInv(conf, v0, d, g') && Carried(c, g, d, g')
  {
    var steps :| Run(c, steps, GuardedRule(v0, 1)) && After(c, steps, GuardedRule(v0, 1)) == d;
    g' := RunDynamic(conf, v0, c, g, steps, GuardedRule(v0, 1));
  }

  // ----- the theorems -----

  /** State Machine Safety with changing voters: any two nodes have applied the same entries in the same order as far
      as both have got, each exactly the committed part of its log. */
  lemma DynamicStateMachineSafety(conf: Config, v0: set<NodeID>, c: State)
    requires IDsAreAddresses(conf) && Reaches(Begin(conf, v0), c, GuardedRule(v0, 1))
    ensures forall a, b :: a in c.nodes && b in c.nodes ==>
      c.nodes[a].applied <= c.nodes[b].applied || c.nodes[b].applied <= c.nodes[a].applied
    ensures forall a :: a in c.nodes ==>
      c.nodes[a].commitIndex < |c.nodes[a].log| && c.nodes[a].applied == c.nodes[a].log[1..c.nodes[a].commitIndex + 1]
  {
    var g := ReachedDynamic(conf, v0, c);
    forall a, b | a in c.nodes && b in c.nodes
      ensures c.nodes[a].applied <= c.nodes[b].applied || c.nodes[b].applied <= c.nodes[a].applied
    {
      AppliedCompare(conf, v0, c, g, a, b);
    }
    forall a | a in c.nodes ensures AppliedOK(c.nodes[a]) {
      assert NodeFits(v0, c.hist, g.commits, c.nodes[a]);
    }
  }

  /** The same for any two nodes at any two moments of a run. */
  lemma DynamicSafetyOverTime(conf: Config, v0: set<NodeID>, c: State, d: State, a: Addr, b: Addr)
    requires IDsAreAddresses(conf) && Reaches(Begin(conf, v0), c, GuardedRule(v0, 1))
    requires Reaches(c, d, GuardedRule(v0, 1)) && a in c.nodes && b in d.nodes
    ensures c.nodes[a].applied <= d.nodes[b].applied || d.nodes[b].applied <= c.nodes[a].applied
  {
    var g := ReachedDynamic(conf, v0, c);
    var g' := LaterDynamic(conf, v0, c, g, d);
    var steps :| Run(c, steps, GuardedRule(v0, 1)) && After(c, steps, GuardedRule(v0, 1)) == d;
    RaftTheorems.AppliedGrowsOverRun(c, steps, GuardedRule(v0, 1), 0);
    assert steps[..0] == [];
    AppliedCompare(conf, v0, d, g', a, b);
    var p, q := c.nodes[a].applied, d.nodes[b].applied;
    RaftTheorems.PrefixesCompare(p, d.nodes[a].applied, q, q);
  }

  /** Election Safety with changing voters: at most one node ever becomes leader in a term. */
  lemma DynamicElectionSafety(conf: Config, v0: set<NodeID>, c: State)
    requires IDsAreAddresses(conf) && Reaches(Begin(conf, v0), c, GuardedRule(v0, 1))
    ensures forall t, a, b :: (t, a) in c.hist.wins && (t, b) in c.hist.wins ==> a == b
  {
    var g := ReachedDynamic(conf, v0, c);
  }

  /** Leader Completeness with changing voters: what any node has committed by some moment is in the log, from its
      election on, of every leader of a later term than that node's at the moment. */
  lemma DynamicLeaderCompleteness(conf: Config, v0: set<NodeID>, c: State, d: State, a: Addr, w: nat)
    requires IDsAreAddresses(conf) && Reaches(Begin(conf, v0), c, GuardedRule(v0, 1))
    requires Reaches(c, d, GuardedRule(v0, 1)) && a in c.nodes && w in d.hist.reigns.leaders && w > c.nodes[a].term
    ensures LogMatching.Agree(c.nodes[a].log, d.hist.reigns.leaders[w].log, c.nodes[a].commitIndex)
  {
    var g := ReachedDynamic(conf, v0, c);
    var g' := LaterDynamic(conf, v0, c, g, d);
    assert NodeFits(v0, c.hist, g.commits, c.nodes[a]) && LogMatching.NodeOK(c.nodes[a], c.hist.reigns);
    CommittedReaches(v0, c, g, d, g', c.nodes[a], w);
  }

  lemma CommittedReaches(v0: set<NodeID>, c: State, g: Chronicle, d: State, g': Chronicle, n: NodeState, w: nat)
    requires Carried(c, g, d, g') && Recorded(v0, d.hist, g') && NodeCovered(c.hist, g.commits, n)
    requires n.commitIndex < |n.log| && LogMatching.Grounded(n.log, c.hist.reigns.termLog)
    requires w in d.hist.reigns.leaders && w > n.term
    ensures LogMatching.Agree(n.log, d.hist.reigns.leaders[w].log, n.commitIndex)
  {
    var r, log := d.hist.reigns, d.hist.reigns.leaders[w].log;
    assert WinOK(v0, d.hist, g', w);
    LogMatching.GroundedGrows(n.log, c.hist.reigns, r);
    if n.commitIndex == 0 {
      LogMatching.EntriesIndexed(n.log, r);
      LogMatching.EntriesIndexed(log, r);
      assert n.log[..1] == [SENTINEL] == log[..1];
    } else {
      var j :| 0 <= j < |g.commits| && Covers(c.hist.reigns, g.commits[j], n.log, n.commitIndex, n.term);
      Replication.AgreeGrows(n.log, c.hist.reigns, r, g.commits[j].term, n.commitIndex);
      LeaderKeeps(v0, d.hist, g', j, w);
      KeptCovered(r, g'.commits[j], log, n.log, n.commitIndex, n.term);
      AgreeVia(log, n.log, n.log, n.commitIndex, n.commitIndex, n.commitIndex);
    }
  }

  /** `log` through `k` is what the leader of `t` committed with entry `k`, of its own term: a majority of the voters
      that its log had made through the point `prev` committed before has acknowledged it. */
  ghost predicate BackedBy(v0: set<NodeID>, h: History, log: Log, k: nat, t: nat, prev: nat) {
    && OwnEntry(h.reigns, t, k) && LogMatching.Agree(log, h.reigns.termLog[t], k)
    && prev < k && HeldBy(h, VotersAt(v0, h.reigns.termLog[t], prev), t, k)
  }

  /** Every commit index is backed by a majority of the voters of its time. */
  lemma DynamicCommitsAreBacked(conf: Config, v0: set<NodeID>, c: State, a: Addr)
    requires IDsAreAddresses(conf) && Reaches(Begin(conf, v0), c, GuardedRule(v0, 1))
    requires a in c.nodes && c.nodes[a].commitIndex > 0
    ensures exists t: nat, prev: nat ::
      t <= c.nodes[a].term && BackedBy(v0, c.hist, c.nodes[a].log, c.nodes[a].commitIndex, t, prev)
  {
    var g := ReachedDynamic(conf, v0, c);
    assert NodeFits(v0, c.hist, g.commits, c.nodes[a]);
    NodeBacked(v0, c.hist, g, c.nodes[a]);
  }

  lemma NodeBacked(v0: set<NodeID>, h: History, g: Chronicle, n: NodeState)
    requires Recorded(v0, h, g) && NodeCovered(h, g.commits, n) && n.commitIndex > 0
    ensures exists t: nat, prev: nat :: t <= n.term && BackedBy(v0, h, n.log, n.commitIndex, t, prev)
  {
    var j :| 0 <= j < |g.commits| && Covers(h.reigns, g.commits[j], n.log, n.commitIndex, n.term);
    var x := g.commits[j];
    assert RecordOK(v0, h, g.commits, j);
    assert BackedBy(v0, h, n.log, n.commitIndex, x.term, x.prev);
  }

  /** Two settled nodes that have committed equally far know the same voters: those their common log prefix makes of
      the initial ones. */
  lemma SettledNodesAgreeOnVoters(conf: Config, v0: set<NodeID>, c: State, a: Addr, b: Addr)
    requires IDsAreAddresses(conf) && Reaches(Begin(conf, v0), c, GuardedRule(v0, 1)) && a in c.nodes && b in c.nodes
    requires Settled(v0, c.nodes[a]) && Settled(v0, c.nodes[b]) && c.nodes[a].commitIndex == c.nodes[b].commitIndex
    ensures Membership.VoterIDs(c.nodes[a].members) == Membership.VoterIDs(c.nodes[b].members)
  {
    var g := ReachedDynamic(conf, v0, c);
    var n, m := c.nodes[a], c.nodes[b];
    assert NodeFits(v0, c.hist, g.commits, n) && NodeFits(v0, c.hist, g.commits, m);
    AppliedWithin(v0, c.hist, g, n, m);
    DynamicSteps.SettledSeat(v0, n);
    DynamicSteps.SettledSeat(v0, m);
    assert LogMatching.NodeOK(n, c.hist.reigns) && LogMatching.NodeOK(m, c.hist.reigns);
    SameApplied(c.hist.reigns, n, m);
    SameVoters(v0, n.log, m.log, n.commitIndex);
  }

  lemma SameApplied(r: Reigns, n: NodeState, m: NodeState)
    requires LogMatching.HistoryOK(r) && LogMatching.Grounded(n.log, r.termLog)
    requires LogMatching.Grounded(m.log, r.termLog)
    requires AppliedOK(n) && AppliedOK(m) && n.commitIndex == m.commitIndex && n.applied <= m.applied
    ensures LogMatching.Agree(n.log, m.log, n.commitIndex)
  {
    LogMatching.EntriesIndexed(n.log, r);
    LogMatching.EntriesIndexed(m.log, r);
    var k := n.commitIndex;
    assert n.log[..k + 1] == [SENTINEL] + n.log[1..k + 1] && m.log[..k + 1] == [SENTINEL] + m.log[1..k + 1];
  }

  /** When everyone is an initial voter this is the cluster in which everyone's peer list names everyone else, and all
      nodes are settled. */
  lemma EveryoneVotes(conf: Config)
    requires IDsAreAddresses(conf)
    ensures Begin(conf, conf.Keys) == Init(conf, Dynamic)
    ensures forall c, a :: Reaches(Init(conf, Dynamic), c, GuardedRule(conf.Keys, 1)) && a in c.nodes ==>
      Settled(conf.Keys, c.nodes[a])
  {
    assert (map a | a in conf :: conf.Keys - {a}) == AllPeers(conf);
    forall c, a | Reaches(Init(conf, Dynamic), c, GuardedRule(conf.Keys, 1)) && a in c.nodes
      ensures Settled(conf.Keys, c.nodes[a])
    {
      var g := ReachedDynamic(conf, conf.Keys, c);
    }
  }
}
