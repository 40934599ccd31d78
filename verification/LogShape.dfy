/** What holds of every log in every run of the code, whoever leads, appends or sends. */
module LogShape {
  import opened RaftTypes
  import opened RaftNode
  import opened Cluster
  import LogMatching

  /** The sentinel comes first and every entry's index is its position. */
  predicate Indexed(log: Entries) { log[0] == SENTINEL && forall i :: 0 <= i < |log| ==> log[i].index == i }

  predicate IndexedRequest(m: AppendRequest) {
    forall i :: 0 <= i < |m.entries| ==> m.entries[i].index == m.prevIndex + 1 + i
  }

  ghost predicate ShapeInv(c: State) {
    && (forall a {:trigger Indexed(c.nodes[a].log)} :: a in c.nodes ==> Indexed(c.nodes[a].log))
    && (forall m {:trigger IndexedRequest(m)} :: m in c.appendReqs ==> IndexedRequest(m))
  }

  lemma AppendIndexed(log: Entries, m: AppendRequest)
    requires Indexed(log) && IndexedRequest(m) && PrevMatches(log, m)
    ensures Indexed(AppendTo(log, m))
  {
  }

  lemma RequestIndexed(n: NodeState, to: Addr, term: nat, commit: nat)
    requires Indexed(n.log)
    ensures IndexedRequest(MakeAppendRequest(n, to, term, commit))
  {
  }

  lemma ShapeLater(c: State, c': State, a: Addr)
    requires ShapeInv(c) && a in c.nodes && a in c'.nodes && c'.nodes == c.nodes[a := c'.nodes[a]]
    requires Indexed(c'.nodes[a].log)
    requires forall m {:trigger IndexedRequest(m)} :: m in c'.appendReqs && m !in c.appendReqs ==> IndexedRequest(m)
    ensures ShapeInv(c')
  {
  }

  lemma StepShape(c: State, s: Step)
    requires ShapeInv(c) && Enabled(c, s)
    ensures ShapeInv(Apply(c, s))
  {
    var n := c.nodes[s.a];
    assert Indexed(n.log);
    match s
    case RecvAppend(a, req, pick) =>
      assert IndexedRequest(req);
      LogMatching.HandleAppendEntriesFrame(n, req, pick);
      if PrevMatches(n.log, req) { AppendIndexed(n.log, req); }
      ShapeLater(c, DoRecvAppend(c, a, req, pick), a);
    case RecvAppendReply(a, reply) =>
      LogMatching.HandleAppendReplyFrame(n, reply.from, reply.req, reply.resp);
      ShapeLater(c, Apply(c, s), a);
    case SendAppend(a, to, beat) =>
      RequestIndexed(n, to, beat.term, beat.commit);
      ShapeLater(c, DoSendAppend(c, a, to, beat), a);
    case Propose(a, command) => ShapeLater(c, DoPropose(c, a, command), a);
    case TakeLead(a) => ShapeLater(c, DoTakeLead(c, a), a);
    case _ =>
      SmallStepFrame(c, s);
      ShapeLater(c, Apply(c, s), s.a);
  }

  lemma {:induction false} RunShape(c: State, steps: seq<Step>)
    requires ShapeInv(c) && Run(c, steps, AnyStep)
    ensures ShapeInv(After(c, steps, AnyStep))
    decreases |steps|
  {
    if steps != [] {
      StepShape(c, steps[0]);
      RunShape(Apply(c, steps[0]), steps[1..]);
    }
  }

  /** In every state the code can reach, from any peer lists: no log loses its sentinel, and every entry's index
      is its position, despite unconditional truncation and whoever appends or sends. */
  lemma LogsStayIndexed(conf: Config, mode: Mode, peers: map<Addr, set<Addr>>, c: State, a: Addr)
    requires Reaches(InitWith(conf, mode, peers), c, AnyStep) && a in c.nodes
    ensures c.nodes[a].log[0] == SENTINEL && forall i :: 0 <= i < |c.nodes[a].log| ==> c.nodes[a].log[i].index == i
  {
    var c0 := InitWith(conf, mode, peers);
    var steps :| Run(c0, steps, AnyStep) && After(c0, steps, AnyStep) == c;
    RunShape(c0, steps);
    assert Indexed(c.nodes[a].log);
  }
}
