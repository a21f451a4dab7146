/** Dependency order: a graph that is dispatched only through ready-only graph dispatch and
    reclaims has, before every dispatch entry, a passing gate for each dependency. */
module Order {
  import opened Basics
  import opened Schema
  import opened Events
  import opened Replay
  import opened Control
  import opened Moves
  import opened Projection
  import opened Restart
  import opened Recovery
  import opened Runs
  import opened History
  import Gates
  import Lex

  /** A passing gate result of some task of this node is in the log. */
  ghost predicate NodeGated(log: seq<Event>, graphId: string, nodeId: string) {
    exists d, g :: 0 <= d < g < |log| && log[d].Dispatched? && log[d].graphId == graphId && log[d].nodeId == nodeId
      && VerdictAt(log, g, log[d].taskId) && log[g].passed
  }

  ghost predicate DependenciesGated(log: seq<Event>, graph: WorkGraph, graphId: string, nodeId: string) {
    && nodeId in graph.Ids()
    && forall n, k | 0 <= n < |graph.nodes| && graph.nodes[n].id == nodeId && 0 <= k < |graph.nodes[n].dependsOn| ::
         NodeGated(log, graphId, graph.nodes[n].dependsOn[k])
  }

  predicate Concerns(ev: Event, graphId: string) {
    ev.Dispatched? && ev.graphId == graphId
  }

  ghost predicate InOrder(log: seq<Event>, graph: WorkGraph, graphId: string) {
    forall i :: 0 <= i < |log| && Concerns(log[i], graphId) ==> DependenciesGated(log[..i], graph, graphId, log[i].nodeId)
  }

  lemma GatedLater(log: seq<Event>, log': seq<Event>, graph: WorkGraph, graphId: string, nodeId: string)
    requires log <= log' && DependenciesGated(log, graph, graphId, nodeId)
    ensures DependenciesGated(log', graph, graphId, nodeId)
  {
    forall n, k | 0 <= n < |graph.nodes| && graph.nodes[n].id == nodeId && 0 <= k < |graph.nodes[n].dependsOn|
      ensures NodeGated(log', graphId, graph.nodes[n].dependsOn[k])
    {
      var dep := graph.nodes[n].dependsOn[k];
      assert NodeGated(log, graphId, dep);
      var d, g :| 0 <= d < g < |log| && log[d].Dispatched? && log[d].graphId == graphId && log[d].nodeId == dep
        && VerdictAt(log, g, log[d].taskId) && log[g].passed;
      assert log'[d] == log[d] && VerdictAt(log', g, log'[d].taskId);
    }
  }

  lemma InOrderSnoc(log: seq<Event>, ev: Event, graph: WorkGraph, graphId: string)
    requires InOrder(log, graph, graphId)
    requires Concerns(ev, graphId) ==> DependenciesGated(log, graph, graphId, ev.nodeId)
    ensures InOrder(log + [ev], graph, graphId)
  {
    var all := log + [ev];
    forall i | 0 <= i < |all| && Concerns(all[i], graphId) ensures DependenciesGated(all[..i], graph, graphId, all[i].nodeId) {
      assert all[..i] == if i < |log| then log[..i] else log;
    }
  }

  lemma InOrderTail(log: seq<Event>, tail: seq<Event>, graph: WorkGraph, graphId: string)
    requires InOrder(log, graph, graphId) && forall i :: 0 <= i < |tail| ==> !tail[i].Dispatched?
    ensures InOrder(log + tail, graph, graphId)
  {
    var all := log + tail;
    forall i | 0 <= i < |all| && Concerns(all[i], graphId) ensures DependenciesGated(all[..i], graph, graphId, all[i].nodeId) {
      assert i < |log| && all[..i] == log[..i];
    }
  }

  // ---------- readiness is read off the log ----------

  lemma SatisfiedIsGated(env: Env, s: Control, graphId: string, nodeId: string)
    requires Sound(env, s) && nodeId in Satisfied(s, graphId)
    ensures NodeGated(s.log, graphId, nodeId)
  {
    var t :| t in s.tasks && s.tasks[t].state.Passed? && s.tasks[t].envelope.graphId == graphId
      && s.tasks[t].envelope.nodeId == nodeId;
    var g := ResultIsLastVerdict(s.log, t);
    var d := VerdictProven(env, s, t, g);
    assert s.log[d].taskId == t;
  }

  /** Any task of the node will do: a passing gate on a task that no longer owns its node
      satisfies the node's dependants, though the node itself has not passed. */
  lemma DisownedPassSatisfies(env: Env, s: Control, t: string, result: Gates.GateResult)
    requires Enabled(env, s, Judged(t, result)) && result.passed
    ensures var e := s.tasks[t].envelope; var s' := Judge(env, s, t, result);
      && e.nodeId in Satisfied(s', e.graphId)
      && (LiveTask(s, e.graphId, e.nodeId) != Some(t) ==> (NodePassed(s', e.graphId, e.nodeId) <==> NodePassed(s, e.graphId, e.nodeId)))
  {
    var e, s' := s.tasks[t].envelope, Judge(env, s, t, result);
    assert s'.tasks[t].state.Passed? && s'.tasks[t].envelope == e;
  }

  lemma ReadyIsGated(env: Env, s: Control, graph: WorkGraph, graphId: string, i: nat)
    requires Sound(env, s) && graph.UniqueIds() && i < |graph.nodes| && IsReady(graph.nodes[i], Satisfied(s, graphId))
    ensures DependenciesGated(s.log, graph, graphId, graph.nodes[i].id)
  {
    forall n, k | 0 <= n < |graph.nodes| && graph.nodes[n].id == graph.nodes[i].id && 0 <= k < |graph.nodes[n].dependsOn|
      ensures NodeGated(s.log, graphId, graph.nodes[n].dependsOn[k])
    {
      assert n == i;
      SatisfiedIsGated(env, s, graphId, graph.nodes[n].dependsOn[k]);
    }
  }

  /** A task in the memory had its dependencies gated when it was dispatched. */
  lemma TaskWasGated(env: Env, s: Control, graph: WorkGraph, graphId: string, t: string)
    requires Sound(env, s) && InOrder(s.log, graph, graphId) && t in s.tasks && s.tasks[t].envelope.graphId == graphId
    ensures DependenciesGated(s.log, graph, graphId, s.tasks[t].envelope.nodeId)
  {
    DispatchedIsLogged(s.log, t);
    var d := Replayed(s.log).dispatched[t].seqNo;
    assert Identity(s.tasks[t].envelope) == Replayed(s.log).dispatched[t];
    assert Concerns(s.log[d], graphId);
    GatedLater(s.log[..d], s.log, graph, graphId, s.log[d].nodeId);
  }

  // ---------- operations ----------

  lemma EnqueueInOrder(env: Env, s: Control, e: Envelope, lead: string, now: int, graph: WorkGraph, graphId: string)
    requires InOrder(s.log, graph, graphId)
    requires e.graphId == graphId ==> DependenciesGated(s.log, graph, graphId, e.nodeId)
    ensures var s' := Enqueue(env, s, e, lead, now); s.log <= s'.log && InOrder(s'.log, graph, graphId)
  {
    InOrderSnoc(s.log, DispatchEvent(env, e, lead), graph, graphId);
  }

  /** Dispatch logs nothing, or one dispatch entry for its own node. */
  lemma OutcomeInOrder(env: Env, s: Control, s': Control, r: Result<Envelope>, key: (string, string), graph: WorkGraph, graphId: string)
    requires Outcome(env, s, s', r, key) && InOrder(s.log, graph, graphId)
    requires key.0 == graphId ==> DependenciesGated(s.log, graph, graphId, key.1)
    ensures s.log <= s'.log && InOrder(s'.log, graph, graphId)
  {
    if !OnlyRing(s, s') {
      var e := r.value;
      var s1, lead, now :| OnlyRing(s, s1) && Fits(env, s1, e) && s' == Enqueue(env, s1, e, lead, now);
      EnqueueInOrder(env, s1, e, lead, now, graph, graphId);
    }
  }

  lemma {:induction false} NodesInOrder(env: Env, s: Control, nodes: seq<WorkNode>, ready: set<string>, draws: seq<Draw>,
                                        graph: WorkGraph, graphId: string, own: string, readyOnly: bool)
    requires s.ring.keys != [] && |draws| == |nodes| && FreshDraws(s, draws) && InOrder(s.log, graph, graphId)
    requires own == graphId ==> readyOnly && forall i :: 0 <= i < |nodes| && IsReady(nodes[i], ready) ==>
      DependenciesGated(s.log, graph, graphId, nodes[i].id)
    ensures InOrder(DispatchNodes(env, s, nodes, own, readyOnly, ready, draws).0.log, graph, graphId)
    decreases |nodes|
  {
    if nodes != [] {
      var (s1, first) := Dispatch(env, s, nodes[0], own, map[], None, DEFAULT_TTL, draws[0]);
      DispatchAdds(env, s, nodes[0], own, DEFAULT_TTL, draws[0]);
      FreshRest(s, s1, draws);
      if readyOnly && !IsReady(nodes[0], ready) {
        NodesInOrder(env, s, nodes[1..], ready, draws[1..], graph, graphId, own, readyOnly);
      } else {
        DispatchOutcome(env, s, nodes[0], own, map[], None, DEFAULT_TTL, draws[0]);
        OutcomeInOrder(env, s, s1, first, (own, nodes[0].id), graph, graphId);
        if first.Ok? {
          RestGated(s, s1, nodes, ready, graph, graphId, own);
          NodesInOrder(env, s1, nodes[1..], ready, draws[1..], graph, graphId, own, readyOnly);
        }
      }
    }
  }

  lemma RestGated(s: Control, s1: Control, nodes: seq<WorkNode>, ready: set<string>, graph: WorkGraph, graphId: string, own: string)
    requires s.log <= s1.log && nodes != []
    requires own == graphId ==> forall i :: 0 <= i < |nodes| && IsReady(nodes[i], ready) ==>
      DependenciesGated(s.log, graph, graphId, nodes[i].id)
    ensures own == graphId ==> forall i :: 0 <= i < |nodes[1..]| && IsReady(nodes[1..][i], ready) ==>
      DependenciesGated(s1.log, graph, graphId, nodes[1..][i].id)
  {
    if own == graphId {
      forall i | 0 <= i < |nodes[1..]| && IsReady(nodes[1..][i], ready)
        ensures DependenciesGated(s1.log, graph, graphId, nodes[1..][i].id)
      {
        assert nodes[1..][i] == nodes[i + 1];
        GatedLater(s.log, s1.log, graph, graphId, nodes[i + 1].id);
      }
    }
  }

  lemma AbandonInOrder(env: Env, s: Control, t: string, reason: string, graph: WorkGraph, graphId: string)
    requires Sound(env, s) && InOrder(s.log, graph, graphId) && t in s.tasks
    ensures var s1 := Abandon(s, t, reason); var e := s.tasks[t].envelope;
      InOrder(s1.log, graph, graphId) && (e.graphId == graphId ==> DependenciesGated(s1.log, graph, graphId, e.nodeId))
  {
    var e := s.tasks[t].envelope;
    InOrderSnoc(s.log, Reclaimed(t, e.team, reason), graph, graphId);
    if e.graphId == graphId {
      TaskWasGated(env, s, graph, graphId, t);
      GatedLater(s.log, Abandon(s, t, reason).log, graph, graphId, e.nodeId);
    }
  }

  lemma InnerInOrder(env: Env, s: Control, t: string, reason: string, own: WorkGraph, draw: Draw, graph: WorkGraph, graphId: string)
    requires Sound(env, s) && FreshDraws(s, [draw]) && InOrder(s.log, graph, graphId) && t in s.tasks
    requires own.Node(s.tasks[t].envelope.nodeId).Ok?
    ensures InOrder(Inner(env, s, t, reason, own, draw).0.log, graph, graphId)
  {
    var e, base := s.tasks[t].envelope, ReclaimBase(s, t, reason);
    var (s2, r) := Inner(env, s, t, reason, own, draw);
    AbandonInOrder(env, s, t, reason, graph, graphId);
    assert [draw][0].taskId !in s.tasks && base.tasks.Keys == s.tasks.Keys;
    DispatchOutcome(env, base, own.Node(e.nodeId).value, e.graphId, map[], None, DEFAULT_TTL, draw);
    OutcomeInOrder(env, base, s2, r, e.Key(), graph, graphId);
  }

  lemma ReclaimInOrder(env: Env, s: Control, t: string, reason: string, own: WorkGraph, draw: Draw, graph: WorkGraph, graphId: string)
    requires Sound(env, s) && FreshDraws(s, [draw]) && InOrder(s.log, graph, graphId)
    ensures InOrder(Reclaim(env, s, t, reason, own, draw).0.log, graph, graphId)
  {
    if ReclaimRefusal(s, t).None? {
      ReclaimCases(env, s, t, reason, own, draw);
      AbandonInOrder(env, s, t, reason, graph, graphId);
      if own.Node(s.tasks[t].envelope.nodeId).Ok? && s.tasks[t].envelope.Key() in s.byNode {
        InnerInOrder(env, s, t, reason, own, draw, graph, graphId);
        InnerPlaces(env, s, t, reason, own, draw);
      }
    }
  }

  lemma SmallOpInOrder(env: Env, s: Control, op: Op, graph: WorkGraph, graphId: string)
    requires Legal(s, op) && !s.readOnly && s.ring.keys != [] && InOrder(s.log, graph, graphId)
    requires op.DeliverOp? || op.StatusOp? || op.GateOp? || op.PauseOp? || op.ResumeOp? || op.RotateOp?
    ensures InOrder(Step(env, s, op).log, graph, graphId)
  {
    var log' := Step(env, s, op).log;
    assert log' == s.log || (|log'| == |s.log| + 1 && s.log <= log' && !log'[|s.log|].Dispatched?);
    if log' != s.log {
      assert log' == s.log + [log'[|s.log|]];
      InOrderSnoc(s.log, log'[|s.log|], graph, graphId);
    }
  }

  /** The graph reaches dispatch only through ready-only graph dispatch and reclaims. */
  ghost predicate Disciplined(op: Op, graph: WorkGraph, graphId: string) {
    && (op.DispatchOp? ==> op.graphId != graphId)
    && (op.GraphOp? && op.graphId == graphId ==> op.graph == graph && op.readyOnly)
  }

  lemma StartInOrder(start: Start, log: seq<Event>, graph: WorkGraph, graphId: string)
    requires start.ring.keys != [] && InOrder(log, graph, graphId)
    ensures InOrder(Started(start, log).0.log, graph, graphId)
  {
    var n := StartedState(start, log);
    var teams := Lex.Sorted(Replayed(log).paused);
    if Started(start, log).1.Err? {
      PausesInOrder(log, teams[..n], graph, graphId);
    } else {
      PausesInOrder(log, teams, graph, graphId);
    }
  }

  lemma PausesInOrder(log: seq<Event>, teams: seq<string>, graph: WorkGraph, graphId: string)
    requires InOrder(log, graph, graphId)
    ensures InOrder(log + PauseEvents(teams), graph, graphId)
    ensures InOrder(log + PauseEvents(teams) + [ColdStart(|log|)], graph, graphId)
  {
    PausesAreNeutral(teams);
    InOrderTail(log, PauseEvents(teams), graph, graphId);
    InOrderSnoc(log + PauseEvents(teams), ColdStart(|log|), graph, graphId);
  }

  lemma GraphInOrder(env: Env, s: Control, op: Op, graph: WorkGraph, graphId: string)
    requires Sound(env, s) && Legal(s, op) && op.GraphOp? && Disciplined(op, graph, graphId) && InOrder(s.log, graph, graphId)
    ensures InOrder(Step(env, s, op).log, graph, graphId)
  {
    if op.graph.Valid() {
      var ready := Satisfied(s, op.graphId);
      if op.graphId == graphId {
        forall i | 0 <= i < |graph.nodes| && IsReady(graph.nodes[i], ready)
          ensures DependenciesGated(s.log, graph, graphId, graph.nodes[i].id)
        {
          ReadyIsGated(env, s, graph, graphId, i);
        }
      }
      NodesInOrder(env, s, op.graph.nodes, ready, op.draws, graph, graphId, op.graphId, op.readyOnly);
    }
  }

  lemma StepInOrder(env: Env, s: Control, op: Op, graph: WorkGraph, graphId: string)
    requires Kept(env, s) && Legal(s, op) && Disciplined(op, graph, graphId) && InOrder(s.log, graph, graphId)
    ensures InOrder(Step(env, s, op).log, graph, graphId)
  {
    if op.StartOp? {
      StartInOrder(op.start, s.log, graph, graphId);
    } else if !s.readOnly {
      match op
      case DispatchOp(node, g, payload, wanted, ttl, draw) =>
        assert [draw][0].taskId !in s.tasks;
        DispatchOutcome(env, s, node, g, payload, wanted, ttl, draw);
        var (s', r) := Dispatch(env, s, node, g, payload, wanted, ttl, draw);
        OutcomeInOrder(env, s, s', r, (g, node.id), graph, graphId);
      case GraphOp(_, _, _, _) => GraphInOrder(env, s, op, graph, graphId);
      case ReclaimOp(t, reason, own, draw) => ReclaimInOrder(env, s, t, reason, own, draw, graph, graphId);
      case _ => SmallOpInOrder(env, s, op, graph, graphId);
    }
  }

  ghost predicate DisciplinedRun(ops: seq<Op>, graph: WorkGraph, graphId: string) {
    forall i :: 0 <= i < |ops| ==> Disciplined(ops[i], graph, graphId)
  }

  /** Over every disciplined run, restarts included, each dispatch entry of the graph comes
      after a passing gate result for every dependency of its node. */
  lemma {:induction false} RunInOrder(env: Env, s: Control, ops: seq<Op>, graph: WorkGraph, graphId: string)
    requires Kept(env, s) && LegalRun(env, s, ops) && DisciplinedRun(ops, graph, graphId) && InOrder(s.log, graph, graphId)
    ensures InOrder(Run(env, s, ops).log, graph, graphId)
    decreases |ops|
  {
    if ops != [] {
      assert Disciplined(ops[0], graph, graphId);
      StepInOrder(env, s, ops[0], graph, graphId);
      StepKept(env, s, ops[0]);
      RunInOrder(env, Step(env, s, ops[0]), ops[1..], graph, graphId);
    }
  }

  /** The nodes of the graph that the log has dispatched. */
  ghost function DispatchedNodes(log: seq<Event>, graphId: string): set<string> {
    set i | 0 <= i < |log| && Concerns(log[i], graphId) :: log[i].nodeId
  }

  /** So the dispatched nodes are always closed under dependencies. */
  lemma DispatchedNodesClosed(log: seq<Event>, graph: WorkGraph, graphId: string, n: nat, k: nat)
    requires InOrder(log, graph, graphId) && n < |graph.nodes| && k < |graph.nodes[n].dependsOn|
    requires graph.nodes[n].id in DispatchedNodes(log, graphId)
    ensures graph.nodes[n].dependsOn[k] in DispatchedNodes(log, graphId)
  {
    var i :| 0 <= i < |log| && Concerns(log[i], graphId) && log[i].nodeId == graph.nodes[n].id;
    var dep := graph.nodes[n].dependsOn[k];
    assert NodeGated(log[..i], graphId, dep);
    var d, g :| 0 <= d < g < i && log[..i][d].Dispatched? && log[..i][d].graphId == graphId && log[..i][d].nodeId == dep
      && VerdictAt(log[..i], g, log[..i][d].taskId);
    assert Concerns(log[d], graphId);
  }
}
