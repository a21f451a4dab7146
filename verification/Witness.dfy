/** The weaknesses that other modules state are reached: for every valid manifest, every node
    that nothing refuses and every graph with it, a short run from nothing leads to each. */
module Witness {
  import opened Basics
  import opened JsonText
  import opened Schema
  import opened SchemaCodec
  import opened Events
  import opened Replay
  import opened Control
  import opened Projection
  import opened Restart
  import opened Recovery
  import opened Runs
  import opened Ownership
  import opened Progress
  import opened Restartable
  import Gates
  import Manifest
  import Topology
  import Waves

  /** What the runs below start from: a valid manifest, a node it admits, and a graph that has
      the node. */
  ghost predicate Setting(start: Start, node: WorkNode, graph: WorkGraph) {
    && start.ring.keys != [] && start.topology.Valid()
    && node.Valid() && start.topology.Declares(node.team) && Gates.Known(node.exitGate)
    && graph.Node(node.id) == Ok(node)
  }

  ghost predicate Running(env: Env, s: Control, start: Start) {
    Reachable(env, s) && !s.readOnly && s.ring.keys != [] && OneOwner(s) && s.topology == start.topology && s.paused == {}
  }

  lemma RunningSound(env: Env, s: Control, start: Start)
    requires Running(env, s, start)
    ensures Sound(env, s)
  {
    var s0, ops :| FromNothing(env, s0, ops) && Run(env, s0, ops) == s;
    FromNothingKept(env, s0, ops);
  }

  lemma NodeAdmitted(env: Env, s: Control, start: Start, node: WorkNode, graph: WorkGraph)
    requires Setting(start, node, graph) && Running(env, s, start)
    ensures Refusal(s, node).None? && Tidy(s)
  {
    RunningSound(env, s, start);
    Topology.GateOwnerIsUnique(start.topology, node.exitGate);
  }

  lemma OpenFirst(env: Env, start: Start, node: WorkNode, graph: WorkGraph) returns (s: Control)
    requires Setting(start, node, graph)
    ensures Running(env, s, start) && s.tasks == map[] && s.byNode == map[]
  {
    var none := Boot(start.topology, start.ring, []);
    NothingReachable(env, none);
    ReachableStep(env, none, StartOp(start));
    s := Started(start, []).0;
    StartsExactlyWhen(start, []);
    StartKept(env, start, []);
    StartMemory(env, start, []);
    StartedRecords(env, start, []);
  }

  /** One more operation, if it is careful and leaves manifest and pauses alone. */
  lemma StepRunning(env: Env, s: Control, op: Op, start: Start)
    requires Running(env, s, start) && Legal(s, op) && !op.StartOp? && CarefulOp(s, op)
    requires Step(env, s, op).topology == s.topology && Step(env, s, op).paused == s.paused
    ensures Running(env, Step(env, s, op), start)
  {
    RunningSound(env, s, start);
    ReachableStep(env, s, op);
    StepKept(env, s, op);
    StepOwned(env, s, op);
  }

  /** The record is of this node. */
  predicate OfNode(r: Record, node: WorkNode, g: string) {
    r.envelope.Key() == (g, node.id) && r.envelope.team == node.team && r.envelope.exitGate == node.exitGate
  }

  /** A new, open record of this node, which owns it. */
  predicate NewOwner(s: Control, t: string, node: WorkNode, g: string) {
    && t in s.tasks && OfNode(s.tasks[t], node, g) && s.tasks[t].state.Issued? && s.tasks[t].supersededBy.None?
    && (g, node.id) in s.byNode && s.byNode[(g, node.id)] == t
  }

  lemma PlacedIs(env: Env, s: Control, node: WorkNode, g: string, d: Draw)
    requires s.ring.keys != [] && Place(env, s, node, g, map[], d.taskId, DEFAULT_TTL, d).1.Ok?
    ensures var (s', r) := Place(env, s, node, g, map[], d.taskId, DEFAULT_TTL, d);
      && r.value.taskId == d.taskId && r.value.exitGate == node.exitGate && r.value.team == node.team
      && r.value.Key() == (g, node.id)
      && s'.tasks == s.tasks[d.taskId := Record(r.value, Issued, Some(d.now + env.ackSlo), None, None, None, None)]
      && s'.byNode == s.byNode[(g, node.id) := d.taskId] && s'.topology == s.topology && s'.paused == s.paused
  {}

  /** What dispatching an unowned node that nothing refuses leaves. */
  lemma DispatchedFrom(env: Env, s: Control, node: WorkNode, g: string, d: Draw)
    requires !s.readOnly && Tidy(s) && node.Valid() && Refusal(s, node).None? && (g, node.id) !in s.byNode
    requires IsTaskId(d.taskId) && d.taskId !in s.tasks
    ensures var (s', r) := Dispatch(env, s, node, g, map[], None, DEFAULT_TTL, d);
      && r.Ok? && r.value.taskId == d.taskId && NewOwner(s', d.taskId, node, g) && s'.tasks.Keys == s.tasks.Keys + {d.taskId}
      && s'.topology == s.topology && s'.paused == s.paused
      && forall t :: t in s.tasks ==> s'.tasks[t] == s.tasks[t]
  {
    PlaceSucceeds(env, s, node, g, d);
    PlacedIs(env, s, node, g, d);
  }

  /** The node is dispatched as task d. */
  lemma DispatchFirst(env: Env, start: Start, node: WorkNode, graph: WorkGraph, g: string, d: Draw) returns (s: Control)
    requires Setting(start, node, graph) && IsTaskId(d.taskId)
    ensures Running(env, s, start) && s.tasks.Keys == {d.taskId} && NewOwner(s, d.taskId, node, g)
  {
    var s0 := OpenFirst(env, start, node, graph);
    NodeAdmitted(env, s0, start, node, graph);
    var op := DispatchOp(node, g, map[], None, DEFAULT_TTL, d);
    DispatchedFrom(env, s0, node, g, d);
    StepRunning(env, s0, op, start);
    s := Step(env, s0, op);
  }

  lemma BaseAdmits(s: Control, t: string, reason: string, node: WorkNode, g: string)
    requires Tidy(s) && Refusal(s, node).None? && !s.readOnly && NewOwner(s, t, node, g)
    ensures var base := ReclaimBase(s, t, reason);
      && !base.readOnly && Tidy(base) && Refusal(base, node).None? && (g, node.id) !in base.byNode
      && base.tasks.Keys == s.tasks.Keys && base.topology == s.topology && base.paused == s.paused
      && base.tasks[t] == s.tasks[t].(state := TaskState.Abandoned)
  {
    RefusalUnmoved(s, ReclaimBase(s, t, reason), node);
  }

  /** What reclaiming the owner of a node leaves. */
  lemma ReclaimedFrom(env: Env, s: Control, t: string, reason: string, node: WorkNode, graph: WorkGraph, g: string, d: Draw)
    requires Tidy(s) && Refusal(s, node).None? && !s.readOnly && NewOwner(s, t, node, g) && node.Valid()
    requires graph.Node(node.id) == Ok(node) && IsTaskId(d.taskId) && d.taskId !in s.tasks
    ensures var (s', r) := Reclaim(env, s, t, reason, graph, d);
      && r.Ok? && NewOwner(s', d.taskId, node, g) && s'.tasks.Keys == s.tasks.Keys + {d.taskId}
      && OfNode(s'.tasks[t], node, g) && s'.tasks[t].state.Abandoned?
      && s'.topology == s.topology && s'.paused == s.paused
  {
    var base := ReclaimBase(s, t, reason);
    BaseAdmits(s, t, reason, node, g);
    DispatchedFrom(env, base, node, g, d);
    var (s1, r) := Dispatch(env, base, node, g, map[], None, DEFAULT_TTL, d);
    ReclaimIs(env, s, t, reason, node, graph, g, d);
    LinkedOwner(s1, t, d.taskId, node, g);
  }

  lemma ReclaimIs(env: Env, s: Control, t: string, reason: string, node: WorkNode, graph: WorkGraph, g: string, d: Draw)
    requires s.ring.keys != [] && !s.readOnly && NewOwner(s, t, node, g) && graph.Node(node.id) == Ok(node)
    ensures var (s1, r) := Dispatch(env, ReclaimBase(s, t, reason), node, g, map[], None, DEFAULT_TTL, d);
      r.Ok? && t in s1.tasks ==> Reclaim(env, s, t, reason, graph, d) == (Supersede(s1, t, r.value.taskId), r)
  {
    ReclaimCases(env, s, t, reason, graph, d);
  }

  lemma LinkedOwner(s: Control, t: string, owner: string, node: WorkNode, g: string)
    requires NewOwner(s, owner, node, g) && t in s.tasks && t != owner
    ensures var s' := Supersede(s, t, owner);
      NewOwner(s', owner, node, g) && s'.tasks[t] == s.tasks[t].(supersededBy := Some(owner)) && s'.tasks.Keys == s.tasks.Keys
  {}

  /** The node is dispatched as task d, and reclaimed into task e. */
  lemma ReclaimFirst(env: Env, start: Start, node: WorkNode, graph: WorkGraph, g: string, d: Draw, reason: string, e: Draw)
    returns (s: Control)
    requires Setting(start, node, graph) && IsTaskId(d.taskId) && IsTaskId(e.taskId) && d.taskId != e.taskId
    ensures Running(env, s, start) && s.tasks.Keys == {d.taskId, e.taskId} && NewOwner(s, e.taskId, node, g)
    ensures OfNode(s.tasks[d.taskId], node, g) && s.tasks[d.taskId].state.Abandoned? && d.taskId in Replayed(s.log).reclaimed
  {
    var s1 := DispatchFirst(env, start, node, graph, g, d);
    s := ReclaimNext(env, s1, start, node, graph, g, d.taskId, reason, e);
  }

  lemma ReclaimNext(env: Env, s1: Control, start: Start, node: WorkNode, graph: WorkGraph, g: string, t: string, reason: string, e: Draw)
    returns (s: Control)
    requires Setting(start, node, graph) && Running(env, s1, start) && NewOwner(s1, t, node, g)
    requires IsTaskId(e.taskId) && e.taskId !in s1.tasks
    ensures Running(env, s, start) && s.tasks.Keys == s1.tasks.Keys + {e.taskId} && NewOwner(s, e.taskId, node, g)
    ensures OfNode(s.tasks[t], node, g) && s.tasks[t].state.Abandoned? && t in Replayed(s.log).reclaimed
  {
    NodeAdmitted(env, s1, start, node, graph);
    ReclaimedFrom(env, s1, t, reason, node, graph, g, e);
    OwnerIsCareful(s1, t, node, graph, g);
    ReclaimRunning(env, s1, start, t, reason, graph, e);
    s := Reclaim(env, s1, t, reason, graph, e).0;
    RunningSound(env, s, start);
    DisplacedIsReclaimed(s, t, e.taskId, node, g);
  }

  lemma ReclaimRunning(env: Env, s: Control, start: Start, t: string, reason: string, graph: WorkGraph, e: Draw)
    requires Running(env, s, start) && e.taskId !in s.tasks && Careful(s, t, graph)
    requires var s' := Reclaim(env, s, t, reason, graph, e).0; s'.topology == s.topology && s'.paused == s.paused
    ensures Running(env, Reclaim(env, s, t, reason, graph, e).0, start)
  {
    StepRunning(env, s, ReclaimOp(t, reason, graph, e), start);
  }

  lemma OwnerIsCareful(s: Control, t: string, node: WorkNode, graph: WorkGraph, g: string)
    requires NewOwner(s, t, node, g) && graph.Node(node.id) == Ok(node)
    ensures Careful(s, t, graph)
  {}

  lemma DisplacedIsReclaimed(s: Control, t: string, owner: string, node: WorkNode, g: string)
    requires Memory(s) && OneOwner(s) && NewOwner(s, owner, node, g) && t in s.tasks && t != owner && OfNode(s.tasks[t], node, g)
    ensures t in Replayed(s.log).reclaimed
  {}

  // ---------- a pass of a task that lost its node ----------

  /** Reached: the node satisfies its dependants and has not passed. */
  lemma DisownedPassReached(env: Env, start: Start, node: WorkNode, graph: WorkGraph, g: string, d: Draw, reason: string, e: Draw,
                            evidence: seq<string>, now: int) returns (s: Control)
    requires Setting(start, node, graph) && IsTaskId(d.taskId) && IsTaskId(e.taskId) && d.taskId != e.taskId && evidence != []
    ensures Reachable(env, s) && !s.readOnly && node.id in Satisfied(s, g) && !NodePassed(s, g, node.id)
  {
    var s1 := ReclaimFirst(env, start, node, graph, g, d, reason, e);
    var result := Waves.PassingResult(node.exitGate, evidence, now);
    GateStep(env, s1, d.taskId, result, now);
    ReachableStep(env, s1, GateOp(d.taskId, ResultJson(result), now));
    s := Judge(env, s1, d.taskId, result);
    PassedElsewhere(env, s1, d.taskId, e.taskId, result, node, g);
  }

  lemma PassedElsewhere(env: Env, s: Control, t: string, owner: string, result: Gates.GateResult, node: WorkNode, g: string)
    requires NewOwner(s, owner, node, g) && t in s.tasks && t != owner && OfNode(s.tasks[t], node, g) && result.passed
    ensures var s' := Judge(env, s, t, result); node.id in Satisfied(s', g) && !NodePassed(s', g, node.id)
  {
    var s' := Judge(env, s, t, result);
    assert s'.tasks[t].state.Passed? && s'.tasks[t].envelope == s.tasks[t].envelope;
  }

  // ---------- restarts ----------

  lemma CanRestart(env: Env, s: Control, start: Start, node: WorkNode, graph: WorkGraph, g: string)
    requires Setting(start, node, graph) && Running(env, s, start)
    requires forall t :: t in s.tasks ==> OfNode(s.tasks[t], node, g)
    ensures CanStart(start, s.log)
  {
    var r := Replayed(s.log);
    RunningSound(env, s, start);
    StartsExactlyWhen(start, s.log);
    AdmissibleRestorable(env, s.log);
    forall t | t in r.OpenTasks() ensures start.topology.Declares(r.dispatched[t].team) && Gates.Known(r.dispatched[t].exitGate) {
      assert Identity(s.tasks[t].envelope) == r.dispatched[t];
    }
  }

  /** After any cold start a reclaimed task owns nothing and can be reclaimed again. */
  lemma ReclaimableAgain(env: Env, start: Start, log: seq<Event>, t: string)
    requires AllAdmissible(env, log) && CanStart(start, log) && t in Replayed(log).reclaimed
    ensures var s := Started(start, log).0; t in s.tasks && ReclaimRefusal(s, t).None? && !Live(s, t)
  {
    StartedRecords(env, start, log);
    AdmissibleRestorable(env, log);
    RestoredIdentity(Replayed(log), t, |log|);
  }

  /** And reclaiming it takes the node away from the task that replaced it. */
  lemma RestartThenReclaim(env: Env, s: Control, start: Start, t: string, reason: string, graph: WorkGraph, draw: Draw)
    requires Sound(env, s) && OneOwner(s) && CanStart(start, s.log) && t in Replayed(s.log).reclaimed && t in s.tasks
    requires Releases(s, t, graph) && FreshDraws(s, [draw])
    ensures var s1 := Started(start, s.log).0; var key := s.tasks[t].envelope.Key();
      Legal(s1, ReclaimOp(t, reason, graph, draw)) && s1.ring.keys != []
      && Orphaned(Reclaim(env, s1, t, reason, graph, draw).0, s.byNode[key], key)
  {
    var s1 := Started(start, s.log).0;
    RestartRefines(env, s, start);
    ReclaimableAgain(env, start, s.log, t);
    assert Identity(s1.tasks[t].envelope) == Identity(s.tasks[t].envelope);
    assert [draw][0].taskId !in s.tasks;
    ReclaimOfOther(env, s1, t, reason, graph, draw);
  }

  /** Reached: dispatch, reclaim, restart, and reclaim the first task again. */
  lemma OrphanReached(env: Env, start: Start, node: WorkNode, graph: WorkGraph, g: string, d: Draw, reason: string, e: Draw, f: Draw)
    returns (s: Control)
    requires Setting(start, node, graph) && IsTaskId(d.taskId) && IsTaskId(e.taskId)
    requires d.taskId != e.taskId && f.taskId != d.taskId && f.taskId != e.taskId
    ensures Reachable(env, s) && Orphaned(s, e.taskId, (g, node.id))
  {
    var s1 := ReclaimFirst(env, start, node, graph, g, d, reason, e);
    s := OrphanFrom(env, s1, start, node, graph, g, d.taskId, e.taskId, reason, f);
  }

  lemma OrphanFrom(env: Env, s1: Control, start: Start, node: WorkNode, graph: WorkGraph, g: string, t: string, owner: string,
                   reason: string, f: Draw) returns (s: Control)
    requires Setting(start, node, graph) && Running(env, s1, start) && s1.tasks.Keys == {t, owner}
    requires NewOwner(s1, owner, node, g) && OfNode(s1.tasks[t], node, g) && t in Replayed(s1.log).reclaimed
    requires f.taskId !in s1.tasks
    ensures Reachable(env, s) && Orphaned(s, owner, (g, node.id))
  {
    RunningSound(env, s1, start);
    AllOfNode(s1, t, owner, node, g);
    CanRestart(env, s1, start, node, graph, g);
    s := OrphanNext(env, s1, start, node, graph, g, t, owner, reason, f);
  }

  lemma AllOfNode(s: Control, t: string, owner: string, node: WorkNode, g: string)
    requires s.tasks.Keys == {t, owner} && NewOwner(s, owner, node, g) && OfNode(s.tasks[t], node, g)
    ensures forall u :: u in s.tasks ==> OfNode(s.tasks[u], node, g)
  {
    forall u | u in s.tasks ensures OfNode(s.tasks[u], node, g) {
      assert u in {t, owner};
    }
  }

  lemma OrphanNext(env: Env, s1: Control, start: Start, node: WorkNode, graph: WorkGraph, g: string, t: string, owner: string,
                   reason: string, f: Draw) returns (s: Control)
    requires Reachable(env, s1) && Sound(env, s1) && OneOwner(s1) && CanStart(start, s1.log) && graph.Node(node.id) == Ok(node)
    requires t in s1.tasks && NewOwner(s1, owner, node, g) && OfNode(s1.tasks[t], node, g) && t in Replayed(s1.log).reclaimed
    requires f.taskId !in s1.tasks
    ensures Reachable(env, s) && Orphaned(s, owner, (g, node.id))
  {
    NodeReleases(s1, t, owner, node, graph, g);
    s := RestartAndReclaim(env, s1, start, t, reason, graph, f);
  }

  lemma NodeReleases(s: Control, t: string, owner: string, node: WorkNode, graph: WorkGraph, g: string)
    requires t in s.tasks && OfNode(s.tasks[t], node, g) && NewOwner(s, owner, node, g) && graph.Node(node.id) == Ok(node)
    ensures Releases(s, t, graph) && s.tasks[t].envelope.Key() == (g, node.id) && s.byNode[(g, node.id)] == owner
  {}

  lemma RestartAndReclaim(env: Env, s: Control, start: Start, t: string, reason: string, graph: WorkGraph, f: Draw) returns (s': Control)
    requires Reachable(env, s) && Sound(env, s) && OneOwner(s) && CanStart(start, s.log)
    requires t in Replayed(s.log).reclaimed && t in s.tasks && Releases(s, t, graph) && f.taskId !in s.tasks
    ensures Reachable(env, s') && Orphaned(s', s.byNode[s.tasks[t].envelope.Key()], s.tasks[t].envelope.Key())
  {
    RestartThenReclaim(env, s, start, t, reason, graph, f);
    s' := RestartAndStep(env, s, start, ReclaimOp(t, reason, graph, f));
  }

  lemma RestartAndStep(env: Env, s: Control, start: Start, op: Op) returns (s': Control)
    requires Reachable(env, s) && CanStart(start, s.log) && Legal(Started(start, s.log).0, op) && op.ReclaimOp?
    ensures var s1 := Started(start, s.log).0;
      s1.ring.keys != [] && Reachable(env, s') && s' == Reclaim(env, s1, op.taskId, op.reason, op.graph, op.draw).0
  {
    ReachableStep(env, s, StartOp(start));
    StartKept(env, start, s.log);
    StartedRecords(env, start, s.log);
    ReachableStep(env, Started(start, s.log).0, op);
    s' := Step(env, Started(start, s.log).0, op);
  }

  /** Reached: a graph of one node passes, its owner reports, and a restart ships it again. */
  lemma UndoneReportReached(env: Env, start: Start, node: WorkNode, graph: WorkGraph, g: string, d: Draw,
                            evidence: seq<string>, now: int, u: StatusUpdate) returns (s: Control)
    requires Setting(start, node, graph) && graph.nodes == [node] && IsTaskId(d.taskId) && evidence != []
    requires u.Valid() && u.taskId == d.taskId && u.state != "gate_pass"
    ensures Reachable(env, s) && !s.readOnly && !MayShip(s, graph, g)
    ensures CanStart(start, s.log) && MayShip(Started(start, s.log).0, graph, g)
  {
    var s2 := PassFirst(env, start, node, graph, g, d, evidence, now);
    CanRestart(env, s2, start, node, graph, g);
    RunningSound(env, s2, start);
    StatusRoundTrip(u);
    ReportUndoneByRestart(env, s2, start, graph, g, StatusJson(u), 0);
    s := ReportStep(env, s2, StatusJson(u));
  }

  lemma ReportStep(env: Env, s: Control, raw: Json) returns (s': Control)
    requires Reachable(env, s) && !s.readOnly && s.ring.keys != []
    ensures s' == IngestStatus(env, s, raw).0 && Reachable(env, s')
  {
    ReachableStep(env, s, StatusOp(raw));
    s' := Step(env, s, StatusOp(raw));
  }

  /** The node is dispatched as task d, and passes. */
  lemma PassFirst(env: Env, start: Start, node: WorkNode, graph: WorkGraph, g: string, d: Draw, evidence: seq<string>, now: int)
    returns (s: Control)
    requires Setting(start, node, graph) && graph.nodes == [node] && IsTaskId(d.taskId) && evidence != []
    ensures Running(env, s, start) && s.tasks.Keys == {d.taskId} && OfNode(s.tasks[d.taskId], node, g)
    ensures LiveTask(s, g, node.id) == Some(d.taskId) && MayShip(s, graph, g)
  {
    var s1 := DispatchFirst(env, start, node, graph, g, d);
    var result := Waves.PassingResult(node.exitGate, evidence, now);
    s := Judge(env, s1, d.taskId, result);
    GateStep(env, s1, d.taskId, result, now);
    StepRunning(env, s1, GateOp(d.taskId, ResultJson(result), now), start);
    OwnerShips(env, s1, d.taskId, result, node, graph, g);
  }

  lemma GateStep(env: Env, s: Control, t: string, result: Gates.GateResult, now: int)
    requires t in s.tasks && result.Valid() && result.gate == s.tasks[t].envelope.exitGate && !s.readOnly && s.ring.keys != []
    ensures Step(env, s, GateOp(t, ResultJson(result), now)) == Judge(env, s, t, result)
  {
    ResultRoundTrip(result, now);
  }

  lemma OwnerShips(env: Env, s: Control, t: string, result: Gates.GateResult, node: WorkNode, graph: WorkGraph, g: string)
    requires NewOwner(s, t, node, g) && graph.nodes == [node] && result.passed
    ensures var s' := Judge(env, s, t, result);
      s'.tasks.Keys == s.tasks.Keys && OfNode(s'.tasks[t], node, g) && LiveTask(s', g, node.id) == Some(t) && MayShip(s', graph, g)
  {}

  // ---------- a manifest without the team ----------

  /** A cold start with a manifest that no longer declares the team of the node. */
  ghost predicate TeamGone(again: Start, node: WorkNode) {
    again.ring.keys != [] && again.topology.Valid() && !again.topology.Declares(node.team)
  }

  function FailingResult(gate: string, evidence: seq<string>, now: int): Gates.GateResult
    requires Gates.Known(gate)
  {
    Waves.PassingResult(gate, evidence, now).(passed := false)
  }

  lemma PassedIsClosed(env: Env, s: Control, t: string, node: WorkNode, graph: WorkGraph, g: string)
    requires Sound(env, s) && OneOwner(s) && s.tasks.Keys == {t} && graph.nodes == [node] && LiveTask(s, g, node.id) == Some(t)
    requires MayShip(s, graph, g)
    ensures t !in Replayed(s.log).reclaimed && Replayed(s.log).OpenTasks() == {}
  {
    assert NodePassed(s, g, graph.nodes[0].id);
    assert Replayed(s.log).OpenTasks() <= s.tasks.Keys && t !in Replayed(s.log).OpenTasks();
  }

  lemma StartsWithout(env: Env, s: Control, again: Start, node: WorkNode)
    requires Sound(env, s) && TeamGone(again, node) && Replayed(s.log).OpenTasks() == {} && s.paused == {}
    ensures CanStart(again, s.log)
  {
    StartsExactlyWhen(again, s.log);
    AdmissibleRestorable(env, s.log);
  }

  lemma RestartedAgain(env: Env, s: Control, again: Start)
    requires Reachable(env, s) && CanStart(again, s.log)
    ensures var s1 := Started(again, s.log).0;
      && Reachable(env, s1) && Sound(env, s1) && s1.topology == again.topology && CanStart(again, s1.log)
      && Replayed(s1.log) == Replayed(s.log)
  {
    ReachableStep(env, s, StartOp(again));
    StartKept(env, again, s.log);
    StartedRecords(env, again, s.log);
    StartReplays(env, again, s.log);
    StartsAlike(again, s.log, Started(again, s.log).0.log);
  }

  lemma SameNode(a: Record, b: Record, node: WorkNode, g: string)
    requires Identity(a.envelope) == Identity(b.envelope) && OfNode(b, node, g)
    ensures OfNode(a, node, g)
  {}

  lemma RestoredOfNode(env: Env, s: Control, again: Start, t: string, node: WorkNode, g: string)
    requires Sound(env, s) && CanStart(again, s.log) && t in s.tasks && OfNode(s.tasks[t], node, g)
    ensures var s1 := Started(again, s.log).0; t in s1.tasks && OfNode(s1.tasks[t], node, g) && s1.tasks[t].supersededBy.None?
  {
    var s1 := Started(again, s.log).0;
    StartedRecords(env, again, s.log);
    AdmissibleRestorable(env, s.log);
    RestoredIdentity(Replayed(s.log), t, |s.log|);
    SameNode(s1.tasks[t], s.tasks[t], node, g);
  }

  /** Failing the gate of such a task: neither a cold start with this manifest nor queue_depth
      succeeds any more. */
  lemma FailsWithout(env: Env, s: Control, again: Start, t: string, node: WorkNode, g: string, evidence: seq<string>, now: int)
    requires Sound(env, s) && s.topology == again.topology && CanStart(again, s.log) && TeamGone(again, node)
    requires t in s.tasks && OfNode(s.tasks[t], node, g) && s.tasks[t].supersededBy.None? && t !in Replayed(s.log).reclaimed
    requires Gates.Known(node.exitGate) && evidence != []
    ensures var s' := Judge(env, s, t, FailingResult(node.exitGate, evidence, now));
      !CanStart(again, s'.log) && QueueDepth(s').Err?
  {
    var result := FailingResult(node.exitGate, evidence, now);
    var s', op := Judge(env, s, t, result), GateOp(t, ResultJson(result), now);
    ResultRoundTrip(result, now);
    GateStep(env, s, t, result, now);
    KeepsRestartableIff(env, s, op, again);
    FailedIsOpen(env, s, t, result);
  }

  lemma FailedIsOpen(env: Env, s: Control, t: string, result: Gates.GateResult)
    requires t in s.tasks && s.tasks[t].supersededBy.None? && !result.passed && !s.topology.Declares(s.tasks[t].envelope.team)
    ensures QueueDepth(Judge(env, s, t, result)).Err?
  {
    var s' := Judge(env, s, t, result);
    assert Open(s'.tasks[t]) && !s'.topology.Declares(s'.tasks[t].envelope.team);
  }

  /** Reached: a task passes, its team leaves the manifest, and then its gate fails. */
  lemma StrayReached(env: Env, start: Start, again: Start, node: WorkNode, graph: WorkGraph, g: string, d: Draw,
                     evidence: seq<string>, now: int) returns (s: Control)
    requires Setting(start, node, graph) && graph.nodes == [node] && IsTaskId(d.taskId) && evidence != []
    requires TeamGone(again, node)
    ensures Reachable(env, s) && !s.readOnly && s.topology == again.topology
    ensures !CanStart(again, s.log) && QueueDepth(s).Err?
  {
    var t := d.taskId;
    var s1 := PassFirst(env, start, node, graph, g, d, evidence, now);
    RunningSound(env, s1, start);
    PassedIsClosed(env, s1, t, node, graph, g);
    StartsWithout(env, s1, again, node);
    RestartedAgain(env, s1, again);
    RestoredOfNode(env, s1, again, t, node, g);
    s := FailStep(env, Started(again, s1.log).0, again, t, node, g, evidence, now);
  }

  lemma FailStep(env: Env, s: Control, again: Start, t: string, node: WorkNode, g: string, evidence: seq<string>, now: int)
    returns (s': Control)
    requires Reachable(env, s) && Sound(env, s) && s.topology == again.topology && CanStart(again, s.log) && TeamGone(again, node)
    requires t in s.tasks && OfNode(s.tasks[t], node, g) && s.tasks[t].supersededBy.None? && t !in Replayed(s.log).reclaimed
    requires Gates.Known(node.exitGate) && evidence != []
    ensures Reachable(env, s') && !s'.readOnly && s'.topology == again.topology
    ensures !CanStart(again, s'.log) && QueueDepth(s').Err?
  {
    var result := FailingResult(node.exitGate, evidence, now);
    FailsWithout(env, s, again, t, node, g, evidence, now);
    GateStep(env, s, t, result, now);
    ReachableStep(env, s, GateOp(t, ResultJson(result), now));
    s' := Judge(env, s, t, result);
  }

  /** With the shipped manifest: work of the team threat-research passes, the team is taken
      out of the manifest, and the gate of that work fails. */
  lemma ShippedManifestStrays(env: Env, charters: seq<string>, start: Start, again: Start, node: WorkNode, g: string, d: Draw,
                              evidence: seq<string>, now: int) returns (s: Control)
    requires Manifest.Chartered(charters) && start.topology == Manifest.Shipped(charters)
    requires again.topology == Manifest.Without(Manifest.Shipped(charters), 0) && start.ring.keys != [] && again.ring.keys != []
    requires node.Valid() && node.team == "threat-research" && Gates.Known(node.exitGate) && IsTaskId(d.taskId) && evidence != []
    ensures Reachable(env, s) && !s.readOnly && s.topology == again.topology
    ensures !CanStart(again, s.log) && QueueDepth(s).Err?
  {
    Manifest.ThreatResearchCanGo(charters);
    s := StrayReached(env, start, again, node, WorkGraph("", [node], []), g, d, evidence, now);
  }
}
