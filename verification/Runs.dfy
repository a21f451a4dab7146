/** Runs: any sequence of dispatcher operations and cold starts over one audit log. */
module Runs {
  import opened Basics
  import opened JsonText
  import opened Schema
  import SchemaCodec
  import opened Tokens
  import opened Events
  import opened Control
  import opened Moves
  import opened Projection
  import opened Restart
  import opened Recovery

  datatype Op =
    | DispatchOp(node: WorkNode, graphId: string, payload: map<string, Json>, wanted: Option<string>, ttl: int, draw: Draw)
    | GraphOp(graph: WorkGraph, graphId: string, readyOnly: bool, draws: seq<Draw>)
    | DeliverOp(e: Envelope, toAgent: string, now: int)
    | StatusOp(raw: Json)
    | GateOp(taskId: string, raw: Json, now: int)
    | ReclaimOp(taskId: string, reason: string, graph: WorkGraph, draw: Draw)
    | PauseOp(team: string, reason: string)
    | ResumeOp(team: string)
    | RotateOp(key: Fresh, now: int, revoke: bool)
    | StartOp(start: Start)

  /** Task ids drawn by the generator are new to the dispatcher and to each other. */
  ghost predicate FreshDraws(s: Control, draws: seq<Draw>) {
    && (forall i :: 0 <= i < |draws| ==> draws[i].taskId !in s.tasks)
    && (forall i, j :: 0 <= i < j < |draws| ==> draws[i].taskId != draws[j].taskId)
  }

  ghost predicate Legal(s: Control, op: Op) {
    match op
    case DispatchOp(_, _, _, _, _, draw) => FreshDraws(s, [draw])
    case GraphOp(graph, _, _, draws) => |draws| == |graph.nodes| && FreshDraws(s, draws)
    case ReclaimOp(_, _, _, draw) => FreshDraws(s, [draw])
    case StartOp(start) => start.ring.keys != []
    case _ => true
  }

  /** One operation. A cold start replaces the process; without a process that started,
      nothing else happens. A process that started has a key. */
  ghost function Step(env: Env, s: Control, op: Op): Control
    requires Legal(s, op)
  {
    if op.StartOp? then Started(op.start, s.log).0
    else if s.readOnly || s.ring.keys == [] then s
    else
      match op
      case DispatchOp(node, g, payload, wanted, ttl, draw) => Dispatch(env, s, node, g, payload, wanted, ttl, draw).0
      case GraphOp(graph, g, readyOnly, draws) => DispatchGraph(env, s, graph, g, readyOnly, draws).0
      case DeliverOp(e, to, now) => Deliver(env, s, e, to, now).0
      case StatusOp(raw) => IngestStatus(env, s, raw).0
      case GateOp(t, raw, now) => AcceptGate(env, s, t, raw, now).0
      case ReclaimOp(t, reason, graph, draw) => Reclaim(env, s, t, reason, graph, draw).0
      case PauseOp(team, reason) => PauseTeam(s, team, reason).0
      case ResumeOp(team) => ResumeTeam(s, team).0
      case RotateOp(draw, now, revoke) => s.(ring := RotateNow(s.ring, draw, now, revoke))
      case StartOp(_) => s
  }

  /** What holds between any two operations. */
  ghost predicate Kept(env: Env, s: Control) {
    AllAdmissible(env, s.log) && (!s.readOnly ==> Sound(env, s))
  }

  // ---------- operations as moves ----------

  lemma OutcomeReaches(env: Env, s: Control, s': Control, r: Result<Envelope>, key: (string, string))
    requires Outcome(env, s, s', r, key) && !s.readOnly
    ensures ReachesBy(env, s, s', Assigning)
  {
    if OnlyRing(s, s') { OnlyRingReaches(env, s, s'); } else { PlacesReaches(env, s, s', r.value); }
  }

  lemma DispatchReaches(env: Env, s: Control, node: WorkNode, graphId: string, payload: map<string, Json>,
                        wanted: Option<string>, ttl: int, draw: Draw)
    requires s.ring.keys != [] && !s.readOnly && FreshDraws(s, [draw])
    ensures ReachesBy(env, s, Dispatch(env, s, node, graphId, payload, wanted, ttl, draw).0, Assigning)
  {
    assert [draw][0].taskId !in s.tasks;
    DispatchOutcome(env, s, node, graphId, payload, wanted, ttl, draw);
    var (s', r) := Dispatch(env, s, node, graphId, payload, wanted, ttl, draw);
    OutcomeReaches(env, s, s', r, (graphId, node.id));
  }

  lemma PlaceAdds(env: Env, s: Control, node: WorkNode, graphId: string, payload: map<string, Json>, taskId: string,
                  ttl: int, draw: Draw)
    requires s.ring.keys != []
    ensures var s' := Place(env, s, node, graphId, payload, taskId, ttl, draw).0;
      s'.tasks.Keys <= s.tasks.Keys + {taskId} && s'.readOnly == s.readOnly
  {}

  /** A dispatch without a wanted id adds at most the drawn id. */
  lemma DispatchAdds(env: Env, s: Control, node: WorkNode, graphId: string, ttl: int, draw: Draw)
    requires s.ring.keys != []
    ensures var s' := Dispatch(env, s, node, graphId, map[], None, ttl, draw).0;
      s'.tasks.Keys <= s.tasks.Keys + {draw.taskId} && s'.readOnly == s.readOnly
  {
    PlaceAdds(env, s, node, graphId, map[], draw.taskId, ttl, draw);
  }

  lemma FreshRest(s: Control, s1: Control, draws: seq<Draw>)
    requires FreshDraws(s, draws) && draws != [] && s1.tasks.Keys <= s.tasks.Keys + {draws[0].taskId}
    ensures FreshDraws(s, [draws[0]]) && FreshDraws(s1, draws[1..]) && FreshDraws(s, draws[1..])
  {}

  lemma {:induction false} NodesReach(env: Env, s: Control, nodes: seq<WorkNode>, graphId: string, readyOnly: bool,
                                      satisfied: set<string>, draws: seq<Draw>)
    requires s.ring.keys != [] && !s.readOnly && |draws| == |nodes| && FreshDraws(s, draws)
    ensures ReachesBy(env, s, DispatchNodes(env, s, nodes, graphId, readyOnly, satisfied, draws).0, Assigning)
    decreases |nodes|
  {
    if nodes == [] {
      ReachesSelf(env, s, Assigning);
    } else {
      var (s1, first) := Dispatch(env, s, nodes[0], graphId, map[], None, DEFAULT_TTL, draws[0]);
      DispatchAdds(env, s, nodes[0], graphId, DEFAULT_TTL, draws[0]);
      FreshRest(s, s1, draws);
      if readyOnly && !IsReady(nodes[0], satisfied) {
        NodesReach(env, s, nodes[1..], graphId, readyOnly, satisfied, draws[1..]);
      } else {
        DispatchReaches(env, s, nodes[0], graphId, map[], None, DEFAULT_TTL, draws[0]);
        if first.Ok? {
          NodesReach(env, s1, nodes[1..], graphId, readyOnly, satisfied, draws[1..]);
          ReachesJoins(env, s, s1, DispatchNodes(env, s1, nodes[1..], graphId, readyOnly, satisfied, draws[1..]).0, Assigning);
        }
      }
    }
  }

  /** The state in which the inner dispatch of a reclaim starts. */
  function ReclaimBase(s: Control, t: string, reason: string): Control
    requires t in s.tasks
  {
    var s1 := Abandon(s, t, reason);
    s1.(byNode := s1.byNode - {s.tasks[t].envelope.Key()})
  }

  lemma BaseReaches(env: Env, s: Control, t: string, reason: string)
    requires !s.readOnly && ReclaimRefusal(s, t).None?
    ensures ReachesBy(env, s, Abandon(s, t, reason), Ungated)
    ensures s.tasks[t].envelope.Key() in s.byNode ==> ReachesBy(env, s, ReclaimBase(s, t, reason), Ungated)
  {
    OneMove(env, s, Move.Abandoned(t, reason), Ungated);
    var s1, key := Abandon(s, t, reason), s.tasks[t].envelope.Key();
    if key in s.byNode {
      OneMove(env, s1, Released(key), Ungated);
      ReachesJoins(env, s, s1, ReclaimBase(s, t, reason), Ungated);
    }
  }

  /** The inner dispatch of a reclaim that gets that far. */
  function Inner(env: Env, s: Control, t: string, reason: string, graph: WorkGraph, draw: Draw): (Control, Result<Envelope>)
    requires s.ring.keys != [] && t in s.tasks && graph.Node(s.tasks[t].envelope.nodeId).Ok?
  {
    Dispatch(env, ReclaimBase(s, t, reason), graph.Node(s.tasks[t].envelope.nodeId).value, s.tasks[t].envelope.graphId,
             map[], None, DEFAULT_TTL, draw)
  }

  lemma InnerReaches(env: Env, s: Control, t: string, reason: string, graph: WorkGraph, draw: Draw)
    requires s.ring.keys != [] && !s.readOnly && ReclaimRefusal(s, t).None? && FreshDraws(s, [draw])
    requires graph.Node(s.tasks[t].envelope.nodeId).Ok? && s.tasks[t].envelope.Key() in s.byNode
    ensures ReachesBy(env, s, Inner(env, s, t, reason, graph, draw).0, Ungated)
  {
    var base := ReclaimBase(s, t, reason);
    BaseReaches(env, s, t, reason);
    assert base.tasks.Keys == s.tasks.Keys;
    DispatchReaches(env, base, graph.Node(s.tasks[t].envelope.nodeId).value, s.tasks[t].envelope.graphId,
                    map[], None, DEFAULT_TTL, draw);
    Widen(env, base, Inner(env, s, t, reason, graph, draw).0, Assigning, Ungated);
    ReachesJoins(env, s, base, Inner(env, s, t, reason, graph, draw).0, Ungated);
  }

  /** A dispatch of an unowned node without a wanted id returns only what it enqueues. */
  lemma UnownedPlaces(env: Env, s: Control, node: WorkNode, graphId: string, ttl: int, draw: Draw)
    requires s.ring.keys != [] && draw.taskId !in s.tasks && (graphId, node.id) !in s.byNode
    ensures var (s', r) := Dispatch(env, s, node, graphId, map[], None, ttl, draw);
      r.Ok? ==> !s.readOnly && r.value.Key() == (graphId, node.id) && Places(env, s, s', r.value)
  {
    if !s.readOnly && node.Valid() && Refusal(s, node).None? {
      PlaceOutcome(env, s, node, graphId, map[], draw.taskId, ttl, draw);
      PlacedKey(env, s, node, graphId, map[], draw.taskId, ttl, draw);
    }
  }

  lemma PlacedKey(env: Env, s: Control, node: WorkNode, graphId: string, payload: map<string, Json>, t: string,
                  ttl: int, draw: Draw)
    requires s.ring.keys != []
    ensures var r := Place(env, s, node, graphId, payload, t, ttl, draw).1; r.Ok? ==> r.value.Key() == (graphId, node.id)
  {}

  lemma InnerPlaces(env: Env, s: Control, t: string, reason: string, graph: WorkGraph, draw: Draw)
    requires s.ring.keys != [] && t in s.tasks && FreshDraws(s, [draw]) && graph.Node(s.tasks[t].envelope.nodeId).Ok?
    ensures var (s', r) := Inner(env, s, t, reason, graph, draw);
      r.Ok? ==> Places(env, ReclaimBase(s, t, reason), s', r.value) && r.value.Key() == s.tasks[t].envelope.Key()
                && t in s'.tasks && r.value.taskId in s'.tasks
  {
    assert [draw][0].taskId !in s.tasks;
    UnownedPlaces(env, ReclaimBase(s, t, reason), graph.Node(s.tasks[t].envelope.nodeId).value, s.tasks[t].envelope.graphId,
                  DEFAULT_TTL, draw);
  }

  /** The four ways a reclaim that is not refused at once can end. */
  lemma ReclaimCases(env: Env, s: Control, t: string, reason: string, graph: WorkGraph, draw: Draw)
    requires s.ring.keys != [] && ReclaimRefusal(s, t).None?
    ensures var (s', r) := Reclaim(env, s, t, reason, graph, draw); var e := s.tasks[t].envelope;
      && (graph.Node(e.nodeId).Err? ==> s' == Abandon(s, t, reason) && r == Err(SchemaError))
      && (graph.Node(e.nodeId).Ok? && e.Key() !in s.byNode ==> s' == Abandon(s, t, reason) && r == Err(Crash))
      && (graph.Node(e.nodeId).Ok? && e.Key() in s.byNode ==>
            r == Inner(env, s, t, reason, graph, draw).1
            && s' == if r.Ok? then Supersede(Inner(env, s, t, reason, graph, draw).0, t, r.value.taskId)
                     else Inner(env, s, t, reason, graph, draw).0)
  {}

  lemma ReclaimReaches(env: Env, s: Control, t: string, reason: string, graph: WorkGraph, draw: Draw)
    requires s.ring.keys != [] && !s.readOnly && FreshDraws(s, [draw])
    ensures ReachesBy(env, s, Reclaim(env, s, t, reason, graph, draw).0, Ungated)
  {
    var (s', r) := Reclaim(env, s, t, reason, graph, draw);
    ReachesSelf(env, s, Ungated);
    if ReclaimRefusal(s, t).None? {
      ReclaimCases(env, s, t, reason, graph, draw);
      BaseReaches(env, s, t, reason);
      if graph.Node(s.tasks[t].envelope.nodeId).Ok? && s.tasks[t].envelope.Key() in s.byNode {
        InnerReaches(env, s, t, reason, graph, draw);
        InnerPlaces(env, s, t, reason, graph, draw);
        if r.Ok? { LinkReaches(env, s, Inner(env, s, t, reason, graph, draw).0, t, r.value.taskId); }
      }
    }
  }

  lemma LinkReaches(env: Env, s: Control, s1: Control, t: string, next: string)
    requires ReachesBy(env, s, s1, Ungated) && !s1.readOnly && t in s1.tasks && next in s1.tasks
    ensures ReachesBy(env, s, Supersede(s1, t, next), Ungated)
  {
    OneMove(env, s1, Linked(t, next), Ungated);
    ReachesJoins(env, s, s1, Supersede(s1, t, next), Ungated);
  }

  predicate Small(op: Op) {
    op.DeliverOp? || op.StatusOp? || op.GateOp? || op.PauseOp? || op.ResumeOp? || op.RotateOp?
  }

  /** The move of a small operation that is not refused. */
  lemma SmallOpMoves(env: Env, s: Control, op: Op) returns (m: Move)
    requires Legal(s, op) && !s.readOnly && s.ring.keys != [] && Small(op) && Step(env, s, op) != s
    ensures Enabled(env, s, m) && Step(env, s, op) == After(env, s, m) && Quiet(m) && (Ungated(m) <==> !op.GateOp?)
  {
    match op
    case DeliverOp(e, to, now) => m := Accepted(e, to);
    case StatusOp(raw) => m := Move.Reported(SchemaCodec.ParseStatus(raw).value);
    case GateOp(t, raw, now) => m := Judged(t, SchemaCodec.ParseResult(raw, now).value);
    case PauseOp(team, reason) => m := Paused(team, reason);
    case ResumeOp(team) => m := Resumed(team);
    case RotateOp(key, now, revoke) => m := Turn(key, now, revoke);
  }

  lemma SmallOpReaches(env: Env, s: Control, op: Op)
    requires Legal(s, op) && !s.readOnly && s.ring.keys != [] && Small(op)
    ensures ReachesBy(env, s, Step(env, s, op), Quiet)
    ensures !op.GateOp? ==> ReachesBy(env, s, Step(env, s, op), Ungated)
  {
    ReachesSelf(env, s, Quiet);
    ReachesSelf(env, s, Ungated);
    if Step(env, s, op) != s {
      var m := SmallOpMoves(env, s, op);
      OneMove(env, s, m, Quiet);
      if !op.GateOp? { OneMove(env, s, m, Ungated); }
    }
  }

  /** Dispatching one node or a graph only hands out work. */
  lemma AssigningStep(env: Env, s: Control, op: Op)
    requires Legal(s, op) && !s.readOnly && s.ring.keys != [] && (op.DispatchOp? || op.GraphOp?)
    ensures ReachesBy(env, s, Step(env, s, op), Assigning)
  {
    match op
    case DispatchOp(node, g, payload, wanted, ttl, draw) => DispatchReaches(env, s, node, g, payload, wanted, ttl, draw);
    case GraphOp(graph, g, readyOnly, draws) =>
      ReachesSelf(env, s, Assigning);
      NodesReach(env, s, graph.nodes, g, readyOnly, Satisfied(s, g), draws);
  }

  /** Every operation other than a reclaim or a cold start takes only quiet moves. */
  lemma QuietStep(env: Env, s: Control, op: Op)
    requires Legal(s, op) && !op.StartOp? && !op.ReclaimOp? && !s.readOnly && s.ring.keys != []
    ensures ReachesBy(env, s, Step(env, s, op), Quiet)
  {
    if Small(op) {
      SmallOpReaches(env, s, op);
    } else {
      AssigningStep(env, s, op);
      Widen(env, s, Step(env, s, op), Assigning, Quiet);
    }
  }

  /** Every operation other than accept_gate or a cold start takes only ungated moves. */
  lemma UngatedStep(env: Env, s: Control, op: Op)
    requires Legal(s, op) && !op.StartOp? && !op.GateOp? && !s.readOnly && s.ring.keys != []
    ensures ReachesBy(env, s, Step(env, s, op), Ungated)
  {
    if Small(op) {
      SmallOpReaches(env, s, op);
    } else if op.ReclaimOp? {
      ReclaimReaches(env, s, op.taskId, op.reason, op.graph, op.draw);
    } else {
      AssigningStep(env, s, op);
      Widen(env, s, Step(env, s, op), Assigning, Ungated);
    }
  }

  /** Every operation other than a cold start is a path of moves. */
  lemma StepReaches(env: Env, s: Control, op: Op)
    requires Legal(s, op) && !op.StartOp? && !s.readOnly && s.ring.keys != []
    ensures Reaches(env, s, Step(env, s, op))
  {
    if op.GateOp? {
      QuietStep(env, s, op);
      ByReaches(env, s, Step(env, s, op), Quiet);
    } else {
      UngatedStep(env, s, op);
      ByReaches(env, s, Step(env, s, op), Ungated);
    }
  }

  lemma StartKept(env: Env, start: Start, log: seq<Event>)
    requires AllAdmissible(env, log) && start.ring.keys != []
    ensures Kept(env, Started(start, log).0)
  {
    StartReplays(env, start, log);
    if Started(start, log).1.Ok? {
      StartMemory(env, start, log);
      StartedRecords(env, start, log);
    } else {
      var _ := StartedState(start, log);
    }
  }

  lemma MoveTopology(env: Env, s: Control, m: Move)
    requires Enabled(env, s, m)
    ensures After(env, s, m).topology == s.topology
  {}

  lemma MoveSound(env: Env, s: Control, m: Move)
    requires Enabled(env, s, m) && Sound(env, s)
    ensures Sound(env, After(env, s, m)) && After(env, s, m).topology == s.topology
  {
    MoveMemory(env, s, m);
    MoveAdmissible(env, s, m);
    MoveTopology(env, s, m);
  }

  lemma ReachesSound(env: Env, s: Control, s': Control)
    requires Reaches(env, s, s') && Sound(env, s)
    ensures Sound(env, s')
  {
    var ms :| Path(env, s, ms, s');
    PathMemory(env, s, ms, s');
  }

  /** Every operation keeps the memory a projection of an admissible log; so does every cold
      start, from any log that can be there. */
  lemma StepKept(env: Env, s: Control, op: Op)
    requires Kept(env, s) && Legal(s, op)
    ensures Kept(env, Step(env, s, op))
    ensures !s.readOnly && !op.StartOp? ==> Sound(env, Step(env, s, op))
  {
    if op.StartOp? {
      StartKept(env, op.start, s.log);
    } else if !s.readOnly {
      StepReaches(env, s, op);
      ReachesSound(env, s, Step(env, s, op));
    }
  }

  // ---------- runs ----------

  ghost predicate LegalRun(env: Env, s: Control, ops: seq<Op>)
    decreases |ops|
  {
    ops == [] || (Legal(s, ops[0]) && LegalRun(env, Step(env, s, ops[0]), ops[1..]))
  }

  ghost function Run(env: Env, s: Control, ops: seq<Op>): Control
    requires LegalRun(env, s, ops)
    decreases |ops|
  {
    if ops == [] then s else Run(env, Step(env, s, ops[0]), ops[1..])
  }

  lemma {:induction false} RunKept(env: Env, s: Control, ops: seq<Op>)
    requires Kept(env, s) && LegalRun(env, s, ops)
    ensures Kept(env, Run(env, s, ops))
    decreases |ops|
  {
    if ops != [] {
      StepKept(env, s, ops[0]);
      RunKept(env, Step(env, s, ops[0]), ops[1..]);
    }
  }

  /** No process yet, and an empty log. */
  ghost predicate Initial(s: Control) {
    s.readOnly && s.log == []
  }

  /** A legal run that starts from nothing. */
  ghost predicate FromNothing(env: Env, s: Control, ops: seq<Op>) {
    Initial(s) && LegalRun(env, s, ops)
  }

  lemma InitialKept(env: Env, s: Control)
    requires Initial(s)
    ensures Kept(env, s)
  {}

  /** Every state that a run from nothing leads to is one the log describes. */
  lemma FromNothingKept(env: Env, s: Control, ops: seq<Op>)
    requires FromNothing(env, s, ops)
    ensures Kept(env, s) && Kept(env, Run(env, s, ops))
  {
    InitialKept(env, s);
    RunKept(env, s, ops);
  }

  /** The state before operation k of a run, or after all of them. */
  ghost function StateAt(env: Env, s: Control, ops: seq<Op>, k: nat): Control
    requires LegalRun(env, s, ops) && k <= |ops|
    decreases k
  {
    if k == 0 then s else StateAt(env, Step(env, s, ops[0]), ops[1..], k - 1)
  }

  lemma {:induction false} StateAtEnd(env: Env, s: Control, ops: seq<Op>)
    requires LegalRun(env, s, ops)
    ensures StateAt(env, s, ops, |ops|) == Run(env, s, ops)
    decreases |ops|
  {
    if ops != [] { StateAtEnd(env, Step(env, s, ops[0]), ops[1..]); }
  }

  /** One more operation at the end of a run. */
  lemma {:induction false} RunSnoc(env: Env, s: Control, ops: seq<Op>, op: Op)
    requires LegalRun(env, s, ops) && Legal(Run(env, s, ops), op)
    ensures LegalRun(env, s, ops + [op]) && Run(env, s, ops + [op]) == Step(env, Run(env, s, ops), op)
    decreases |ops|
  {
    var all := ops + [op];
    if ops == [] {
      assert all[0] == op && all[1..] == [];
    } else {
      RunSnoc(env, Step(env, s, ops[0]), ops[1..], op);
      assert all[0] == ops[0] && all[1..] == ops[1..] + [op];
    }
  }

  /** Some run from nothing leads here. */
  ghost predicate Reachable(env: Env, s: Control) {
    exists s0, ops :: FromNothing(env, s0, ops) && Run(env, s0, ops) == s
  }

  lemma NothingReachable(env: Env, s: Control)
    requires Initial(s)
    ensures Reachable(env, s)
  {
    assert FromNothing(env, s, []) && Run(env, s, []) == s;
  }

  lemma ReachableStep(env: Env, s: Control, op: Op)
    requires Reachable(env, s) && Legal(s, op)
    ensures Kept(env, s) && Reachable(env, Step(env, s, op))
  {
    var s0, ops :| FromNothing(env, s0, ops) && Run(env, s0, ops) == s;
    FromNothingKept(env, s0, ops);
    RunSnoc(env, s0, ops, op);
    assert FromNothing(env, s0, ops + [op]);
  }
}
