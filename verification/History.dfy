/** What the log itself says over its whole history: pauses, gate verdicts and their
    evidence, and what makes a graph shippable. */
module History {
  import opened Basics
  import opened Schema
  import opened Events
  import opened Replay
  import opened Control
  import opened Moves
  import opened Projection
  import opened Restart
  import opened Recovery
  import opened Runs
  import JsonText

  // ---------- what replay computes, said about the entries ----------

  predicate PauseAt(log: seq<Event>, i: int, team: string) {
    0 <= i < |log| && log[i].TeamPaused? && log[i].team == team
  }

  predicate ResumeAt(log: seq<Event>, i: int, team: string) {
    0 <= i < |log| && log[i].TeamResumed? && log[i].team == team
  }

  /** Some pause of the team has no resume after it. */
  ghost predicate Frozen(log: seq<Event>, team: string) {
    exists i :: PauseAt(log, i, team) && forall j :: i < j < |log| ==> !ResumeAt(log, j, team)
  }

  lemma {:induction false} PausedIffFrozen(log: seq<Event>, team: string)
    ensures team in Replayed(log).paused <==> Frozen(log, team)
  {
    if log != [] {
      var n := |log| - 1;
      var head, ev := log[..n], log[n];
      PausedIffFrozen(head, team);
      assert forall i :: PauseAt(head, i, team) <==> PauseAt(log, i, team) && i < n;
      assert forall i :: ResumeAt(head, i, team) <==> ResumeAt(log, i, team) && i < n;
      if PauseAt(log, n, team) {
        assert Frozen(log, team);
      } else if ResumeAt(log, n, team) {
        assert !Frozen(log, team);
      } else {
        FrozenSnoc(log, team);
      }
    }
  }

  lemma FrozenSnoc(log: seq<Event>, team: string)
    requires log != []
    requires !PauseAt(log, |log| - 1, team) && !ResumeAt(log, |log| - 1, team)
    ensures Frozen(log, team) <==> Frozen(log[..|log| - 1], team)
  {
    var head := log[..|log| - 1];
    if Frozen(log, team) {
      var i :| PauseAt(log, i, team) && forall j :: i < j < |log| ==> !ResumeAt(log, j, team);
      forall j | i < j < |head| ensures !ResumeAt(head, j, team) {
        assert !ResumeAt(log, j, team);
      }
      assert PauseAt(head, i, team);
    }
    if Frozen(head, team) {
      var i :| PauseAt(head, i, team) && forall j :: i < j < |head| ==> !ResumeAt(head, j, team);
      assert PauseAt(log, i, team);
      forall j | i < j < |log| ensures !ResumeAt(log, j, team) {
        if j < |head| { assert !ResumeAt(head, j, team); }
      }
    }
  }

  predicate VerdictAt(log: seq<Event>, i: int, t: string) {
    0 <= i < |log| && log[i].GateOutcome? && log[i].taskId == t
  }

  /** Entry i is the last gate result of the task. */
  ghost predicate LastVerdict(log: seq<Event>, i: int, t: string) {
    VerdictAt(log, i, t) && forall j :: i < j < |log| ==> !VerdictAt(log, j, t)
  }

  lemma {:induction false} ResultIsLastVerdict(log: seq<Event>, t: string) returns (i: int)
    requires t in Replayed(log).gateResults
    ensures LastVerdict(log, i, t) && log[i].passed == Replayed(log).gateResults[t]
  {
    var n := |log| - 1;
    if VerdictAt(log, n, t) {
      i := n;
    } else {
      i := ResultIsLastVerdict(log[..n], t);
      forall j | i < j < |log| ensures !VerdictAt(log, j, t) {
        if j < n { assert !VerdictAt(log[..n], j, t); }
      }
    }
  }

  predicate DispatchAt(log: seq<Event>, i: int, t: string) {
    0 <= i < |log| && log[i].Dispatched? && log[i].taskId == t
  }

  lemma {:induction false} DispatchedIsLogged(log: seq<Event>, t: string)
    requires t in Replayed(log).dispatched
    ensures var m := Replayed(log).dispatched[t]; DispatchAt(log, m.seqNo, t) && MetaOf(log[m.seqNo], m.seqNo) == m
  {
    if !DispatchAt(log, |log| - 1, t) { DispatchedIsLogged(log[..|log| - 1], t); }
  }

  lemma {:induction false} LoggedIsDispatched(log: seq<Event>, i: int, t: string)
    requires DispatchAt(log, i, t)
    ensures t in Replayed(log).dispatched
    decreases |log|
  {
    if i < |log| - 1 { LoggedIsDispatched(log[..|log| - 1], i, t); }
  }

  lemma NotDispatchedAgain(env: Env, log: seq<Event>, i: int, j: int, t: string)
    requires AllAdmissible(env, log) && DispatchAt(log, i, t) && i < j < |log|
    ensures !DispatchAt(log, j, t)
  {
    assert DispatchAt(log[..j], i, t);
    LoggedIsDispatched(log[..j], i, t);
    assert Admissible(env, Replayed(log[..j]), log[j]);
  }

  /** Every task id is dispatched at most once, in any admissible log. */
  lemma DispatchedOnce(env: Env, log: seq<Event>, i: int, j: int, t: string)
    requires AllAdmissible(env, log) && DispatchAt(log, i, t) && DispatchAt(log, j, t)
    ensures i == j
  {
    if i < j { NotDispatchedAgain(env, log, i, j, t); }
    if j < i { NotDispatchedAgain(env, log, j, i, t); }
  }

  // ---------- pauses ----------

  lemma NoDispatchWhileFrozen(env: Env, log: seq<Event>, i: nat)
    requires AllAdmissible(env, log) && i < |log| && log[i].Dispatched?
    ensures !Frozen(log[..i], log[i].team)
  {
    assert Admissible(env, Replayed(log[..i]), log[i]);
    PausedIffFrozen(log[..i], log[i].team);
  }

  /** No dispatch entry goes to a team that stood paused: between a pause and the next
      resume of a team there is none, whatever restarts came in between. */
  lemma PauseRespected(env: Env, s: Control, ops: seq<Op>, i: nat)
    requires FromNothing(env, s, ops) && i < |Run(env, s, ops).log| && Run(env, s, ops).log[i].Dispatched?
    ensures var log := Run(env, s, ops).log; !Frozen(log[..i], log[i].team)
  {
    FromNothingKept(env, s, ops);
    NoDispatchWhileFrozen(env, Run(env, s, ops).log, i);
  }

  /** One more cold start changes nothing that replay reads, and leaves every team as paused
      as it was. */
  lemma AnotherStartIsNeutral(env: Env, start: Start, log: seq<Event>, team: string)
    requires AllAdmissible(env, log) && start.ring.keys != []
    ensures Replayed(Started(start, log).0.log) == Replayed(log)
    ensures Frozen(Started(start, log).0.log, team) <==> Frozen(log, team)
  {
    StartReplays(env, start, log);
    PausedIffFrozen(log, team);
    PausedIffFrozen(Started(start, log).0.log, team);
  }

  // ---------- what stands behind shipping ----------

  /** A dispatch entry for the node, and after it a passing last gate result of that task for
      the gate it was dispatched with. */
  ghost predicate Proven(env: Env, s: Control, graphId: string, nodeId: string, t: string, d: int, g: int) {
    && DispatchAt(s.log, d, t) && d < g && LastVerdict(s.log, g, t)
    && s.log[d].graphId == graphId && s.log[d].nodeId == nodeId
    && s.log[g].passed && s.log[g].gate == s.log[d].exitGate && Evidenced(env, s.log[g])
  }

  lemma VerdictProven(env: Env, s: Control, t: string, g: int) returns (d: int)
    requires Sound(env, s) && LastVerdict(s.log, g, t) && s.log[g].passed && t in s.tasks
    ensures Proven(env, s, s.tasks[t].envelope.graphId, s.tasks[t].envelope.nodeId, t, d, g)
  {
    d := s.tasks[t].envelope.parentAuditSeq;
    var before := Replayed(s.log[..g]);
    assert Admissible(env, before, s.log[g]);
    DispatchedIsLogged(s.log[..g], t);
    DispatchedIsLogged(s.log, t);
    assert Identity(s.tasks[t].envelope) == Replayed(s.log).dispatched[t];
    assert DispatchAt(s.log, before.dispatched[t].seqNo, t);
    DispatchedOnce(env, s.log, d, before.dispatched[t].seqNo, t);
  }

  /** Whenever a graph may ship, every node has an owner with a dispatch entry and a passing
      last gate result in the log. */
  lemma ShippingIsProven(env: Env, s: Control, graph: WorkGraph, graphId: string, i: nat) returns (t: string, d: int, g: int)
    requires Sound(env, s) && MayShip(s, graph, graphId) && i < |graph.nodes|
    ensures LiveTask(s, graphId, graph.nodes[i].id) == Some(t) && Proven(env, s, graphId, graph.nodes[i].id, t, d, g)
  {
    assert NodePassed(s, graphId, graph.nodes[i].id);
    t := LiveTask(s, graphId, graph.nodes[i].id).value;
    assert s.tasks[t].envelope.Key() == (graphId, graph.nodes[i].id);
    g := ResultIsLastVerdict(s.log, t);
    d := VerdictProven(env, s, t, g);
  }

  // ---------- only a gate makes a graph shippable ----------

  lemma UngatedKeepsUnpassed(env: Env, s: Control, m: Move, graphId: string, nodeId: string)
    requires Enabled(env, s, m) && Ungated(m) && NodePassed(After(env, s, m), graphId, nodeId)
    ensures NodePassed(s, graphId, nodeId)
  {
    var s' := After(env, s, m);
    assert (graphId, nodeId) in s'.byNode;
    if m.Reported? { assert !StateOf(m.update.state).Passed?; }
  }

  lemma {:induction false} UngatedPathKeepsUnpassed(env: Env, s: Control, ms: seq<Move>, s': Control, graphId: string, nodeId: string)
    requires PathBy(env, s, ms, s', Ungated) && NodePassed(s', graphId, nodeId)
    ensures NodePassed(s, graphId, nodeId)
    decreases |ms|
  {
    if ms != [] {
      assert PathBy(env, After(env, s, ms[0]), ms[1..], s', Ungated);
      UngatedPathKeepsUnpassed(env, After(env, s, ms[0]), ms[1..], s', graphId, nodeId);
      UngatedKeepsUnpassed(env, s, ms[0], graphId, nodeId);
    }
  }

  /** Operations other than accept_gate make no node passed. */
  lemma UngatedStepShips(env: Env, s: Control, op: Op, graph: WorkGraph, graphId: string)
    requires Legal(s, op) && !op.StartOp? && !op.GateOp? && !s.readOnly && s.ring.keys != []
    requires MayShip(Step(env, s, op), graph, graphId)
    ensures MayShip(s, graph, graphId)
  {
    UngatedStep(env, s, op);
    var ms :| PathBy(env, s, ms, Step(env, s, op), Ungated);
    forall i | 0 <= i < |graph.nodes| ensures NodePassed(s, graphId, graph.nodes[i].id) {
      assert NodePassed(Step(env, s, op), graphId, graph.nodes[i].id);
      UngatedPathKeepsUnpassed(env, s, ms, Step(env, s, op), graphId, graph.nodes[i].id);
    }
  }

  /** The operation is accept_gate with a passing result for this task. */
  predicate PassesTask(env: Env, s: Control, op: Op, t: string) {
    op.GateOp? && op.taskId == t && AcceptGate(env, s, t, op.raw, op.now).1.Ok? && AcceptGate(env, s, t, op.raw, op.now).1.value.passed
  }

  /** The task owns a node of the graph, and the other nodes have passed. */
  predicate OnlyMissing(s: Control, graph: WorkGraph, graphId: string, t: string) {
    forall i :: 0 <= i < |graph.nodes| ==>
      NodePassed(s, graphId, graph.nodes[i].id) || LiveTask(s, graphId, graph.nodes[i].id) == Some(t)
  }

  /** An operation of a running dispatcher makes a graph shippable exactly when it passes the
      gate of the owner of all its nodes that had not passed. */
  lemma ShippingNeedsAPass(env: Env, s: Control, op: Op, graph: WorkGraph, graphId: string)
    requires Sound(env, s) && Legal(s, op) && !op.StartOp? && !MayShip(s, graph, graphId)
    ensures MayShip(Step(env, s, op), graph, graphId) <==>
      op.GateOp? && PassesTask(env, s, op, op.taskId) && OnlyMissing(s, graph, graphId, op.taskId)
  {
    if op.GateOp? {
      GateShips(env, s, op, graph, graphId);
    } else if MayShip(Step(env, s, op), graph, graphId) {
      UngatedStepShips(env, s, op, graph, graphId);
    }
  }

  lemma GateMovesNode(env: Env, s: Control, op: Op, graphId: string, nodeId: string)
    requires Legal(s, op) && op.GateOp? && !s.readOnly && s.ring.keys != []
    ensures var owned := PassesTask(env, s, op, op.taskId) && LiveTask(s, graphId, nodeId) == Some(op.taskId);
      && (NodePassed(Step(env, s, op), graphId, nodeId) ==> NodePassed(s, graphId, nodeId) || owned)
      && (PassesTask(env, s, op, op.taskId) && NodePassed(s, graphId, nodeId) ==> NodePassed(Step(env, s, op), graphId, nodeId))
      && (owned ==> NodePassed(Step(env, s, op), graphId, nodeId))
  {
    assert LiveTask(Step(env, s, op), graphId, nodeId) == LiveTask(s, graphId, nodeId);
  }

  lemma GateShips(env: Env, s: Control, op: Op, graph: WorkGraph, graphId: string)
    requires Legal(s, op) && op.GateOp? && !s.readOnly && s.ring.keys != [] && !MayShip(s, graph, graphId)
    ensures MayShip(Step(env, s, op), graph, graphId) <==>
      PassesTask(env, s, op, op.taskId) && OnlyMissing(s, graph, graphId, op.taskId)
  {
    forall i | 0 <= i < |graph.nodes| { GateMovesNode(env, s, op, graphId, graph.nodes[i].id); }
    var missing :| 0 <= missing < |graph.nodes| && !NodePassed(s, graphId, graph.nodes[missing].id);
    if MayShip(Step(env, s, op), graph, graphId) {
      assert NodePassed(Step(env, s, op), graphId, graph.nodes[missing].id);
    }
  }

  /** In particular no status report makes a graph shippable, whatever it says. */
  lemma NoReportShips(env: Env, s: Control, raw: JsonText.Json, graph: WorkGraph, graphId: string)
    requires Sound(env, s) && !MayShip(s, graph, graphId)
    ensures !MayShip(IngestStatus(env, s, raw).0, graph, graphId)
  {
    ShippingNeedsAPass(env, s, StatusOp(raw), graph, graphId);
  }

  // ---------- leads only ----------

  /** Entries from position n on hand work only to the lead of its team. */
  ghost predicate ToLeads(s: Control, n: int, log: seq<Event>) {
    forall i | n <= i < |log| && 0 <= i && (log[i].Dispatched? || log[i].IngressAccepted?) :: log[i].lead == LeadOf(s, log[i].team)
  }

  lemma MoveToLead(env: Env, s: Control, m: Move)
    requires Enabled(env, s, m)
    ensures ToLeads(s, |s.log|, After(env, s, m).log) && After(env, s, m).topology == s.topology
  {
    MoveLogs(env, s, m);
    if m.Accepted? {
      var now :| IngressRefusal(env, s, m.e, m.toAgent, now).None?;
    }
  }

  lemma {:induction false} PathToLeads(env: Env, s: Control, ms: seq<Move>, s': Control)
    requires Path(env, s, ms, s')
    ensures s.log <= s'.log && ToLeads(s, |s.log|, s'.log)
    decreases |ms|
  {
    if ms != [] {
      var s1 := After(env, s, ms[0]);
      MoveLogs(env, s, ms[0]);
      MoveToLead(env, s, ms[0]);
      PathToLeads(env, s1, ms[1..], s');
      LeadsJoin(s, s1, s'.log);
    }
  }

  lemma LeadsJoin(s: Control, s1: Control, log: seq<Event>)
    requires s1.topology == s.topology && s.log <= s1.log <= log
    requires ToLeads(s, |s.log|, s1.log) && ToLeads(s1, |s1.log|, log)
    ensures ToLeads(s, |s.log|, log)
  {
    forall i | |s.log| <= i < |log| && (log[i].Dispatched? || log[i].IngressAccepted?) ensures log[i].lead == LeadOf(s, log[i].team) {
      assert i < |s1.log| ==> log[i] == s1.log[i];
    }
  }

  /** All work flows through team leads (invariant I1): every dispatch and every acceptance
      that an operation logs names the declared lead of the team. */
  lemma WorkGoesToLeads(env: Env, s: Control, op: Op)
    requires Legal(s, op) && !s.readOnly && s.ring.keys != [] && !op.StartOp?
    ensures ToLeads(s, |s.log|, Step(env, s, op).log)
  {
    StepReaches(env, s, op);
    var ms :| Path(env, s, ms, Step(env, s, op));
    PathToLeads(env, s, ms, Step(env, s, op));
  }
}
