/** Readiness against shipping: dispatch_graph counts any passed task of a node, shipping only
    the owner's. This module says when the two agree. */
module Readiness {
  import opened Basics
  import opened Schema
  import opened Events
  import opened Replay
  import opened Control
  import opened Moves
  import opened Projection
  import opened Restart
  import opened Recovery
  import opened Runs
  import opened Ownership
  import opened History
  import Gates

  /** Every passed task owns its node. */
  predicate PassedAreLive(s: Control) {
    forall t :: t in s.tasks && s.tasks[t].state.Passed? ==> Live(s, t)
  }

  /** Then a node satisfies its dependants exactly when it counts for shipping. */
  lemma SatisfiedIffPassed(s: Control, graphId: string, nodeId: string)
    requires PassedAreLive(s) && NodesNamed(s)
    ensures nodeId in Satisfied(s, graphId) <==> NodePassed(s, graphId, nodeId)
  {
    if nodeId in Satisfied(s, graphId) {
      var t :| t in s.tasks && s.tasks[t].state.Passed? && s.tasks[t].envelope.graphId == graphId
        && s.tasks[t].envelope.nodeId == nodeId;
      assert Live(s, t);
    }
    if NodePassed(s, graphId, nodeId) {
      var t := s.byNode[(graphId, nodeId)];
      assert s.tasks[t].envelope.Key() == (graphId, nodeId);
    }
  }

  /** A gate result keeps this exactly when it does not pass a task that lost its node. */
  lemma JudgeKeepsIffLive(env: Env, s: Control, t: string, result: Gates.GateResult)
    requires PassedAreLive(s) && t in s.tasks
    ensures PassedAreLive(Judge(env, s, t, result)) <==> !result.passed || Live(s, t)
  {
    var s' := Judge(env, s, t, result);
    assert forall u :: u in s.tasks ==> (Live(s', u) <==> Live(s, u));
    assert s'.tasks[t].state.Passed? <==> result.passed;
  }

  // ---------- the other moves ----------

  /** Records and owners stay, and no task passes. */
  lemma NonePasses(s: Control, s': Control)
    requires PassedAreLive(s) && s'.byNode == s.byNode && s'.tasks.Keys == s.tasks.Keys
    requires forall t :: t in s.tasks ==>
      s'.tasks[t].envelope == s.tasks[t].envelope && (s'.tasks[t].state.Passed? ==> s.tasks[t].state.Passed?)
    ensures PassedAreLive(s')
  {
    forall t | t in s'.tasks && s'.tasks[t].state.Passed? ensures Live(s', t) {
      assert Live(s, t);
    }
  }

  lemma EnqueueKeeps(env: Env, s: Control, e: Envelope, lead: string, now: int)
    requires PassedAreLive(s) && Fits(env, s, e)
    ensures PassedAreLive(Enqueue(env, s, e, lead, now))
  {
    var s' := Enqueue(env, s, e, lead, now);
    forall t | t in s'.tasks && s'.tasks[t].state.Passed? ensures Live(s', t) {
      assert t in s.tasks && s'.tasks[t] == s.tasks[t] && Live(s, t);
    }
  }

  lemma QuietMoveKeeps(env: Env, s: Control, m: Move)
    requires PassedAreLive(s) && Enabled(env, s, m) && Quiet(m) && Ungated(m)
    ensures PassedAreLive(After(env, s, m))
  {
    if m.Enqueued? {
      EnqueueKeeps(env, s, m.e, m.lead, m.now);
    } else {
      if m.Reported? { assert !StateOf(m.update.state).Passed?; }
      NonePasses(s, After(env, s, m));
    }
  }

  lemma {:induction false} AssigningPathKeeps(env: Env, s: Control, ms: seq<Move>, s': Control)
    requires PathBy(env, s, ms, s', Assigning) && PassedAreLive(s)
    ensures PassedAreLive(s')
    decreases |ms|
  {
    if ms != [] {
      assert Assigning(ms[0]);
      QuietMoveKeeps(env, s, ms[0]);
      assert PathBy(env, After(env, s, ms[0]), ms[1..], s', Assigning);
      AssigningPathKeeps(env, After(env, s, ms[0]), ms[1..], s');
    }
  }

  lemma AssigningKeeps(env: Env, s: Control, s': Control)
    requires ReachesBy(env, s, s', Assigning) && PassedAreLive(s)
    ensures PassedAreLive(s')
  {
    var ms :| PathBy(env, s, ms, s', Assigning);
    AssigningPathKeeps(env, s, ms, s');
  }

  // ---------- reclaims and cold starts ----------

  /** The owner of a node is abandoned together with its node; nobody else of the node had
      passed. */
  lemma BaseKeeps(s: Control, t: string, reason: string)
    requires PassedAreLive(s) && t in s.tasks && Live(s, t)
    ensures PassedAreLive(ReclaimBase(s, t, reason))
  {
    var base := ReclaimBase(s, t, reason);
    forall u | u in base.tasks && base.tasks[u].state.Passed? ensures Live(base, u) {
      assert u != t && Live(s, u);
    }
  }

  lemma AbandonKeeps(s: Control, t: string, reason: string)
    requires PassedAreLive(s) && t in s.tasks
    ensures PassedAreLive(Abandon(s, t, reason))
  {
    NonePasses(s, Abandon(s, t, reason));
  }

  lemma SupersedeKeeps(s: Control, t: string, next: string)
    requires PassedAreLive(s) && t in s.tasks
    ensures PassedAreLive(Supersede(s, t, next))
  {
    NonePasses(s, Supersede(s, t, next));
  }

  lemma InnerKeeps(env: Env, s: Control, t: string, reason: string, graph: WorkGraph, draw: Draw)
    requires Sound(env, s) && FreshDraws(s, [draw]) && PassedAreLive(s) && t in s.tasks
    requires Live(s, t) && Releases(s, t, graph)
    ensures PassedAreLive(Inner(env, s, t, reason, graph, draw).0)
  {
    var base, e := ReclaimBase(s, t, reason), s.tasks[t].envelope;
    BaseKeeps(s, t, reason);
    assert base.tasks.Keys == s.tasks.Keys;
    DispatchReaches(env, base, graph.Node(e.nodeId).value, e.graphId, map[], None, DEFAULT_TTL, draw);
    AssigningKeeps(env, base, Inner(env, s, t, reason, graph, draw).0);
  }

  lemma CarefulReclaimKeeps(env: Env, s: Control, t: string, reason: string, graph: WorkGraph, draw: Draw)
    requires Sound(env, s) && FreshDraws(s, [draw]) && PassedAreLive(s) && Careful(s, t, graph)
    ensures PassedAreLive(Reclaim(env, s, t, reason, graph, draw).0)
  {
    if ReclaimRefusal(s, t).None? {
      ReclaimCases(env, s, t, reason, graph, draw);
      if Releases(s, t, graph) {
        InnerKeeps(env, s, t, reason, graph, draw);
        InnerPlaces(env, s, t, reason, graph, draw);
        var (s1, r) := Inner(env, s, t, reason, graph, draw);
        if r.Ok? { SupersedeKeeps(s1, t, r.value.taskId); }
      } else {
        AbandonKeeps(s, t, reason);
      }
    }
  }

  lemma StartKeeps(env: Env, start: Start, log: seq<Event>)
    requires AllAdmissible(env, log) && CanStart(start, log) && Sole(Replayed(log))
    ensures PassedAreLive(Started(start, log).0)
  {
    var s, r := Started(start, log).0, Replayed(log);
    StartMemory(env, start, log);
    StartReplays(env, start, log);
    StartedRecords(env, start, log);
    AdmissibleRestorable(env, log);
    forall t | t in s.tasks && s.tasks[t].state.Passed? ensures Live(s, t) {
      RestoredIdentity(r, t, |log|);
    }
  }

  // ---------- over runs ----------

  /** Gates are passed only for the record that live_record answers. */
  predicate PassesOwners(env: Env, s: Control, op: Op) {
    op.GateOp? && !s.readOnly && PassesTask(env, s, op, op.taskId) ==> op.taskId in s.tasks && Live(s, op.taskId)
  }

  ghost predicate Agreeing(s: Control) {
    Owned(s) && (!s.readOnly ==> PassedAreLive(s))
  }

  lemma GateStepKeeps(env: Env, s: Control, op: Op)
    requires Sound(env, s) && op.GateOp? && PassedAreLive(s) && PassesOwners(env, s, op)
    ensures PassedAreLive(AcceptGate(env, s, op.taskId, op.raw, op.now).0)
  {
    var (s', r) := AcceptGate(env, s, op.taskId, op.raw, op.now);
    if r.Ok? { JudgeKeepsIffLive(env, s, op.taskId, r.value); }
  }

  lemma SmallStepKeeps(env: Env, s: Control, op: Op)
    requires Sound(env, s) && Legal(s, op) && Small(op) && !op.GateOp? && PassedAreLive(s)
    ensures PassedAreLive(Step(env, s, op))
  {
    if Step(env, s, op) != s {
      var m := SmallOpMoves(env, s, op);
      QuietMoveKeeps(env, s, m);
    }
  }

  lemma StepAgreeing(env: Env, s: Control, op: Op)
    requires Kept(env, s) && Legal(s, op) && Agreeing(s) && CarefulOp(s, op) && PassesOwners(env, s, op)
    ensures Agreeing(Step(env, s, op))
  {
    StepOwned(env, s, op);
    if op.StartOp? {
      if !s.readOnly { OwnersAreSole(s); }
      if Started(op.start, s.log).1.Ok? {
        StartKeeps(env, op.start, s.log);
      } else {
        var _ := StartedState(op.start, s.log);
      }
    } else if !s.readOnly {
      if op.GateOp? {
        GateStepKeeps(env, s, op);
      } else if Small(op) {
        SmallStepKeeps(env, s, op);
      } else if op.ReclaimOp? {
        CarefulReclaimKeeps(env, s, op.taskId, op.reason, op.graph, op.draw);
      } else {
        AssigningStep(env, s, op);
        AssigningKeeps(env, s, Step(env, s, op));
      }
    }
  }

  ghost predicate AttentiveRun(env: Env, s: Control, ops: seq<Op>)
    requires LegalRun(env, s, ops)
    decreases |ops|
  {
    ops == [] || (CarefulOp(s, ops[0]) && PassesOwners(env, s, ops[0])
                  && AttentiveRun(env, Step(env, s, ops[0]), ops[1..]))
  }

  lemma {:induction false} RunAgreeing(env: Env, s: Control, ops: seq<Op>)
    requires Kept(env, s) && LegalRun(env, s, ops) && AttentiveRun(env, s, ops) && Agreeing(s)
    ensures Agreeing(Run(env, s, ops))
    decreases |ops|
  {
    if ops != [] {
      StepKept(env, s, ops[0]);
      StepAgreeing(env, s, ops[0]);
      RunAgreeing(env, Step(env, s, ops[0]), ops[1..]);
    }
  }

  /** From nothing, over any run with restarts whose reclaims are careful and whose gates are
      passed on the live record, readiness is exactly what shipping looks at. */
  lemma ReadyMeansPassed(env: Env, s: Control, ops: seq<Op>, graphId: string, nodeId: string)
    requires FromNothing(env, s, ops) && AttentiveRun(env, s, ops) && !Run(env, s, ops).readOnly
    ensures nodeId in Satisfied(Run(env, s, ops), graphId) <==> NodePassed(Run(env, s, ops), graphId, nodeId)
  {
    FromNothingKept(env, s, ops);
    RunAgreeing(env, s, ops);
    SatisfiedIffPassed(Run(env, s, ops), graphId, nodeId);
  }
}
