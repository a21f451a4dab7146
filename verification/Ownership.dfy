/** One owner per node: which reclaims keep it, over whole runs. */
module Ownership {
  import opened Basics
  import opened Schema
  import opened Events
  import opened Replay
  import opened Control
  import opened Moves
  import opened Projection
  import opened Restart
  import opened Recovery
  import opened Runs
  import Restored

  lemma {:induction false} PathOneOwner(env: Env, s: Control, ms: seq<Move>, s': Control)
    requires PathBy(env, s, ms, s', Quiet) && Memory(s) && AllAdmissible(env, s.log) && OneOwner(s)
    ensures OneOwner(s')
    decreases |ms|
  {
    if ms != [] {
      MoveMemory(env, s, ms[0]);
      MoveAdmissible(env, s, ms[0]);
      MoveOneOwner(env, s, ms[0]);
      assert PathBy(env, After(env, s, ms[0]), ms[1..], s', Quiet);
      PathOneOwner(env, After(env, s, ms[0]), ms[1..], s');
    }
  }

  lemma QuietlyOneOwner(env: Env, s: Control, s': Control)
    requires ReachesBy(env, s, s', Quiet) && Sound(env, s) && OneOwner(s)
    ensures OneOwner(s')
  {
    var ms :| PathBy(env, s, ms, s', Quiet);
    PathOneOwner(env, s, ms, s');
  }

  predicate Live(s: Control, t: string)
    requires t in s.tasks
  {
    var key := s.tasks[t].envelope.Key();
    key in s.byNode && s.byNode[key] == t
  }

  /** The reclaim reaches its inner dispatch: the graph has the node, and the node has an
      owner to release. */
  predicate Releases(s: Control, t: string, graph: WorkGraph)
    requires t in s.tasks
  {
    s.tasks[t].envelope.nodeId in graph.Ids() && s.tasks[t].envelope.Key() in s.byNode
  }

  /** The caller reclaims the owner of a node with a graph that has the node, or a task that
      is no owner and whose reclaim releases nothing. */
  predicate Careful(s: Control, t: string, graph: WorkGraph) {
    ReclaimRefusal(s, t).None? ==> (Live(s, t) <==> Releases(s, t, graph))
  }

  lemma AbandonReplayed(s: Control, t: string, reason: string)
    requires t in s.tasks
    ensures Replayed(Abandon(s, t, reason).log) == Replayed(s.log).(reclaimed := Replayed(s.log).reclaimed + {t})
  {
    ReplayedSnoc(s.log, Reclaimed(t, s.tasks[t].envelope.team, reason));
  }

  /** A reclaim that stops after logging keeps one owner per node exactly for a task that
      was no owner. */
  lemma AbandonOwners(s: Control, t: string, reason: string)
    requires Memory(s) && OneOwner(s) && t in s.tasks
    ensures OneOwner(Abandon(s, t, reason)) <==> !Live(s, t)
  {
    var s1 := Abandon(s, t, reason);
    AbandonReplayed(s, t, reason);
    if !Live(s, t) {
      assert t in Replayed(s.log).reclaimed;
      assert Replayed(s1.log).reclaimed == Replayed(s.log).reclaimed;
    }
  }

  lemma BaseOwned(env: Env, s: Control, t: string, reason: string)
    requires Sound(env, s) && OneOwner(s) && ReclaimRefusal(s, t).None? && Live(s, t)
    ensures Sound(env, ReclaimBase(s, t, reason)) && OneOwner(ReclaimBase(s, t, reason))
  {
    BaseReaches(env, s, t, reason);
    ByReaches(env, s, ReclaimBase(s, t, reason), Ungated);
    ReachesSound(env, s, ReclaimBase(s, t, reason));
    ReleaseOneOwner(env, s, t, reason);
  }

  lemma InnerOwned(env: Env, s: Control, t: string, reason: string, graph: WorkGraph, draw: Draw)
    requires Sound(env, s) && OneOwner(s) && FreshDraws(s, [draw]) && ReclaimRefusal(s, t).None?
    requires Live(s, t) && Releases(s, t, graph)
    ensures OneOwner(Inner(env, s, t, reason, graph, draw).0)
  {
    BaseOwned(env, s, t, reason);
    InnerQuietly(env, s, t, reason, graph, draw);
    QuietlyOneOwner(env, ReclaimBase(s, t, reason), Inner(env, s, t, reason, graph, draw).0);
  }

  lemma InnerQuietly(env: Env, s: Control, t: string, reason: string, graph: WorkGraph, draw: Draw)
    requires !s.readOnly && s.ring.keys != [] && FreshDraws(s, [draw]) && t in s.tasks && graph.Node(s.tasks[t].envelope.nodeId).Ok?
    ensures ReachesBy(env, ReclaimBase(s, t, reason), Inner(env, s, t, reason, graph, draw).0, Quiet)
  {
    var base, e := ReclaimBase(s, t, reason), s.tasks[t].envelope;
    assert base.tasks.Keys == s.tasks.Keys;
    DispatchReaches(env, base, graph.Node(e.nodeId).value, e.graphId, map[], None, DEFAULT_TTL, draw);
    Widen(env, base, Inner(env, s, t, reason, graph, draw).0, Assigning, Quiet);
  }

  lemma LinkOwned(s: Control, t: string, next: string)
    requires OneOwner(s) && t in s.tasks
    ensures OneOwner(Supersede(s, t, next))
  {
    OwnersUnmoved(s, Supersede(s, t, next), Replayed(s.log).reclaimed);
  }

  lemma ReclaimOfOwner(env: Env, s: Control, t: string, reason: string, graph: WorkGraph, draw: Draw)
    requires Sound(env, s) && OneOwner(s) && FreshDraws(s, [draw]) && ReclaimRefusal(s, t).None?
    requires Live(s, t) && Releases(s, t, graph)
    ensures OneOwner(Reclaim(env, s, t, reason, graph, draw).0)
  {
    ReclaimCases(env, s, t, reason, graph, draw);
    InnerOwned(env, s, t, reason, graph, draw);
    InnerPlaces(env, s, t, reason, graph, draw);
    var (s1, r) := Inner(env, s, t, reason, graph, draw);
    if r.Ok? { LinkOwned(s1, t, r.value.taskId); }
  }

  /** Releasing the node of another task leaves that task without its node. */
  lemma InnerOfOther(env: Env, s: Control, t: string, reason: string, graph: WorkGraph, draw: Draw)
    requires Memory(s) && OneOwner(s) && FreshDraws(s, [draw]) && ReclaimRefusal(s, t).None?
    requires !Live(s, t) && Releases(s, t, graph)
    ensures var s1 := Inner(env, s, t, reason, graph, draw).0; var key := s.tasks[t].envelope.Key(); Orphaned(s1, s.byNode[key], key)
  {
    var base, e := ReclaimBase(s, t, reason), s.tasks[t].envelope;
    var (s1, r) := Inner(env, s, t, reason, graph, draw);
    AbandonReplayed(s, t, reason);
    assert [draw][0].taskId !in s.tasks;
    DispatchOutcome(env, base, graph.Node(e.nodeId).value, e.graphId, map[], None, DEFAULT_TTL, draw);
    OutcomeLeaves(env, base, s1, r, e.Key(), s.byNode[e.Key()]);
  }

  /** An unreclaimed task whose node does not name it. */
  ghost predicate Orphaned(s: Control, u: string, key: (string, string)) {
    && u in s.tasks && u !in Replayed(s.log).reclaimed && s.tasks[u].envelope.Key() == key
    && !(key in s.byNode && s.byNode[key] == u)
  }

  lemma ReclaimOfOther(env: Env, s: Control, t: string, reason: string, graph: WorkGraph, draw: Draw)
    requires Sound(env, s) && OneOwner(s) && FreshDraws(s, [draw]) && ReclaimRefusal(s, t).None?
    requires !Live(s, t) && Releases(s, t, graph)
    ensures var key := s.tasks[t].envelope.Key(); Orphaned(Reclaim(env, s, t, reason, graph, draw).0, s.byNode[key], key)
  {
    ReclaimCases(env, s, t, reason, graph, draw);
    InnerOfOther(env, s, t, reason, graph, draw);
    InnerPlaces(env, s, t, reason, graph, draw);
    var (s1, r) := Inner(env, s, t, reason, graph, draw);
    var key := s.tasks[t].envelope.Key();
    if r.Ok? { LinkOrphans(s1, t, r.value.taskId, s.byNode[key], key); }
  }

  lemma LinkOrphans(s: Control, t: string, next: string, u: string, key: (string, string))
    requires Orphaned(s, u, key) && t in s.tasks
    ensures Orphaned(Supersede(s, t, next), u, key)
  {}

  lemma OutcomeLeaves(env: Env, s: Control, s': Control, r: Result<Envelope>, key: (string, string), u: string)
    requires Outcome(env, s, s', r, key) && u in s.tasks && s.tasks[u].envelope.Key() == key && key !in s.byNode
    requires u !in Replayed(s.log).reclaimed
    ensures Orphaned(s', u, key)
  {
    if !OnlyRing(s, s') {
      var e := r.value;
      var s1, lead, now :| OnlyRing(s, s1) && Fits(env, s1, e) && s' == Enqueue(env, s1, e, lead, now);
      EnqueueLeaves(env, s1, e, lead, now, u);
    }
  }

  lemma EnqueueLeaves(env: Env, s: Control, e: Envelope, lead: string, now: int, u: string)
    requires Fits(env, s, e) && u in s.tasks && s.tasks[u].envelope.Key() == e.Key() && u !in Replayed(s.log).reclaimed
    ensures Orphaned(Enqueue(env, s, e, lead, now), u, e.Key())
  {
    ReplayedSnoc(s.log, DispatchEvent(env, e, lead));
  }

  /** A reclaim keeps one owner per node exactly when it is careful. */
  lemma ReclaimKeepsOneOwnerIffCareful(env: Env, s: Control, t: string, reason: string, graph: WorkGraph, draw: Draw)
    requires Sound(env, s) && OneOwner(s) && FreshDraws(s, [draw])
    ensures OneOwner(Reclaim(env, s, t, reason, graph, draw).0) <==> Careful(s, t, graph)
  {
    if ReclaimRefusal(s, t).None? {
      ReclaimCases(env, s, t, reason, graph, draw);
      if !Releases(s, t, graph) {
        AbandonOwners(s, t, reason);
      } else if Live(s, t) {
        ReclaimOfOwner(env, s, t, reason, graph, draw);
      } else {
        ReclaimOfOther(env, s, t, reason, graph, draw);
      }
    }
  }

  // ---------- over runs ----------

  /** With a running dispatcher the memory shows one owner per node; without one, the log
      allows only one. */
  ghost predicate Owned(s: Control) {
    if s.readOnly then Sole(Replayed(s.log)) else OneOwner(s)
  }

  ghost predicate CarefulOp(s: Control, op: Op) {
    op.ReclaimOp? && !s.readOnly ==> Careful(s, op.taskId, op.graph)
  }

  lemma StepOwned(env: Env, s: Control, op: Op)
    requires Kept(env, s) && Legal(s, op) && Owned(s) && CarefulOp(s, op)
    ensures Owned(Step(env, s, op))
  {
    if op.StartOp? {
      if !s.readOnly { OwnersAreSole(s); }
      StartReplays(env, op.start, s.log);
      if Started(op.start, s.log).1.Ok? { StartMemory(env, op.start, s.log); }
      var _ := StartedState(op.start, s.log);
      if Started(op.start, s.log).1.Ok? { StartedRecords(env, op.start, s.log); }
    } else if !s.readOnly {
      if op.ReclaimOp? {
        ReclaimKeepsOneOwnerIffCareful(env, s, op.taskId, op.reason, op.graph, op.draw);
      } else {
        QuietStep(env, s, op);
        QuietlyOneOwner(env, s, Step(env, s, op));
      }
      StepKept(env, s, op);
    }
  }

  ghost predicate CarefulRun(env: Env, s: Control, ops: seq<Op>)
    requires LegalRun(env, s, ops)
    decreases |ops|
  {
    ops == [] || (CarefulOp(s, ops[0]) && CarefulRun(env, Step(env, s, ops[0]), ops[1..]))
  }

  /** Over every run of careful operations, with any restarts in between, every node has one
      owner, and a further restart rebuilds the memory (RestartRefines). */
  lemma {:induction false} RunOwned(env: Env, s: Control, ops: seq<Op>)
    requires Kept(env, s) && LegalRun(env, s, ops) && CarefulRun(env, s, ops) && Owned(s)
    ensures Owned(Run(env, s, ops))
    decreases |ops|
  {
    if ops != [] {
      StepKept(env, s, ops[0]);
      StepOwned(env, s, ops[0]);
      RunOwned(env, Step(env, s, ops[0]), ops[1..]);
    }
  }

  /** Restart refinement for whole runs: start from nothing, run anything careful, restart,
      and the same tasks, identities, owners and pauses are back, each task in the state that
      its reclaims and its last verdict give it. */
  lemma RunThenRestart(env: Env, s: Control, ops: seq<Op>, start: Start)
    requires FromNothing(env, s, ops) && CarefulRun(env, s, ops)
    requires !Run(env, s, ops).readOnly && CanStart(start, Run(env, s, ops).log)
    ensures var before := Run(env, s, ops); var after := Started(start, before.log).0;
      && after.tasks.Keys == before.tasks.Keys && after.byNode == before.byNode && after.paused == before.paused
      && (forall t :: t in before.tasks ==> Identity(after.tasks[t].envelope) == Identity(before.tasks[t].envelope))
      && (forall t :: t in before.tasks ==> (after.tasks[t].state.Passed? <==> LoggedPass(before.log, t)))
      && (forall t :: t in before.tasks ==> Restored.ByLog(before.log, t, after.tasks[t].state))
  {
    var before := Run(env, s, ops);
    FromNothingKept(env, s, ops);
    RunOwned(env, s, ops);
    RestartRefines(env, before, start);
    forall t | t in before.tasks ensures Restored.ByLog(before.log, t, Started(start, before.log).0.tasks[t].state) {
      Restored.StartRebuilds(start, before.log, t);
    }
  }
}
