/** Which running processes can be started again with the manifest they run with, and which
    can count their open work: exactly those that no verdict or report on a task of a team
    the manifest no longer declares has opened again. */
module Restartable {
  import opened Basics
  import opened Schema
  import opened SchemaCodec
  import opened Events
  import opened Replay
  import opened Control
  import opened Moves
  import opened Projection
  import opened Restart
  import opened Recovery
  import opened Runs
  import Gates
  import Lex
  import Topology

  /** A cold start with the manifest of the running process. */
  predicate SameManifest(s: Control, start: Start) {
    start.topology == s.topology && start.ring.keys != []
  }

  /** An unreclaimed task whose last verdict failed and whose team is not declared. */
  predicate Stray(topology: Topology.Topology, r: ReplayState, t: string) {
    && t in r.dispatched && t !in r.reclaimed && t in r.gateResults && !r.gateResults[t]
    && !topology.Declares(r.dispatched[t].team)
  }

  /** What every running process keeps: its open tasks have known gates, and declared teams
      unless they were judged; its paused teams are declared. */
  ghost predicate Staffed(topology: Topology.Topology, r: ReplayState) {
    && (forall t :: t in r.OpenTasks() ==>
          Gates.Known(r.dispatched[t].exitGate) && (topology.Declares(r.dispatched[t].team) || t in r.gateResults))
    && forall team :: team in r.paused ==> topology.Declares(team)
  }

  /** How a move that is neither a dispatch nor a verdict changes what replay holds. */
  lemma OtherReplay(env: Env, s: Control, m: Move, r: ReplayState)
    requires Enabled(env, s, m) && !m.Enqueued? && !m.Judged?
    ensures var r' := NextReplay(env, s, m, r);
      && r'.dispatched == r.dispatched && r'.gateResults == r.gateResults && r.reclaimed <= r'.reclaimed
      && forall team :: team in r'.paused && team !in r.paused ==> s.topology.Declares(team)
  {}

  lemma MoveStaffed(env: Env, s: Control, m: Move, r: ReplayState)
    requires Enabled(env, s, m) && MemoryOf(s, r) && Staffed(s.topology, r)
    ensures Staffed(s.topology, NextReplay(env, s, m, r))
  {
    if m.Enqueued? {
      var ev := DispatchEvent(env, m.e, m.lead);
      assert NextReplay(env, s, m, r) == Absorb(r, ev, |s.log|);
      EnqueuedStaffed(s.topology, r, Absorb(r, ev, |s.log|), m.e, MetaOf(ev, |s.log|));
    } else if m.Judged? {
      RecordsLead(env, s, m, r);
      assert Identity(s.tasks[m.taskId].envelope) == r.dispatched[m.taskId] && m.result.Valid();
      JudgedStaffed(s.topology, r, m.taskId, m.result.passed);
    } else {
      OtherReplay(env, s, m, r);
      FewerStaffed(s.topology, r, NextReplay(env, s, m, r));
    }
  }

  lemma FewerStaffed(topology: Topology.Topology, r: ReplayState, r': ReplayState)
    requires Staffed(topology, r) && r'.dispatched == r.dispatched && r'.gateResults == r.gateResults && r.reclaimed <= r'.reclaimed
    requires forall team :: team in r'.paused && team !in r.paused ==> topology.Declares(team)
    ensures Staffed(topology, r')
  {
    assert r'.OpenTasks() <= r.OpenTasks();
  }

  lemma EnqueuedStaffed(topology: Topology.Topology, r: ReplayState, r': ReplayState, e: Envelope, m: Meta)
    requires Staffed(topology, r) && topology.Declares(e.team) && Gates.Known(e.exitGate)
    requires r' == r.(dispatched := r.dispatched[e.taskId := m], order := r'.order) && m.team == e.team && m.exitGate == e.exitGate
    ensures Staffed(topology, r')
  {
    forall t | t in r'.OpenTasks()
      ensures Gates.Known(r'.dispatched[t].exitGate) && (topology.Declares(r'.dispatched[t].team) || t in r'.gateResults)
    {
      if t != e.taskId { assert t in r.OpenTasks(); }
    }
  }

  lemma JudgedStaffed(topology: Topology.Topology, r: ReplayState, t: string, passed: bool)
    requires Staffed(topology, r) && t in r.dispatched && Gates.Known(r.dispatched[t].exitGate)
    ensures Staffed(topology, r.(gateResults := r.gateResults[t := passed]))
  {
    var r' := r.(gateResults := r.gateResults[t := passed]);
    forall u | u in r'.OpenTasks()
      ensures Gates.Known(r'.dispatched[u].exitGate) && (topology.Declares(r'.dispatched[u].team) || u in r'.gateResults)
    {
      if u != t { assert u in r.OpenTasks(); }
    }
  }

  lemma MoveKeepsStaffed(env: Env, s: Control, m: Move)
    requires Enabled(env, s, m) && Sound(env, s) && Staffed(s.topology, Replayed(s.log))
    ensures Staffed(s.topology, Replayed(After(env, s, m).log))
  {
    MoveReplayed(env, s, m);
    MoveStaffed(env, s, m, Replayed(s.log));
  }

  lemma {:induction false} PathStaffed(env: Env, s: Control, ms: seq<Move>, s': Control)
    requires Path(env, s, ms, s') && Sound(env, s) && Staffed(s.topology, Replayed(s.log))
    ensures Staffed(s'.topology, Replayed(s'.log))
    decreases |ms|
  {
    if ms != [] {
      var s1 := After(env, s, ms[0]);
      MoveSound(env, s, ms[0]);
      MoveKeepsStaffed(env, s, ms[0]);
      PathStaffed(env, s1, ms[1..], s');
    }
  }

  ghost predicate RunningStaffed(s: Control) {
    !s.readOnly ==> Staffed(s.topology, Replayed(s.log))
  }

  lemma StepStaffed(env: Env, s: Control, op: Op)
    requires Kept(env, s) && Legal(s, op) && RunningStaffed(s)
    ensures RunningStaffed(Step(env, s, op))
  {
    if op.StartOp? {
      StartStaffed(env, op.start, s.log);
    } else if !s.readOnly {
      StepReaches(env, s, op);
      var ms :| Path(env, s, ms, Step(env, s, op));
      PathStaffed(env, s, ms, Step(env, s, op));
    }
  }

  lemma StartStaffed(env: Env, start: Start, log: seq<Event>)
    requires AllAdmissible(env, log) && start.ring.keys != []
    ensures RunningStaffed(Started(start, log).0)
  {
    StartsExactlyWhen(start, log);
    StartReplays(env, start, log);
    var _ := StartedState(start, log);
    if Started(start, log).1.Ok? { StartedRecords(env, start, log); }
  }

  lemma {:induction false} RunStaffed(env: Env, s: Control, ops: seq<Op>)
    requires Kept(env, s) && LegalRun(env, s, ops) && RunningStaffed(s)
    ensures RunningStaffed(Run(env, s, ops))
    decreases |ops|
  {
    if ops != [] {
      StepKept(env, s, ops[0]);
      StepStaffed(env, s, ops[0]);
      RunStaffed(env, Step(env, s, ops[0]), ops[1..]);
    }
  }

  lemma ReconciledIffNoStray(topology: Topology.Topology, r: ReplayState)
    requires Staffed(topology, r)
    ensures Reconciled(r, topology) <==> forall t :: !Stray(topology, r, t)
  {
    forall t | Stray(topology, r, t) ensures t in r.OpenTasks() {}
    forall t | t in r.OpenTasks() && !topology.Declares(r.dispatched[t].team) ensures Stray(topology, r, t) {}
  }

  /** Over every run from nothing, a running process can be started again with the manifest it
      runs with unless some unreclaimed task of an undeclared team has failed its gate. That is
      the only obstacle. */
  lemma RestartsUnlessStray(env: Env, s: Control, ops: seq<Op>, start: Start)
    requires FromNothing(env, s, ops) && !Run(env, s, ops).readOnly && SameManifest(Run(env, s, ops), start)
    ensures var end := Run(env, s, ops);
      CanStart(start, end.log) <==> forall t :: !Stray(end.topology, Replayed(end.log), t)
  {
    var end := Run(env, s, ops);
    FromNothingKept(env, s, ops);
    RunStaffed(env, s, ops);
    StartsExactlyWhen(start, end.log);
    AdmissibleRestorable(env, end.log);
    ReconciledIffNoStray(end.topology, Replayed(end.log));
  }

  // ---------- which operation takes it away ----------

  /** accept_gate takes a failing verdict for an unreclaimed task of an undeclared team. */
  ghost predicate Strays(env: Env, s: Control, op: Op) {
    && op.GateOp? && AcceptGate(env, s, op.taskId, op.raw, op.now).1.Ok? && !AcceptGate(env, s, op.taskId, op.raw, op.now).1.value.passed
    && op.taskId !in Replayed(s.log).reclaimed && !s.topology.Declares(s.tasks[op.taskId].envelope.team)
  }

  predicate NoStrays(topology: Topology.Topology, r: ReplayState) {
    forall t :: t in r.dispatched ==> !Stray(topology, r, t)
  }

  lemma UngatedNoStray(env: Env, s: Control, m: Move, r: ReplayState)
    requires Enabled(env, s, m) && Ungated(m) && NoStrays(s.topology, r)
    ensures NoStrays(s.topology, NextReplay(env, s, m, r))
  {
    if m.Enqueued? {
      var ev := DispatchEvent(env, m.e, m.lead);
      assert NextReplay(env, s, m, r) == Absorb(r, ev, |s.log|);
      EnqueuedNoStray(s.topology, r, Absorb(r, ev, |s.log|), m.e, MetaOf(ev, |s.log|));
    } else {
      OtherReplay(env, s, m, r);
      FewerStrays(s.topology, r, NextReplay(env, s, m, r));
    }
  }

  lemma EnqueuedNoStray(topology: Topology.Topology, r: ReplayState, r': ReplayState, e: Envelope, m: Meta)
    requires NoStrays(topology, r) && topology.Declares(e.team)
    requires r' == r.(dispatched := r.dispatched[e.taskId := m], order := r'.order) && m.team == e.team
    ensures NoStrays(topology, r')
  {
    forall t | t in r'.dispatched ensures !Stray(topology, r', t) {
      assert t != e.taskId ==> !Stray(topology, r, t);
    }
  }

  lemma FewerStrays(topology: Topology.Topology, r: ReplayState, r': ReplayState)
    requires NoStrays(topology, r) && r'.dispatched == r.dispatched && r'.gateResults == r.gateResults && r.reclaimed <= r'.reclaimed
    ensures NoStrays(topology, r')
  {
    forall t | t in r'.dispatched ensures !Stray(topology, r', t) {
      assert !Stray(topology, r, t);
    }
  }

  lemma {:induction false} UngatedPathNoStray(env: Env, s: Control, ms: seq<Move>, s': Control)
    requires PathBy(env, s, ms, s', Ungated) && Sound(env, s) && NoStrays(s.topology, Replayed(s.log))
    ensures NoStrays(s'.topology, Replayed(s'.log))
    decreases |ms|
  {
    if ms != [] {
      var s1 := After(env, s, ms[0]);
      MoveSound(env, s, ms[0]);
      MoveReplayed(env, s, ms[0]);
      UngatedNoStray(env, s, ms[0], Replayed(s.log));
      assert PathBy(env, s1, ms[1..], s', Ungated);
      UngatedPathNoStray(env, s1, ms[1..], s');
    }
  }

  lemma JudgeStrays(topology: Topology.Topology, r: ReplayState, t: string, passed: bool)
    requires NoStrays(topology, r) && t in r.dispatched
    ensures var r' := r.(gateResults := r.gateResults[t := passed]);
      NoStrays(topology, r') <==> passed || t in r.reclaimed || topology.Declares(r.dispatched[t].team)
  {
    var r' := r.(gateResults := r.gateResults[t := passed]);
    forall u | u in r'.dispatched && u != t ensures !Stray(topology, r', u) {
      assert !Stray(topology, r, u);
    }
    assert NoStrays(topology, r') ==> !Stray(topology, r', t);
  }

  lemma VerdictReplayed(env: Env, s: Control, t: string, result: Gates.GateResult)
    requires t in s.tasks
    ensures Replayed(Judge(env, s, t, result).log) == Replayed(s.log).(gateResults := Replayed(s.log).gateResults[t := result.passed])
    ensures Judge(env, s, t, result).topology == s.topology
  {
    ReplayedSnoc(s.log, GateOutcome(t, s.tasks[t].envelope.team, result.gate, result.passed, EvidenceHash(env, result.evidence)));
  }

  lemma GateOpStep(env: Env, s: Control, op: Op)
    requires !s.readOnly && s.ring.keys != [] && op.GateOp?
    ensures var answer := AcceptGate(env, s, op.taskId, op.raw, op.now).1;
      if answer.Ok? then op.taskId in s.tasks && Step(env, s, op) == Judge(env, s, op.taskId, answer.value) else Step(env, s, op) == s
  {}

  lemma GateStepStrays(env: Env, s: Control, op: Op)
    requires Sound(env, s) && op.GateOp? && NoStrays(s.topology, Replayed(s.log))
    ensures var s' := Step(env, s, op);
      s'.topology == s.topology && (NoStrays(s'.topology, Replayed(s'.log)) <==> !Strays(env, s, op))
  {
    var answer := AcceptGate(env, s, op.taskId, op.raw, op.now).1;
    GateOpStep(env, s, op);
    if answer.Ok? {
      VerdictReplayed(env, s, op.taskId, answer.value);
      assert Identity(s.tasks[op.taskId].envelope) == Replayed(s.log).dispatched[op.taskId];
      JudgeStrays(s.topology, Replayed(s.log), op.taskId, answer.value.passed);
    }
  }

  lemma StepTopology(env: Env, s: Control, op: Op)
    requires Sound(env, s) && Legal(s, op) && !op.StartOp?
    ensures Step(env, s, op).topology == s.topology
  {
    StepReaches(env, s, op);
    var ms :| Path(env, s, ms, Step(env, s, op));
    PathMemory(env, s, ms, Step(env, s, op));
  }

  /** An operation keeps a process restartable with its manifest if and only if it is not the
      acceptance of a failing verdict for an unreclaimed task of an undeclared team. */
  lemma KeepsRestartableIff(env: Env, s: Control, op: Op, start: Start)
    requires Sound(env, s) && Legal(s, op) && !op.StartOp? && SameManifest(s, start) && CanStart(start, s.log)
    ensures CanStart(start, Step(env, s, op).log) <==> !Strays(env, s, op)
  {
    var s' := Step(env, s, op);
    CanStartStaffed(env, s, start);
    StepKept(env, s, op);
    StepStaffed(env, s, op);
    StepTopology(env, s, op);
    if op.GateOp? {
      GateStepStrays(env, s, op);
    } else {
      UngatedStep(env, s, op);
      var ms :| PathBy(env, s, ms, s', Ungated);
      UngatedPathNoStray(env, s, ms, s');
    }
    CanStartIff(env, s', start);
  }

  lemma CanStartIff(env: Env, s: Control, start: Start)
    requires Sound(env, s) && SameManifest(s, start) && Staffed(s.topology, Replayed(s.log))
    ensures CanStart(start, s.log) <==> NoStrays(s.topology, Replayed(s.log))
  {
    StartsExactlyWhen(start, s.log);
    AdmissibleRestorable(env, s.log);
    ReconciledIffNoStray(s.topology, Replayed(s.log));
    assert (forall t :: !Stray(s.topology, Replayed(s.log), t)) <==> NoStrays(s.topology, Replayed(s.log));
  }

  lemma CanStartStaffed(env: Env, s: Control, start: Start)
    requires Sound(env, s) && SameManifest(s, start) && CanStart(start, s.log)
    ensures Staffed(s.topology, Replayed(s.log)) && NoStrays(s.topology, Replayed(s.log))
  {
    StartsExactlyWhen(start, s.log);
    CanStartIff(env, s, start);
  }

  /** No operation of the run is such an acceptance. */
  ghost predicate StrayFree(env: Env, s: Control, ops: seq<Op>)
    requires LegalRun(env, s, ops)
    decreases |ops|
  {
    ops == [] || ((!s.readOnly ==> !Strays(env, s, ops[0])) && StrayFree(env, Step(env, s, ops[0]), ops[1..]))
  }

  ghost predicate RunningRestartable(s: Control) {
    !s.readOnly ==> Staffed(s.topology, Replayed(s.log)) && NoStrays(s.topology, Replayed(s.log))
  }

  lemma StepRestartable(env: Env, s: Control, op: Op)
    requires Kept(env, s) && Legal(s, op) && RunningRestartable(s) && (!s.readOnly ==> !Strays(env, s, op))
    ensures RunningRestartable(Step(env, s, op))
  {
    StepStaffed(env, s, op);
    if op.StartOp? {
      StartStrayFree(env, op.start, s.log);
    } else if !s.readOnly {
      if op.GateOp? {
        GateStepStrays(env, s, op);
      } else {
        UngatedStep(env, s, op);
        var ms :| PathBy(env, s, ms, Step(env, s, op), Ungated);
        UngatedPathNoStray(env, s, ms, Step(env, s, op));
      }
    }
  }

  lemma StartStrayFree(env: Env, start: Start, log: seq<Event>)
    requires AllAdmissible(env, log) && start.ring.keys != []
    ensures var s := Started(start, log).0; !s.readOnly ==> NoStrays(s.topology, Replayed(s.log))
  {
    StartsExactlyWhen(start, log);
    StartReplays(env, start, log);
    StartStaffed(env, start, log);
    var _ := StartedState(start, log);
    if Started(start, log).1.Ok? {
      StartedRecords(env, start, log);
      ReconciledIffNoStray(start.topology, Replayed(log));
    }
  }

  lemma {:induction false} RunRestartable(env: Env, s: Control, ops: seq<Op>)
    requires Kept(env, s) && LegalRun(env, s, ops) && StrayFree(env, s, ops) && RunningRestartable(s)
    ensures Kept(env, Run(env, s, ops)) && RunningRestartable(Run(env, s, ops))
    decreases |ops|
  {
    if ops != [] {
      StepKept(env, s, ops[0]);
      StepRestartable(env, s, ops[0]);
      RunRestartable(env, Step(env, s, ops[0]), ops[1..]);
    }
  }

  /** So over every run from nothing without such an acceptance, through any restarts and any
      changes of the manifest, every running process can be started again with its manifest. */
  lemma StrayFreeRestarts(env: Env, s: Control, ops: seq<Op>, start: Start)
    requires FromNothing(env, s, ops) && StrayFree(env, s, ops)
    requires !Run(env, s, ops).readOnly && SameManifest(Run(env, s, ops), start)
    ensures CanStart(start, Run(env, s, ops).log)
  {
    FromNothingKept(env, s, ops);
    RunRestartable(env, s, ops);
    CanStartIff(env, Run(env, s, ops), start);
  }

  // ---------- counting the open work ----------

  /** Every open record names a declared team, so that queue_depth has a counter for it. */
  ghost predicate Counted(s: Control) {
    forall t :: t in s.tasks && Open(s.tasks[t]) ==> s.topology.Declares(s.tasks[t].envelope.team)
  }

  lemma CountedIff(s: Control)
    ensures QueueDepth(s).Ok? <==> Counted(s)
  {}

  /** An accepted report or failing verdict that opens a record of an undeclared team. */
  ghost predicate Uncounts(env: Env, s: Control, op: Op) {
    || (op.StatusOp? && IngestStatus(env, s, op.raw).1.Ok?
        && var u := IngestStatus(env, s, op.raw).1.value; u.state != "abandoned" && OfNoTeam(s, u.taskId))
    || (op.GateOp? && AcceptGate(env, s, op.taskId, op.raw, op.now).1.Ok?
        && !AcceptGate(env, s, op.taskId, op.raw, op.now).1.value.passed && OfNoTeam(s, op.taskId))
  }

  predicate OfNoTeam(s: Control, t: string) {
    t in s.tasks && s.tasks[t].supersededBy.None? && !s.topology.Declares(s.tasks[t].envelope.team)
  }

  /** A move other than a report or a verdict opens no record of an undeclared team. */
  predicate Unheard(m: Move) {
    !m.Judged? && !m.Reported?
  }

  lemma UnheardCounted(env: Env, s: Control, m: Move)
    requires Enabled(env, s, m) && Unheard(m) && Counted(s)
    ensures Counted(After(env, s, m))
  {
    var s' := After(env, s, m);
    assert s'.topology == s.topology;
    forall t | t in s'.tasks && Open(s'.tasks[t]) ensures s'.topology.Declares(s'.tasks[t].envelope.team) {
      if m.Enqueued? && t == m.e.taskId { assert s'.tasks[t].envelope == m.e; } else { assert t in s.tasks && Open(s.tasks[t]); }
    }
  }

  lemma {:induction false} UnheardPathCounted(env: Env, s: Control, ms: seq<Move>, s': Control)
    requires PathBy(env, s, ms, s', Unheard) && Counted(s)
    ensures Counted(s')
    decreases |ms|
  {
    if ms != [] {
      UnheardCounted(env, s, ms[0]);
      assert PathBy(env, After(env, s, ms[0]), ms[1..], s', Unheard);
      UnheardPathCounted(env, After(env, s, ms[0]), ms[1..], s');
    }
  }

  lemma AssigningCounted(env: Env, s: Control, s': Control)
    requires ReachesBy(env, s, s', Assigning) && Counted(s)
    ensures Counted(s')
  {
    Widen(env, s, s', Assigning, Unheard);
    var ms :| PathBy(env, s, ms, s', Unheard);
    UnheardPathCounted(env, s, ms, s');
  }

  lemma AbandonCounted(s: Control, t: string, reason: string)
    requires Counted(s) && t in s.tasks
    ensures Counted(Abandon(s, t, reason)) && Counted(ReclaimBase(s, t, reason))
  {
    var s1 := Abandon(s, t, reason);
    forall u | u in s1.tasks && Open(s1.tasks[u]) ensures s1.topology.Declares(s1.tasks[u].envelope.team) {
      assert u != t && s1.tasks[u] == s.tasks[u];
    }
  }

  lemma SupersedeCounted(s: Control, t: string, next: string)
    requires Counted(s) && t in s.tasks
    ensures Counted(Supersede(s, t, next))
  {
    var s1 := Supersede(s, t, next);
    forall u | u in s1.tasks && Open(s1.tasks[u]) ensures s1.topology.Declares(s1.tasks[u].envelope.team) {
      assert u != t && s1.tasks[u] == s.tasks[u];
    }
  }

  lemma InnerCounted(env: Env, s: Control, t: string, reason: string, graph: WorkGraph, draw: Draw)
    requires s.ring.keys != [] && !s.readOnly && t in s.tasks && FreshDraws(s, [draw]) && Counted(s)
    requires graph.Node(s.tasks[t].envelope.nodeId).Ok?
    ensures Counted(Inner(env, s, t, reason, graph, draw).0)
  {
    var base := ReclaimBase(s, t, reason);
    AbandonCounted(s, t, reason);
    assert base.tasks.Keys == s.tasks.Keys;
    DispatchReaches(env, base, graph.Node(s.tasks[t].envelope.nodeId).value, s.tasks[t].envelope.graphId,
                    map[], None, DEFAULT_TTL, draw);
    AssigningCounted(env, base, Inner(env, s, t, reason, graph, draw).0);
  }

  lemma ReclaimCounted(env: Env, s: Control, t: string, reason: string, graph: WorkGraph, draw: Draw)
    requires s.ring.keys != [] && !s.readOnly && FreshDraws(s, [draw]) && Counted(s)
    ensures Counted(Reclaim(env, s, t, reason, graph, draw).0)
  {
    if ReclaimRefusal(s, t).None? {
      ReclaimCases(env, s, t, reason, graph, draw);
      AbandonCounted(s, t, reason);
      if graph.Node(s.tasks[t].envelope.nodeId).Ok? && s.tasks[t].envelope.Key() in s.byNode {
        InnerCounted(env, s, t, reason, graph, draw);
        InnerPlaces(env, s, t, reason, graph, draw);
        var (s1, r) := Inner(env, s, t, reason, graph, draw);
        if r.Ok? { SupersedeCounted(s1, t, r.value.taskId); }
      }
    }
  }

  /** One record changes, and is open afterwards or not. */
  lemma OneCounted(s: Control, s': Control, t: string, x: Record)
    requires Counted(s) && t in s.tasks && s'.tasks == s.tasks[t := x] && s'.topology == s.topology
    requires x.envelope == s.tasks[t].envelope && x.supersededBy == s.tasks[t].supersededBy
    ensures Counted(s') <==> x.Terminal() || !OfNoTeam(s, t)
  {
    forall u | u in s'.tasks && u != t && Open(s'.tasks[u]) ensures s'.topology.Declares(s'.tasks[u].envelope.team) {
      assert s'.tasks[u] == s.tasks[u];
    }
    assert s'.tasks[t] == x;
  }

  lemma StatusCounted(env: Env, s: Control, op: Op)
    requires op.StatusOp? && !s.readOnly && s.ring.keys != [] && Counted(s)
    ensures Counted(Step(env, s, op)) <==> !Uncounts(env, s, op)
  {
    if IngestStatus(env, s, op.raw).1.Ok? {
      var u := IngestStatus(env, s, op.raw).1.value;
      var s' := Report(env, s, u);
      assert Step(env, s, op) == s';
      OneCounted(s, s', u.taskId, s'.tasks[u.taskId]);
      assert s'.tasks[u.taskId].Terminal() <==> u.state == "abandoned";
    }
  }

  lemma GateCounted(env: Env, s: Control, op: Op)
    requires op.GateOp? && !s.readOnly && s.ring.keys != [] && Counted(s)
    ensures Counted(Step(env, s, op)) <==> !Uncounts(env, s, op)
  {
    if AcceptGate(env, s, op.taskId, op.raw, op.now).1.Ok? {
      var result := AcceptGate(env, s, op.taskId, op.raw, op.now).1.value;
      var s' := Judge(env, s, op.taskId, result);
      GateOpStep(env, s, op);
      OneCounted(s, s', op.taskId, s'.tasks[op.taskId]);
    }
  }

  /** An operation keeps queue_depth answering if and only if it is not an accepted report or
      failing verdict that opens a task of an undeclared team. */
  lemma KeepsDepthsIff(env: Env, s: Control, op: Op)
    requires !s.readOnly && s.ring.keys != [] && Legal(s, op) && !op.StartOp? && QueueDepth(s).Ok?
    ensures QueueDepth(Step(env, s, op)).Ok? <==> !Uncounts(env, s, op)
  {
    CountedIff(s);
    CountedIff(Step(env, s, op));
    if op.StatusOp? {
      StatusCounted(env, s, op);
    } else if op.GateOp? {
      GateCounted(env, s, op);
    } else if op.ReclaimOp? {
      ReclaimCounted(env, s, op.taskId, op.reason, op.graph, op.draw);
    } else if op.DispatchOp? || op.GraphOp? {
      AssigningStep(env, s, op);
      AssigningCounted(env, s, Step(env, s, op));
    } else {
      RecordsAside(env, s, op);
    }
  }

  lemma RecordsAside(env: Env, s: Control, op: Op)
    requires Legal(s, op) && (op.DeliverOp? || op.PauseOp? || op.ResumeOp? || op.RotateOp?)
    ensures Step(env, s, op).tasks == s.tasks && Step(env, s, op).topology == s.topology
  {}
}
