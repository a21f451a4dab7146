/** What survives a restart: the records and their owners, the shipping decision, and the
    open work. */
module Recovery {
  import opened Basics
  import opened JsonText
  import opened Schema
  import opened Events
  import opened Replay
  import opened Control
  import opened Moves
  import opened Projection
  import opened Restart
  import SchemaCodec
  import Gates
  import Topology

  /** A running dispatcher with a valid topology, whose memory is the projection of an
      admissible log. */
  ghost predicate Sound(env: Env, s: Control) {
    !s.readOnly && s.topology.Valid() && Memory(s) && AllAdmissible(env, s.log)
  }

  ghost predicate CanStart(start: Start, log: seq<Event>) {
    start.ring.keys != [] && Started(start, log).1.Ok?
  }

  /** The log's verdict on a task. */
  ghost predicate LoggedPass(log: seq<Event>, t: string) {
    var r := Replayed(log);
    t !in r.reclaimed && t in r.gateResults && r.gateResults[t]
  }

  lemma OwnersAreSole(s: Control)
    requires Memory(s) && OneOwner(s)
    ensures Sole(Replayed(s.log))
  {
    var r := Replayed(s.log);
    forall t, u | t in r.dispatched && u in r.dispatched && t !in r.reclaimed && u !in r.reclaimed
      && r.dispatched[t].graphId == r.dispatched[u].graphId && r.dispatched[t].nodeId == r.dispatched[u].nodeId
      ensures t == u
    {
      assert Identity(s.tasks[t].envelope) == r.dispatched[t] && Identity(s.tasks[u].envelope) == r.dispatched[u];
    }
  }

  lemma SameOwners(s: Control, s': Control)
    requires Memory(s) && OneOwner(s) && Memory(s') && OneOwner(s') && Replayed(s.log) == Replayed(s'.log)
    ensures s'.byNode == s.byNode
  {
    var r := Replayed(s.log);
    forall k | k in s.byNode ensures k in s'.byNode && s'.byNode[k] == s.byNode[k] {
      OwnerCarries(s, s', r, k);
    }
    forall k | k in s'.byNode ensures k in s.byNode {
      OwnerCarries(s', s, r, k);
    }
  }

  /** The owner of a node owns it in every other memory of the same log. */
  lemma OwnerCarries(s: Control, s': Control, r: ReplayState, k: (string, string))
    requires SameTasks(s, r) && NodesNamed(s) && OwnersBut(s, r.reclaimed) && SameTasks(s', r) && OwnersBut(s', r.reclaimed)
    requires k in s.byNode
    ensures k in s'.byNode && s'.byNode[k] == s.byNode[k]
  {
    var t := s.byNode[k];
    assert t in s'.tasks && Identity(s'.tasks[t].envelope) == Identity(s.tasks[t].envelope);
  }

  /** Restart refinement: a cold start from the log of a running dispatcher rebuilds the
      same tasks with the same identities, the same owner of every node and the same paused
      teams, and a task comes back as passed exactly when the log says so. */
  lemma RestartRefines(env: Env, s: Control, start: Start)
    requires Sound(env, s) && OneOwner(s) && CanStart(start, s.log)
    ensures var s' := Started(start, s.log).0;
      && Sound(env, s') && OneOwner(s')
      && s'.tasks.Keys == s.tasks.Keys && s'.byNode == s.byNode && s'.paused == s.paused
      && (forall t :: t in s.tasks ==> Identity(s'.tasks[t].envelope) == Identity(s.tasks[t].envelope))
      && (forall t :: t in s.tasks ==> (s'.tasks[t].state.Passed? <==> LoggedPass(s.log, t)))
  {
    var s' := Started(start, s.log).0;
    StartReplays(env, start, s.log);
    StartMemory(env, start, s.log);
    StartedRecords(env, start, s.log);
    OwnersAreSole(s);
    SameOwners(s, s');
    AdmissibleRestorable(env, s.log);
    forall t | t in s.tasks ensures s'.tasks[t].state.Passed? <==> LoggedPass(s.log, t) {
      RestoredIdentity(Replayed(s.log), t, |s.log|);
    }
  }

  // ---------- shipping across a restart ----------

  /** Every node has an owner whose last gate result in the log passed. */
  ghost predicate ShipsByLog(s: Control, graph: WorkGraph, graphId: string) {
    forall i :: 0 <= i < |graph.nodes| ==>
      LiveTask(s, graphId, graph.nodes[i].id).Some? && LoggedPass(s.log, LiveTask(s, graphId, graph.nodes[i].id).value)
  }

  /** The shipping decision after a restart is the log's: every node's owner has a passing
      last gate result there. */
  lemma ShipsAfterRestart(env: Env, s: Control, start: Start, graph: WorkGraph, graphId: string)
    requires Sound(env, s) && OneOwner(s) && CanStart(start, s.log)
    ensures MayShip(Started(start, s.log).0, graph, graphId) <==> ShipsByLog(s, graph, graphId)
  {
    RestartRefines(env, s, start);
    SameDecision(s, Started(start, s.log).0, graph, graphId);
  }

  lemma SameDecision(s: Control, s': Control, graph: WorkGraph, graphId: string)
    requires s'.tasks.Keys == s.tasks.Keys && s'.byNode == s.byNode
    requires forall t :: t in s.tasks ==> (s'.tasks[t].state.Passed? <==> LoggedPass(s.log, t))
    ensures MayShip(s', graph, graphId) <==> ShipsByLog(s, graph, graphId)
  {
    forall i | 0 <= i < |graph.nodes|
      ensures NodePassed(s', graphId, graph.nodes[i].id) <==>
        LiveTask(s, graphId, graph.nodes[i].id).Some? && LoggedPass(s.log, LiveTask(s, graphId, graph.nodes[i].id).value)
    {
      assert LiveTask(s', graphId, graph.nodes[i].id) == LiveTask(s, graphId, graph.nodes[i].id);
    }
  }

  /** So what may ship before a restart may ship after it. */
  lemma ShippableSurvives(env: Env, s: Control, start: Start, graph: WorkGraph, graphId: string)
    requires Sound(env, s) && OneOwner(s) && CanStart(start, s.log) && MayShip(s, graph, graphId)
    ensures MayShip(Started(start, s.log).0, graph, graphId)
  {
    ShippableIsLogged(s, graph, graphId);
    ShipsAfterRestart(env, s, start, graph, graphId);
  }

  lemma ReportReplayed(env: Env, s: Control, u: StatusUpdate)
    requires u.taskId in s.tasks
    ensures Replayed(Report(env, s, u).log) == Replayed(s.log)
  {
    ReplayedSnoc(s.log, Status(u.taskId, s.tasks[u.taskId].envelope.team, u.state, Stamp(env.digest(SchemaCodec.StatusJson(u)))));
  }

  /** A report keeps the memory a projection, and the owners. */
  lemma ReportKeeps(env: Env, s: Control, u: StatusUpdate)
    requires Sound(env, s) && OneOwner(s) && u.taskId in s.tasks && u.state != "gate_pass"
    ensures Sound(env, Report(env, s, u)) && OneOwner(Report(env, s, u))
  {
    var m := Move.Reported(u);
    assert Enabled(env, s, m) && After(env, s, m) == Report(env, s, u);
    MoveMemory(env, s, m);
    MoveAdmissible(env, s, m);
    MoveOneOwner(env, s, m);
  }

  lemma ReportUnships(env: Env, s: Control, graph: WorkGraph, graphId: string, u: StatusUpdate, i: nat)
    requires u.taskId in s.tasks
    requires i < |graph.nodes| && LiveTask(s, graphId, graph.nodes[i].id) == Some(u.taskId)
    ensures !MayShip(Report(env, s, u), graph, graphId)
    ensures forall g, n :: LiveTask(Report(env, s, u), g, n) == LiveTask(s, g, n)
  {
    assert !StateOf(u.state).Passed?;
    assert !NodePassed(Report(env, s, u), graphId, graph.nodes[i].id);
  }

  lemma ShippableIsLogged(s: Control, graph: WorkGraph, graphId: string)
    requires Memory(s) && OneOwner(s) && MayShip(s, graph, graphId)
    ensures ShipsByLog(s, graph, graphId)
  {
    forall i | 0 <= i < |graph.nodes|
      ensures var t := LiveTask(s, graphId, graph.nodes[i].id); t.Some? && LoggedPass(s.log, t.value)
    {
      assert NodePassed(s, graphId, graph.nodes[i].id);
    }
  }

  lemma ReportShipsByLog(env: Env, s: Control, graph: WorkGraph, graphId: string, u: StatusUpdate)
    requires u.taskId in s.tasks && ShipsByLog(s, graph, graphId)
    requires forall g, n :: LiveTask(Report(env, s, u), g, n) == LiveTask(s, g, n)
    ensures ShipsByLog(Report(env, s, u), graph, graphId)
  {
    ReportReplayed(env, s, u);
  }

  lemma StartsAlike(start: Start, log: seq<Event>, log': seq<Event>)
    requires Replayed(log') == Replayed(log)
    ensures CanStart(start, log') <==> CanStart(start, log)
  {
    if start.ring.keys != [] {
      StartsExactlyWhen(start, log);
      StartsExactlyWhen(start, log');
    }
  }

  /** The converse fails: any report that parses and is accepted for an owner takes a
      shippable graph out of that state, and a restart, which ignores status entries, puts it
      back. */
  lemma ReportUndoneByRestart(env: Env, s: Control, start: Start, graph: WorkGraph, graphId: string, raw: Json, i: nat)
    requires Sound(env, s) && OneOwner(s) && CanStart(start, s.log) && MayShip(s, graph, graphId) && i < |graph.nodes|
    requires IngestStatus(env, s, raw).1.Ok?
    requires LiveTask(s, graphId, graph.nodes[i].id) == Some(IngestStatus(env, s, raw).1.value.taskId)
    ensures var s1 := IngestStatus(env, s, raw).0;
      !MayShip(s1, graph, graphId) && CanStart(start, s1.log) && MayShip(Started(start, s1.log).0, graph, graphId)
  {
    var u := IngestStatus(env, s, raw).1.value;
    assert IngestStatus(env, s, raw).0 == Report(env, s, u);
    ShippableIsLogged(s, graph, graphId);
    ReportUnships(env, s, graph, graphId, u, i);
    ReportKeeps(env, s, u);
    ReportShipsByLog(env, s, graph, graphId, u);
    ReportReplayed(env, s, u);
    StartsAlike(start, s.log, Report(env, s, u).log);
    ShipsAfterRestart(env, Report(env, s, u), start, graph, graphId);
  }

  // ---------- open work ----------

  /** Open records per team, summed over a list of teams. */
  function TotalDepth(s: Control, teams: seq<Topology.Team>): nat {
    if teams == [] then 0 else |OpenOf(s, teams[0].name)| + TotalDepth(s, teams[1..])
  }

  function OpenAmong(s: Control, teams: seq<Topology.Team>): set<string> {
    set t, i | t in s.tasks && Open(s.tasks[t]) && 0 <= i < |teams| && teams[i].name == s.tasks[t].envelope.team :: t
  }

  lemma OpenAmongStep(s: Control, teams: seq<Topology.Team>)
    requires teams != [] && forall i, j :: 0 <= i < j < |teams| ==> teams[i].name != teams[j].name
    ensures OpenAmong(s, teams) == OpenOf(s, teams[0].name) + OpenAmong(s, teams[1..])
    ensures OpenOf(s, teams[0].name) !! OpenAmong(s, teams[1..])
  {
    assert forall i :: 1 <= i < |teams| ==> teams[i] == teams[1..][i - 1];
  }

  lemma {:induction false} DepthsAddUp(s: Control, teams: seq<Topology.Team>)
    requires forall i, j :: 0 <= i < j < |teams| ==> teams[i].name != teams[j].name
    ensures TotalDepth(s, teams) == |OpenAmong(s, teams)|
  {
    if teams != [] {
      DepthsAddUp(s, teams[1..]);
      OpenAmongStep(s, teams);
    }
  }

  lemma OpenRecordsMatch(s: Control, r: ReplayState, n: int)
    requires Restorable(r, n) && RecordsRestored(s, r, r.order) && s.tasks.Keys == r.dispatched.Keys
    ensures (set t | t in s.tasks && Open(s.tasks[t])) == r.OpenTasks()
    ensures forall t :: t in s.tasks ==> Identity(s.tasks[t].envelope) == r.dispatched[t]
  {
    forall t | t in s.tasks
      ensures Open(s.tasks[t]) <==> t in r.OpenTasks()
      ensures Identity(s.tasks[t].envelope) == r.dispatched[t]
    {
      RestoredIdentity(r, t, n);
    }
  }

  lemma OpenAllDeclared(s: Control)
    requires forall t :: t in s.tasks && Open(s.tasks[t]) ==> s.topology.Declares(s.tasks[t].envelope.team)
    ensures OpenAmong(s, s.topology.teams) == set t | t in s.tasks && Open(s.tasks[t])
  {
    forall t | t in s.tasks && Open(s.tasks[t]) ensures t in OpenAmong(s, s.topology.teams) {
      Topology.DeclaresIff(s.topology, s.tasks[t].envelope.team);
    }
  }

  /** Open work is conserved across a cold start: the open records are exactly the log's
      open tasks, every one of them names a declared team and a known gate, and the queue
      depths exist and add up to their number. */
  lemma OpenWorkConserved(env: Env, start: Start, log: seq<Event>)
    requires AllAdmissible(env, log) && CanStart(start, log)
    ensures var s := Started(start, log).0; var open := Replayed(log).OpenTasks();
      && (set t | t in s.tasks && Open(s.tasks[t])) == open
      && (forall t :: t in open ==> s.topology.Declares(s.tasks[t].envelope.team) && Gates.Known(s.tasks[t].envelope.exitGate))
      && QueueDepth(s).Ok? && TotalDepth(s, s.topology.teams) == |open|
  {
    var s, r := Started(start, log).0, Replayed(log);
    var _ := StartedState(start, log);
    StartedRecords(env, start, log);
    AdmissibleRestorable(env, log);
    OpenRecordsMatch(s, r, |log|);
    OpenAllDeclared(s);
    DepthsAddUp(s, s.topology.teams);
  }

  /** And each team's depth is the number of the log's open tasks for that team. */
  lemma DepthPerTeam(env: Env, start: Start, log: seq<Event>, team: string)
    requires AllAdmissible(env, log) && CanStart(start, log) && start.topology.Declares(team)
    ensures var s := Started(start, log).0; var r := Replayed(log);
      && QueueDepth(s).Ok? && team in QueueDepth(s).value
      && QueueDepth(s).value[team] == |set t | t in r.OpenTasks() && r.dispatched[t].team == team|
  {
    var s, r := Started(start, log).0, Replayed(log);
    OpenWorkConserved(env, start, log);
    StartedRecords(env, start, log);
    AdmissibleRestorable(env, log);
    OpenRecordsMatch(s, r, |log|);
    Topology.DeclaresIff(s.topology, team);
    OpenOfTeam(s, r, team);
  }

  lemma OpenOfTeam(s: Control, r: ReplayState, team: string)
    requires (set t | t in s.tasks && Open(s.tasks[t])) == r.OpenTasks()
    requires forall t :: t in s.tasks ==> t in r.dispatched && Identity(s.tasks[t].envelope) == r.dispatched[t]
    ensures OpenOf(s, team) == set t | t in r.OpenTasks() && r.dispatched[t].team == team
  {
    forall t ensures t in OpenOf(s, team) <==> t in r.OpenTasks() && r.dispatched[t].team == team {
      assert t in r.OpenTasks() <==> t in (set t | t in s.tasks && Open(s.tasks[t]));
    }
  }
}
