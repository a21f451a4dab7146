/** The dispatcher's state and what each operation does to it (dispatch.py, state.py), as
    functions from state to state. Class Dispatcher is verified against these functions;
    the properties of runs are proved about them. A refusal leaves whatever the code had
    already changed when it raised. */
module Control {
  import opened Basics
  import opened JsonText
  import opened Schema
  import opened SchemaCodec
  import opened Tokens
  import opened Events
  import opened Replay
  import Gates
  import Lex
  import Topology

  const DEFAULT_TTL := 1800

  /** Environment: the MAC, payload_digest, and the acknowledgement deadline. */
  datatype Env = Env(hmac: Hmac, digest: Json -> string, ackSlo: int)

  datatype Envelope = Envelope(taskId: string, graphId: string, nodeId: string, team: string, tierMax: string,
                               payload: map<string, Json>, deliverables: seq<ArtifactRef>, exitGate: string,
                               token: Option<HandoffToken>, parentAuditSeq: int, deadline: Option<int>)
  {
    function Key(): (string, string) {
      (graphId, nodeId)
    }
  }

  /** TaskRecord.state: "dispatched", "gate_pass", "gate_fail", "abandoned", or another
      state that a lead reported. */
  datatype TaskState = Issued | Passed | Failed | Abandoned | Reported(state: string)

  function StateOf(reported: string): TaskState {
    if reported == "gate_fail" then Failed
    else if reported == "abandoned" then Abandoned
    else Reported(reported)
  }

  datatype Record = Record(envelope: Envelope, state: TaskState, ackDeadline: Option<int>, nextUpdateBy: Option<int>,
                           gateResult: Option<Gates.GateResult>, supersededBy: Option<string>, pctComplete: Option<int>)
  {
    predicate Terminal() {
      state.Passed? || state.Abandoned?
    }
  }

  datatype Control = Control(topology: Topology.Topology, readOnly: bool, tasks: map<string, Record>,
                             byNode: map<(string, string), string>, paused: set<string>,
                             consumed: map<string, string>, ring: Ring, log: seq<Event>)

  // ---------- pausing ----------

  function PauseTeam(s: Control, team: string, reason: string): (Control, Result<()>) {
    if !s.topology.Declares(team) then (s, Err(TopologyError))
    else (s.(paused := s.paused + {team}, log := s.log + [TeamPaused(team, reason)]), Ok(()))
  }

  function ResumeTeam(s: Control, team: string): (Control, Result<()>) {
    if !s.topology.Declares(team) then (s, Err(TopologyError))
    else (s.(paused := s.paused - {team}, log := s.log + [TeamResumed(team)]), Ok(()))
  }

  // ---------- dispatch ----------

  /** What one dispatch draws from outside: a new task id, key randomness, clock readings. */
  datatype Draw = Draw(taskId: string, key: Fresh, clock: Clock, now: int)

  /** The task that already answers this request: by task id first, then by node. */
  function Existing(s: Control, graphId: string, nodeId: string, taskId: Option<string>): Option<string> {
    if taskId.Some? && taskId.value in s.tasks then taskId
    else if (graphId, nodeId) in s.byNode then Some(s.byNode[(graphId, nodeId)])
    else None
  }

  /** The checks between the idempotency lookups and the signing, in their order. */
  function Refusal(s: Control, node: WorkNode): Option<Error> {
    if !s.topology.Declares(node.team) then Some(TopologyError)
    else if !Gates.Known(node.exitGate) then Some(SchemaError)
    else if s.topology.TeamForGate(node.exitGate).None? then Some(TopologyError)
    else if node.team in s.paused then Some(DispatchRejected)
    else if node.tierMax !in TIERS then Some(AuthorityError)
    else None
  }

  /** The payload with its two defaults. */
  function Resolved(payload: map<string, Json>, node: WorkNode): map<string, Json> {
    map["node_id" := Str(node.id), "acceptance" := Arr(WriteAll(node.acceptance, WriteStr))] + payload
  }

  /** envelope_scope: what a token commits to. */
  function Scope(graphId: string, nodeId: string, exitGate: string, payload: map<string, Json>,
                 deliverables: seq<ArtifactRef>): Json {
    Obj(map["graph_id" := Str(graphId), "node_id" := Str(nodeId), "exit_gate" := Str(exitGate),
            "payload" := Obj(payload), "deliverables" := Arr(WriteAll(deliverables, ArtifactJson))])
  }

  function EnvelopeScope(e: Envelope): Json {
    Scope(e.graphId, e.nodeId, e.exitGate, e.payload, e.deliverables)
  }

  function TokenJson(t: HandoffToken): Json {
    Obj(map["task_id" := Str(t.taskId), "team" := Str(t.team), "tier_max" := Str(t.tierMax),
            "scope_digest" := Str(t.scopeDigest), "expiry" := Num(t.expiry), "key_id" := Str(t.keyId),
            "mac" := Str(t.mac)])
  }

  function SignRequest(env: Env, node: WorkNode, graphId: string, payload: map<string, Json>, taskId: string, ttl: int): Request {
    Request(taskId, node.team, node.tierMax,
            env.digest(Scope(graphId, node.id, node.exitGate, payload, node.deliverables)), ttl)
  }

  function NewEnvelope(s: Control, node: WorkNode, graphId: string, payload: map<string, Json>, taskId: string,
                       token: HandoffToken): Envelope {
    Envelope(taskId, graphId, node.id, node.team, node.tierMax, payload, node.deliverables, node.exitGate,
             Some(token), |s.log|, node.deadline)
  }

  function Stamp(digest: string): string {
    "sha256:" + digest
  }

  function DispatchEvent(env: Env, e: Envelope, lead: string): Event {
    Dispatched(e.taskId, e.graphId, e.nodeId, e.team, lead, e.tierMax, e.exitGate,
               if e.token.Some? then Stamp(env.digest(TokenJson(e.token.value))) else "",
               Stamp(env.digest(Obj(e.payload))), Some(e.deliverables))
  }

  function LeadOf(s: Control, team: string): string {
    var t := s.topology.TeamNamed(team);
    if t.Some? then t.value.lead else ""
  }

  /** Logging and recording a signed envelope. */
  function Enqueue(env: Env, s: Control, e: Envelope, lead: string, now: int): Control {
    s.(tasks := s.tasks[e.taskId := Record(e, Issued, Some(now + env.ackSlo), None, None, None, None)],
       byNode := s.byNode[e.Key() := e.taskId],
       log := s.log + [DispatchEvent(env, e, lead)])
  }

  /** Sign, validate and enqueue a node that nothing refuses. */
  function Place(env: Env, s: Control, node: WorkNode, graphId: string, payload: map<string, Json>, taskId: string,
                 ttl: int, draw: Draw): (r: (Control, Result<Envelope>))
    requires s.ring.keys != []
    ensures r.0.ring.keys != [] && s.tasks.Keys <= r.0.tasks.Keys
  {
    var full := Resolved(payload, node);
    var signing := Sign(env.hmac, s.ring, SignRequest(env, node, graphId, full, taskId, ttl), draw.clock, draw.key);
    var s1 := s.(ring := signing.0);
    match signing.1
    case Err(x) => (s1, Err(x))
    case Ok(token) =>
      if !IsTaskId(taskId) then (s1, Err(SchemaError))
      else
        var e := NewEnvelope(s, node, graphId, full, taskId, token);
        (Enqueue(env, s1, e, LeadOf(s, node.team), draw.now), Ok(e))
  }

  function Dispatch(env: Env, s: Control, node: WorkNode, graphId: string, payload: map<string, Json>,
                    taskId: Option<string>, ttl: int, draw: Draw): (r: (Control, Result<Envelope>))
    requires s.ring.keys != []
    ensures r.0.ring.keys != [] && s.tasks.Keys <= r.0.tasks.Keys
  {
    if s.readOnly then (s, Err(ReadOnlyMode))
    else if !node.Valid() then (s, Err(SchemaError))
    else
      match Existing(s, graphId, node.id, taskId)
      case Some(t) => (s, if t in s.tasks then Ok(s.tasks[t].envelope) else Err(Crash))
      case None =>
        match Refusal(s, node)
        case Some(x) => (s, Err(x))
        case None =>
          Place(env, s, node, graphId, payload, if taskId.Some? && taskId.value != "" then taskId.value else draw.taskId, ttl, draw)
  }

  /** Nodes of a graph whose some record has passed. Any record counts, not only the live
      one. */
  function Satisfied(s: Control, graphId: string): set<string> {
    set t | t in s.tasks && s.tasks[t].state.Passed? && s.tasks[t].envelope.graphId == graphId
      :: s.tasks[t].envelope.nodeId
  }

  predicate IsReady(node: WorkNode, satisfied: set<string>) {
    forall i :: 0 <= i < |node.dependsOn| ==> node.dependsOn[i] in satisfied
  }

  /** The loop of dispatch_graph; an exception stops it where it is. */
  function DispatchNodes(env: Env, s: Control, nodes: seq<WorkNode>, graphId: string, readyOnly: bool,
                         satisfied: set<string>, draws: seq<Draw>): (r: (Control, Result<seq<Envelope>>))
    requires s.ring.keys != [] && |draws| == |nodes|
    ensures r.0.ring.keys != []
    decreases |nodes|
  {
    if nodes == [] then (s, Ok([]))
    else if readyOnly && !IsReady(nodes[0], satisfied) then
      DispatchNodes(env, s, nodes[1..], graphId, readyOnly, satisfied, draws[1..])
    else
      var first := Dispatch(env, s, nodes[0], graphId, map[], None, DEFAULT_TTL, draws[0]);
      match first.1
      case Err(x) => (first.0, Err(x))
      case Ok(e) =>
        var rest := DispatchNodes(env, first.0, nodes[1..], graphId, readyOnly, satisfied, draws[1..]);
        (rest.0, match rest.1 case Ok(es) => Ok([e] + es) case Err(x) => Err(x))
  }

  ghost function DispatchGraph(env: Env, s: Control, graph: WorkGraph, graphId: string, readyOnly: bool, draws: seq<Draw>)
    : (r: (Control, Result<seq<Envelope>>))
    requires s.ring.keys != [] && |draws| == |graph.nodes|
    ensures r.0.ring.keys != []
  {
    if !graph.Valid() then (s, Err(SchemaError))
    else DispatchNodes(env, s, graph.nodes, graphId, readyOnly, Satisfied(s, graphId), draws)
  }

  // ---------- ingress ----------

  /** The checks of `deliver` before the ledger, in their order. */
  function TokenRefusal(env: Env, s: Control, e: Envelope, toAgent: string, now: int): Option<Error> {
    var team := s.topology.TeamNamed(e.team);
    if team.None? then Some(TopologyError)
    else if e.token.None? then Some(AuthorityError)
    else if toAgent != team.value.lead then Some(AuthorityError)
    else if e.taskId != e.token.value.taskId then Some(AuthorityError)
    else
      match Verify(env.hmac, s.ring, e.token.value, env.digest(EnvelopeScope(e)), e.team, e.tierMax, now)
      case Err(x) => Some(x)
      case Ok(_) => None
  }

  function IngressRefusal(env: Env, s: Control, e: Envelope, toAgent: string, now: int): Option<Error> {
    match TokenRefusal(env, s, e, toAgent, now)
    case Some(x) => Some(x)
    case None => if e.taskId in s.consumed then Some(ReplayError) else None
  }

  /** The token is consumed and the acceptance logged. */
  function Accept(s: Control, e: Envelope, toAgent: string): Control
    requires e.token.Some?
  {
    s.(consumed := s.consumed[e.taskId := e.token.value.mac],
       log := s.log + [IngressAccepted(e.taskId, e.team, toAgent)])
  }

  function Deliver(env: Env, s: Control, e: Envelope, toAgent: string, now: int): (Control, Result<()>) {
    match IngressRefusal(env, s, e, toAgent, now)
    case Some(x) => (s, Err(x))
    case None => (Accept(s, e, toAgent), Ok(()))
  }

  // ---------- reports and gates ----------

  function Report(env: Env, s: Control, u: StatusUpdate): Control
    requires u.taskId in s.tasks
  {
    var r := s.tasks[u.taskId];
    s.(tasks := s.tasks[u.taskId := r.(state := StateOf(u.state), pctComplete := u.pctComplete,
                                       nextUpdateBy := Some(u.nextUpdateBy), ackDeadline := None)],
       log := s.log + [Status(u.taskId, r.envelope.team, u.state, Stamp(env.digest(StatusJson(u))))])
  }

  function IngestStatus(env: Env, s: Control, raw: Json): (Control, Result<StatusUpdate>) {
    match ParseStatus(raw)
    case Err(x) => (s, Err(x))
    case Ok(u) =>
      if u.taskId !in s.tasks || u.state == "gate_pass" then (s, Err(DispatchRejected))
      else (Report(env, s, u), Ok(u))
  }

  function EvidenceHash(env: Env, evidence: seq<string>): string {
    Stamp(env.digest(Arr(WriteAll(evidence, WriteStr))))
  }

  function Judge(env: Env, s: Control, taskId: string, result: Gates.GateResult): Control
    requires taskId in s.tasks
  {
    var r := s.tasks[taskId];
    s.(tasks := s.tasks[taskId := r.(gateResult := Some(result), state := if result.passed then Passed else Failed)],
       log := s.log + [GateOutcome(taskId, r.envelope.team, result.gate, result.passed, EvidenceHash(env, result.evidence))])
  }

  function AcceptGate(env: Env, s: Control, taskId: string, raw: Json, now: int): (Control, Result<Gates.GateResult>) {
    if taskId !in s.tasks then (s, Err(DispatchRejected))
    else
      match ParseResult(raw, now)
      case Err(x) => (s, Err(x))
      case Ok(result) =>
        if result.gate != s.tasks[taskId].envelope.exitGate then (s, Err(DispatchRejected))
        else (Judge(env, s, taskId, result), Ok(result))
  }

  /** `live_record`, by task id. */
  function LiveTask(s: Control, graphId: string, nodeId: string): Option<string> {
    if (graphId, nodeId) in s.byNode && s.byNode[(graphId, nodeId)] in s.tasks then Some(s.byNode[(graphId, nodeId)])
    else None
  }

  predicate NodePassed(s: Control, graphId: string, nodeId: string) {
    var t := LiveTask(s, graphId, nodeId);
    t.Some? && s.tasks[t.value].state.Passed?
  }

  /** What `assert_shippable` lets through, and `may_ship` answers. */
  predicate MayShip(s: Control, graph: WorkGraph, graphId: string) {
    forall i :: 0 <= i < |graph.nodes| ==> NodePassed(s, graphId, graph.nodes[i].id)
  }

  /** The nodes of a list without a task, and those whose task has not passed, in order. */
  function NeverDispatched(s: Control, graphId: string, nodes: seq<WorkNode>): seq<string> {
    if nodes == [] then []
    else
      var last := nodes[|nodes| - 1].id;
      NeverDispatched(s, graphId, nodes[..|nodes| - 1]) + if LiveTask(s, graphId, last).None? then [last] else []
  }

  function UngatedNodes(s: Control, graphId: string, nodes: seq<WorkNode>): seq<string> {
    if nodes == [] then []
    else
      var last := nodes[|nodes| - 1].id;
      UngatedNodes(s, graphId, nodes[..|nodes| - 1])
      + if LiveTask(s, graphId, last).Some? && !NodePassed(s, graphId, last) then [last] else []
  }

  /** Both lists are empty exactly when the nodes may ship. */
  lemma {:induction false} NothingInTheWay(s: Control, graphId: string, nodes: seq<WorkNode>)
    ensures NeverDispatched(s, graphId, nodes) == [] && UngatedNodes(s, graphId, nodes) == [] <==>
      forall i :: 0 <= i < |nodes| ==> NodePassed(s, graphId, nodes[i].id)
  {
    if nodes != [] {
      var n := |nodes| - 1;
      NothingInTheWay(s, graphId, nodes[..n]);
      assert forall i :: 0 <= i < n ==> nodes[..n][i] == nodes[i];
    }
  }

  // ---------- reclaim ----------

  function ReclaimRefusal(s: Control, taskId: string): Option<Error> {
    if s.readOnly then Some(ReadOnlyMode)
    else if taskId !in s.tasks then Some(DispatchRejected)
    else if s.tasks[taskId].state.Passed? then Some(DispatchRejected)
    else if s.tasks[taskId].supersededBy.Some? then Some(DispatchRejected)
    else None
  }

  /** The record is marked abandoned and the reclaim is logged before anything else. */
  function Abandon(s: Control, taskId: string, reason: string): Control
    requires taskId in s.tasks
  {
    var r := s.tasks[taskId];
    s.(tasks := s.tasks[taskId := r.(state := Abandoned)],
       log := s.log + [Reclaimed(taskId, r.envelope.team, reason)])
  }

  function Supersede(s: Control, taskId: string, next: string): Control
    requires taskId in s.tasks
  {
    s.(tasks := s.tasks[taskId := s.tasks[taskId].(supersededBy := Some(next))])
  }

  /** Free the node of a task, dispatch it again, and link the task to its replacement. */
  function Reassigned(env: Env, s: Control, taskId: string, node: WorkNode, draw: Draw): (r: (Control, Result<Envelope>))
    requires s.ring.keys != [] && taskId in s.tasks
    ensures r.0.ring.keys != []
  {
    var key := s.tasks[taskId].envelope.Key();
    var placed := Dispatch(env, s.(byNode := s.byNode - {key}), node, key.0, map[], None, DEFAULT_TTL, draw);
    (if placed.1.Ok? then Supersede(placed.0, taskId, placed.1.value.taskId) else placed.0, placed.1)
  }

  function Reclaim(env: Env, s: Control, taskId: string, reason: string, graph: WorkGraph, draw: Draw): (r: (Control, Result<Envelope>))
    requires s.ring.keys != []
    ensures r.0.ring.keys != []
  {
    match ReclaimRefusal(s, taskId)
    case Some(x) => (s, Err(x))
    case None => Retaken(env, Abandon(s, taskId, reason), taskId, graph, draw)
  }

  /** What a reclaim does once the task is abandoned. */
  function Retaken(env: Env, s: Control, taskId: string, graph: WorkGraph, draw: Draw): (r: (Control, Result<Envelope>))
    requires s.ring.keys != [] && taskId in s.tasks
    ensures r.0.ring.keys != []
  {
    var key := s.tasks[taskId].envelope.Key();
    match graph.Node(key.1)
    case Err(x) => (s, Err(x))
    case Ok(node) => if key !in s.byNode then (s, Err(Crash)) else Reassigned(env, s, taskId, node, draw)
  }

  // ---------- projections ----------

  predicate Stuck(r: Record, now: int) {
    && !r.Terminal() && r.supersededBy.None?
    && ((r.ackDeadline.Some? && now > r.ackDeadline.value) || (r.nextUpdateBy.Some? && now > r.nextUpdateBy.value))
  }

  predicate Open(r: Record) {
    !r.Terminal() && r.supersededBy.None?
  }

  function OpenOf(s: Control, team: string): set<string> {
    set t | t in s.tasks && Open(s.tasks[t]) && s.tasks[t].envelope.team == team
  }

  /** queue_depth: open records per declared team; an open record of any other team has no
      counter, which is a KeyError. */
  function QueueDepth(s: Control): Result<map<string, nat>> {
    if exists t | t in s.tasks :: Open(s.tasks[t]) && !s.topology.Declares(s.tasks[t].envelope.team) then Err(Crash)
    else Ok(map team | team in s.topology.Names() :: |OpenOf(s, team)|)
  }

  // ---------- cold start ----------

  function RestoredState(state: ReplayState, taskId: string): TaskState {
    if taskId in state.reclaimed then Abandoned
    else if taskId in state.gateResults then (if state.gateResults[taskId] then Passed else Failed)
    else Issued
  }

  function RestoredRecord(state: ReplayState, taskId: string): Record
    requires taskId in state.dispatched
  {
    var m := state.dispatched[taskId];
    Record(Envelope(taskId, m.graphId, m.nodeId, m.team, if m.tierMax == "" then "T3" else m.tierMax, map[],
                    m.Listed(), m.exitGate, None, m.seqNo, None),
           RestoredState(state, taskId), None, None, None, None, None)
  }

  /** One turn of the loop of restore_from, for a task whose deliverables parse. */
  function RestoreOne(s: Control, state: ReplayState, taskId: string): Control
    requires taskId in state.dispatched
  {
    if taskId in s.tasks || state.dispatched[taskId].Listed() == [] then s
    else
      var r := RestoredRecord(state, taskId);
      s.(tasks := s.tasks[taskId := r],
         byNode := if r.state.Abandoned? then s.byNode else s.byNode[r.envelope.Key() := taskId])
  }

  function RestoreFrom(s: Control, state: ReplayState, order: seq<string>): Control
    requires forall i :: 0 <= i < |order| ==> order[i] in state.dispatched
    decreases |order|
  {
    if order == [] then s
    else RestoreOne(RestoreFrom(s, state, order[..|order| - 1]), state, order[|order| - 1])
  }

  /** Restoring adds only listed tasks, so the next listed task is not there yet unless it
      was before. */
  lemma {:induction false} RestoredAreListed(s: Control, state: ReplayState, order: seq<string>)
    requires forall i :: 0 <= i < |order| ==> order[i] in state.dispatched
    ensures forall t :: t in RestoreFrom(s, state, order).tasks ==> t in s.tasks || t in order
    decreases |order|
  {
    if order != [] {
      var n := |order| - 1;
      RestoredAreListed(s, state, order[..n]);
      assert order == order[..n] + [order[n]];
    }
  }

  /** The tasks that restoring would add have deliverables that parse. */
  predicate Restores(s: Control, state: ReplayState) {
    forall t :: t in state.dispatched && t !in s.tasks ==> state.dispatched[t].deliverables.Some?
  }

  /** s' is s after the first n turns of the restoring loop, and none of them raised. */
  ghost predicate RestoredSoFar(s: Control, state: ReplayState, n: nat, s': Control) {
    && state.Ordered() && n <= |state.order|
    && s' == RestoreFrom(s, state, state.order[..n])
    && forall i :: 0 <= i < n ==> state.order[i] in s.tasks || state.dispatched[state.order[i]].deliverables.Some?
  }

  lemma RestoreBegins(s: Control, state: ReplayState)
    requires state.Ordered()
    ensures RestoredSoFar(s, state, 0, s)
  {
    assert state.order[..0] == [];
  }

  lemma RestoreTurn(s: Control, state: ReplayState, i: nat, s1: Control)
    requires RestoredSoFar(s, state, i, s1) && i < |state.order|
    ensures var t := state.order[i];
      && t in state.dispatched && t in state.order
      && (t !in s1.tasks && state.dispatched[t].deliverables.None? ==> !Restores(s, state))
      && (t in s1.tasks || state.dispatched[t].deliverables.Some? ==> RestoredSoFar(s, state, i + 1, RestoreOne(s1, state, t)))
  {
    assert state.order[..i + 1][..i] == state.order[..i] && state.order[..i + 1][i] == state.order[i];
    RestoredAreListed(s, state, state.order[..i]);
    RestoringKeeps(s, state, state.order[..i]);
  }

  lemma {:induction false} RestoringKeeps(s: Control, state: ReplayState, order: seq<string>)
    requires forall i :: 0 <= i < |order| ==> order[i] in state.dispatched
    ensures s.tasks.Keys <= RestoreFrom(s, state, order).tasks.Keys
    decreases |order|
  {
    if order != [] { RestoringKeeps(s, state, order[..|order| - 1]); }
  }

  lemma RestoreEnds(s: Control, state: ReplayState, s1: Control)
    requires RestoredSoFar(s, state, |state.order|, s1)
    ensures Restores(s, state) && s1 == RestoreFrom(s, state, state.order)
  {
    assert state.order[..|state.order|] == state.order;
    forall t | t in state.dispatched && t !in s.tasks ensures state.dispatched[t].deliverables.Some? {
      assert t in state.order;
    }
  }

  /** Every open task names a declared team and a known gate. */
  predicate Reconciled(state: ReplayState, topology: Topology.Topology) {
    forall t :: t in state.OpenTasks() ==>
      topology.Declares(state.dispatched[t].team) && Gates.Known(state.dispatched[t].exitGate)
  }

  function PauseAll(s: Control, teams: seq<string>): (Control, Result<()>)
    decreases |teams|
  {
    if teams == [] then (s, Ok(()))
    else
      var first := PauseTeam(s, teams[0], "restored from audit replay");
      if first.1.Err? then first else PauseAll(first.0, teams[1..])
  }

  function Boot(topology: Topology.Topology, ring: Ring, log: seq<Event>): Control {
    Control(topology, true, map[], map[], {}, map[], ring, log)
  }

  /** Pausing again and opening, on a restored dispatcher. */
  function Finished(s: Control, state: ReplayState, entries: int): (Control, Result<()>) {
    var paused := PauseAll(s, Lex.Sorted(state.paused));
    if paused.1.Err? then paused
    else (paused.0.(readOnly := false, log := paused.0.log + [ColdStart(entries)]), Ok(()))
  }

  /** Reconciling and restoring first, on an empty dispatcher. Restoring raises at the first
      task whose deliverables do not parse, and pausing at the first undeclared team. */
  function Rebuilt(boot: Control, state: ReplayState, entries: int): (Control, Result<()>)
    requires forall i :: 0 <= i < |state.order| ==> state.order[i] in state.dispatched
  {
    if !Reconciled(state, boot.topology) then (boot, Err(DispatchRejected))
    else if !state.Legible() then (boot, Err(SchemaError))
    else Finished(RestoreFrom(boot, state, state.order), state, entries)
  }

  /** The steps of cold_start after the audit chain and the mirror have been accepted, for
      a manifest that loads. A refused start leaves no process; the log it leaves is that
      of the returned state. */
  ghost function ColdStarted(topology: Topology.Topology, ring: Ring, now: int, created: int, draw: Fresh, log: seq<Event>)
    : (Control, Result<()>)
    requires ring.keys != []
  {
    if !topology.Valid() then (Boot(topology, ring, log), Err(TopologyError))
    else
      ReplayedOrdered(log);
      Rebuilt(Boot(topology, Renew(ring, now, created, draw), log), Replayed(log), |log|)
  }
}
