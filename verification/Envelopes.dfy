/** What the orchestrator sends out for a node: every field of the envelope, its record and its
    log entry, for each operation that issues one (dispatch.py: dispatch, dispatch_graph, reclaim). */
module Envelopes {
  import opened Basics
  import opened JsonText
  import opened Schema
  import opened SchemaCodec
  import opened Tokens
  import opened Events
  import opened Control
  import opened Projection
  import opened Restart
  import opened Recovery
  import opened Runs
  import Gates
  import Ingress
  import Parsers
  import Replay
  import Restored

  /** The payload a lead receives: what the caller gave, and the node's id and acceptance
      criteria where the caller gave none. */
  ghost predicate FilledIn(payload: map<string, Json>, given: map<string, Json>, node: WorkNode) {
    && payload.Keys == given.Keys + {"node_id", "acceptance"}
    && (forall k :: k in given ==> payload[k] == given[k])
    && ("node_id" !in given ==> payload["node_id"] == Str(node.id))
    && ("acceptance" !in given ==> Parsers.Texts(payload["acceptance"], node.acceptance))
  }

  ghost predicate Carries(e: Envelope, node: WorkNode, graphId: string, given: map<string, Json>) {
    && e.graphId == graphId && e.nodeId == node.id && e.team == node.team && e.tierMax == node.tierMax
    && e.exitGate == node.exitGate && e.deliverables == node.deliverables && e.deadline == node.deadline
    && FilledIn(e.payload, given, node)
  }

  /** The envelope carries a token for this task that lives for the time asked for. */
  ghost predicate TokenFor(e: Envelope, ttl: int, draw: Draw) {
    && e.token.Some? && e.token.value.taskId == e.taskId && e.token.value.team == e.team && e.token.value.tierMax == e.tierMax
    && e.token.value.expiry == draw.clock.signed + ttl
  }

  ghost predicate Sent(e: Envelope, node: WorkNode, graphId: string, given: map<string, Json>, ttl: int, draw: Draw) {
    Carries(e, node, graphId, given) && TokenFor(e, ttl, draw)
  }

  /** The dispatch entry, key by key. */
  ghost predicate EntryFor(env: Env, ev: Event, e: Envelope, lead: string) {
    && ev.Dispatched? && ev.taskId == e.taskId && ev.graphId == e.graphId && ev.nodeId == e.nodeId && ev.team == e.team
    && ev.lead == lead && ev.tierMax == e.tierMax && ev.exitGate == e.exitGate && ev.deliverables == Some(e.deliverables)
    && ev.payloadHash == "sha256:" + env.digest(Obj(e.payload))
    && e.token.Some? && ev.tokenHash == "sha256:" + env.digest(TokenDictionary(e.token.value))
  }

  /** HandoffToken.to_dict. */
  function TokenDictionary(t: HandoffToken): Json {
    Obj(map["task_id" := Str(t.taskId)] + map["team" := Str(t.team)] + map["tier_max" := Str(t.tierMax)]
        + map["scope_digest" := Str(t.scopeDigest)] + map["expiry" := Num(t.expiry)] + map["key_id" := Str(t.keyId)]
        + map["mac" := Str(t.mac)])
  }

  /** A new task t for this node, and nothing else but the key ring. */
  ghost predicate Issues(env: Env, s: Control, s': Control, t: string, node: WorkNode, graphId: string,
                         given: map<string, Json>, ttl: int, draw: Draw) {
    && t in s'.tasks && s'.tasks[t].envelope.taskId == t && s'.tasks[t].envelope.parentAuditSeq == |s.log|
    && Sent(s'.tasks[t].envelope, node, graphId, given, ttl, draw)
    && s'.tasks[t] == Record(s'.tasks[t].envelope, Issued, Some(draw.now + env.ackSlo), None, None, None, None)
    && |s'.log| == |s.log| + 1 && s.log <= s'.log
    && s.topology.TeamNamed(node.team).Some?
    && EntryFor(env, s'.log[|s.log|], s'.tasks[t].envelope, s.topology.TeamNamed(node.team).value.lead)
    && s' == s.(tasks := s.tasks[t := s'.tasks[t]], byNode := s.byNode[(graphId, node.id) := t], log := s'.log, ring := s'.ring)
  }

  lemma AcceptanceWritten(payload: map<string, Json>, node: WorkNode)
    ensures FilledIn(Resolved(payload, node), payload, node)
  {
    Parsers.TextsWritten(node.acceptance);
  }

  lemma TokenIsWritten(t: HandoffToken)
    ensures TokenJson(t) == TokenDictionary(t)
  {}

  /** The id a new task gets. */
  function IdFor(wanted: Option<string>, draw: Draw): string {
    if wanted.Some? && wanted.value != "" then wanted.value else draw.taskId
  }

  lemma EnqueueIssues(env: Env, s: Control, ring: Ring, node: WorkNode, graphId: string, given: map<string, Json>,
                      taskId: string, token: HandoffToken, ttl: int, draw: Draw)
    requires s.topology.Declares(node.team)
    requires token.taskId == taskId && token.team == node.team && token.tierMax == node.tierMax
    requires token.expiry == draw.clock.signed + ttl
    ensures var e := NewEnvelope(s, node, graphId, Resolved(given, node), taskId, token);
      Issues(env, s, Enqueue(env, s.(ring := ring), e, LeadOf(s, node.team), draw.now), taskId, node, graphId, given, ttl, draw)
  {
    AcceptanceWritten(given, node);
    TokenIsWritten(token);
  }

  /** Signing and enqueueing, answer by answer. */
  lemma PlaceAnswers(env: Env, s: Control, node: WorkNode, graphId: string, given: map<string, Json>, t: string, ttl: int, draw: Draw)
    requires s.ring.keys != [] && node.Valid() && s.topology.Declares(node.team)
    ensures var (s', r) := Place(env, s, node, graphId, given, t, ttl, draw);
      && (ttl <= 0 ==> (s', r) == (s, Err(TokenError)))
      && (ttl > 0 && !IsTaskId(t) ==> s' == s.(ring := s'.ring) && r == Err(SchemaError))
      && (ttl > 0 && IsTaskId(t) ==> Issues(env, s, s', t, node, graphId, given, ttl, draw) && r == Ok(s'.tasks[t].envelope))
  {
    var full := Resolved(given, node);
    var (ring, token) := Sign(env.hmac, s.ring, SignRequest(env, node, graphId, full, t, ttl), draw.clock, draw.key);
    assert s.(ring := s.ring) == s;
    if ttl > 0 { EnqueueIssues(env, s, ring, node, graphId, given, t, token.value, ttl, draw); }
  }

  /** What dispatch answers, in the order of its checks. */
  lemma DispatchAnswers(env: Env, s: Control, node: WorkNode, graphId: string, given: map<string, Json>,
                        wanted: Option<string>, ttl: int, draw: Draw)
    requires s.ring.keys != []
    ensures var (s', r) := Dispatch(env, s, node, graphId, given, wanted, ttl, draw);
      var known := wanted.Some? && wanted.value in s.tasks;
      var owned := (graphId, node.id) in s.byNode;
      var gated := Gates.Known(node.exitGate);
      if s.readOnly then (s', r) == (s, Err(ReadOnlyMode))
      else if !node.Valid() then (s', r) == (s, Err(SchemaError))
      else if known then (s', r) == (s, Ok(s.tasks[wanted.value].envelope))
      else if owned then s' == s && (s.byNode[(graphId, node.id)] in s.tasks ==> r == Ok(s.tasks[s.byNode[(graphId, node.id)]].envelope))
      else if !s.topology.Declares(node.team) then (s', r) == (s, Err(TopologyError))
      else if !gated then (s', r) == (s, Err(SchemaError))
      else if s.topology.TeamForGate(node.exitGate).None? then (s', r) == (s, Err(TopologyError))
      else if node.team in s.paused then (s', r) == (s, Err(DispatchRejected))
      else if ttl <= 0 then (s', r) == (s, Err(TokenError))
      else if !IsTaskId(IdFor(wanted, draw)) then s' == s.(ring := s'.ring) && r == Err(SchemaError)
      else Issues(env, s, s', IdFor(wanted, draw), node, graphId, given, ttl, draw) && r == Ok(s'.tasks[IdFor(wanted, draw)].envelope)
  {
    if node.Valid() && s.topology.Declares(node.team) {
      PlaceAnswers(env, s, node, graphId, given, IdFor(wanted, draw), ttl, draw);
    }
  }

  // ---------- graphs ----------

  /** The nodes that dispatch_graph takes, in order. */
  function Chosen(nodes: seq<WorkNode>, readyOnly: bool, satisfied: set<string>): seq<WorkNode> {
    if nodes == [] then []
    else
      var rest := Chosen(nodes[1..], readyOnly, satisfied);
      if readyOnly && exists d :: d in nodes[0].dependsOn && d !in satisfied then rest else [nodes[0]] + rest
  }

  /** The new tasks of s' are of these nodes, as sent with no payload for half an hour. */
  ghost predicate NewFrom(s: Control, s': Control, nodes: seq<WorkNode>, graphId: string, draws: seq<Draw>)
    requires |draws| == |nodes|
  {
    && (forall t :: t in s.tasks ==> t in s'.tasks && s'.tasks[t] == s.tasks[t])
    && forall t :: t in s'.tasks && t !in s.tasks ==>
         exists i :: 0 <= i < |nodes| && Sent(s'.tasks[t].envelope, nodes[i], graphId, map[], 1800, draws[i])
  }

  /** A dispatch without a wanted id either creates the drawn task, or leaves everything but the
      key ring alone. */
  lemma DispatchEither(env: Env, s: Control, node: WorkNode, graphId: string, draw: Draw)
    requires s.ring.keys != []
    ensures var (s', r) := Dispatch(env, s, node, graphId, map[], None, DEFAULT_TTL, draw);
      || (s' == s.(ring := s'.ring) && (r.Ok? ==> OwnerOf(s, graphId, node.id, r.value)))
      || (Issues(env, s, s', draw.taskId, node, graphId, map[], 1800, draw) && r == Ok(s'.tasks[draw.taskId].envelope))
  {
    DispatchAnswers(env, s, node, graphId, map[], None, DEFAULT_TTL, draw);
    assert s.(ring := s.ring) == s;
  }

  predicate OwnerOf(s: Control, graphId: string, nodeId: string, e: Envelope) {
    (graphId, nodeId) in s.byNode && (s.byNode[(graphId, nodeId)] in s.tasks ==> e == s.tasks[s.byNode[(graphId, nodeId)]].envelope)
  }

  lemma NewIs(env: Env, s: Control, s': Control, node: WorkNode, graphId: string, draw: Draw)
    requires draw.taskId !in s.tasks
    requires s' == s.(ring := s'.ring) || Issues(env, s, s', draw.taskId, node, graphId, map[], 1800, draw)
    ensures NewFrom(s, s', [node], graphId, [draw])
  {
    assert [node][0] == node && [draw][0] == draw;
  }

  lemma DispatchNew(env: Env, s: Control, node: WorkNode, graphId: string, draw: Draw)
    requires s.ring.keys != [] && draw.taskId !in s.tasks
    ensures NewFrom(s, Dispatch(env, s, node, graphId, map[], None, DEFAULT_TTL, draw).0, [node], graphId, [draw])
  {
    DispatchEither(env, s, node, graphId, draw);
    NewIs(env, s, Dispatch(env, s, node, graphId, map[], None, DEFAULT_TTL, draw).0, node, graphId, draw);
  }

  lemma NewJoins(s: Control, s1: Control, s': Control, nodes: seq<WorkNode>, graphId: string, draws: seq<Draw>)
    requires nodes != [] && |draws| == |nodes|
    requires NewFrom(s, s1, [nodes[0]], graphId, [draws[0]]) && NewFrom(s1, s', nodes[1..], graphId, draws[1..])
    ensures NewFrom(s, s', nodes, graphId, draws)
  {
    forall t | t in s'.tasks && t !in s.tasks
      ensures exists i :: 0 <= i < |nodes| && Sent(s'.tasks[t].envelope, nodes[i], graphId, map[], 1800, draws[i])
    {
      if t in s1.tasks {
        assert Sent(s'.tasks[t].envelope, nodes[0], graphId, map[], 1800, draws[0]);
      } else {
        var i :| 0 <= i < |nodes[1..]| && Sent(s'.tasks[t].envelope, nodes[1..][i], graphId, map[], 1800, draws[1..][i]);
        assert nodes[1..][i] == nodes[i + 1] && draws[1..][i] == draws[i + 1];
      }
    }
  }

  lemma NewWidens(s: Control, s': Control, nodes: seq<WorkNode>, graphId: string, draws: seq<Draw>)
    requires nodes != [] && |draws| == |nodes| && NewFrom(s, s', nodes[1..], graphId, draws[1..])
    ensures NewFrom(s, s', nodes, graphId, draws)
  {
    forall t | t in s'.tasks && t !in s.tasks
      ensures exists i :: 0 <= i < |nodes| && Sent(s'.tasks[t].envelope, nodes[i], graphId, map[], 1800, draws[i])
    {
      var i :| 0 <= i < |nodes[1..]| && Sent(s'.tasks[t].envelope, nodes[1..][i], graphId, map[], 1800, draws[1..][i]);
      assert nodes[1..][i] == nodes[i + 1] && draws[1..][i] == draws[i + 1];
    }
  }

  lemma FirstOnly(s: Control, s': Control, nodes: seq<WorkNode>, graphId: string, draws: seq<Draw>)
    requires nodes != [] && |draws| == |nodes| && NewFrom(s, s', [nodes[0]], graphId, [draws[0]])
    ensures NewFrom(s, s', nodes, graphId, draws)
  {}

  /** Every task that dispatch_graph creates is for a node of the list. */
  lemma {:induction false} NodesNew(env: Env, s: Control, nodes: seq<WorkNode>, graphId: string, readyOnly: bool,
                                    satisfied: set<string>, draws: seq<Draw>)
    requires s.ring.keys != [] && |draws| == |nodes| && FreshDraws(s, draws)
    ensures NewFrom(s, DispatchNodes(env, s, nodes, graphId, readyOnly, satisfied, draws).0, nodes, graphId, draws)
    decreases |nodes|
  {
    if nodes != [] {
      var (s1, first) := Dispatch(env, s, nodes[0], graphId, map[], None, DEFAULT_TTL, draws[0]);
      DispatchAdds(env, s, nodes[0], graphId, DEFAULT_TTL, draws[0]);
      FreshRest(s, s1, draws);
      if readyOnly && !IsReady(nodes[0], satisfied) {
        NodesNew(env, s, nodes[1..], graphId, readyOnly, satisfied, draws[1..]);
        NewWidens(s, DispatchNodes(env, s, nodes, graphId, readyOnly, satisfied, draws).0, nodes, graphId, draws);
      } else {
        DispatchNew(env, s, nodes[0], graphId, draws[0]);
        if first.Ok? {
          NodesNew(env, s1, nodes[1..], graphId, readyOnly, satisfied, draws[1..]);
          NewJoins(s, s1, DispatchNodes(env, s1, nodes[1..], graphId, readyOnly, satisfied, draws[1..]).0, nodes, graphId, draws);
        } else {
          FirstOnly(s, s1, nodes, graphId, draws);
        }
      }
    }
  }

  lemma ReadyIff(node: WorkNode, satisfied: set<string>)
    ensures IsReady(node, satisfied) <==> !(exists d :: d in node.dependsOn && d !in satisfied)
  {
    assert forall i :: 0 <= i < |node.dependsOn| ==> node.dependsOn[i] in node.dependsOn;
  }

  /** Each envelope is that of its node's owner, in the order of the graph. */
  ghost predicate Answers(es: seq<Envelope>, chosen: seq<WorkNode>, graphId: string) {
    |es| == |chosen| && forall i :: 0 <= i < |es| ==> es[i].Key() == (graphId, chosen[i].id)
  }

  lemma OneAnswer(env: Env, s: Control, node: WorkNode, graphId: string, draw: Draw)
    requires s.ring.keys != [] && NodesNamed(s) && draw.taskId !in s.tasks
    ensures var (s', r) := Dispatch(env, s, node, graphId, map[], None, DEFAULT_TTL, draw);
      NodesNamed(s') && (r.Ok? ==> r.value.Key() == (graphId, node.id))
  {
    DispatchEither(env, s, node, graphId, draw);
    var (s', r) := Dispatch(env, s, node, graphId, map[], None, DEFAULT_TTL, draw);
    if s' == s.(ring := s'.ring) {
      StillNamed(s, s');
    } else {
      IssuedNamed(env, s, s', node, graphId, draw);
    }
  }

  lemma StillNamed(s: Control, s': Control)
    requires NodesNamed(s) && s' == s.(ring := s'.ring)
    ensures NodesNamed(s')
  {}

  lemma IssuedNamed(env: Env, s: Control, s': Control, node: WorkNode, graphId: string, draw: Draw)
    requires NodesNamed(s) && draw.taskId !in s.tasks && Issues(env, s, s', draw.taskId, node, graphId, map[], 1800, draw)
    ensures NodesNamed(s') && s'.tasks[draw.taskId].envelope.Key() == (graphId, node.id)
  {}

  /** The nodes before n went through, and node n was refused. */
  ghost predicate StopsAt(env: Env, s: Control, nodes: seq<WorkNode>, graphId: string, readyOnly: bool, satisfied: set<string>,
                          draws: seq<Draw>, n: int, s': Control, x: Error)
    requires s.ring.keys != [] && |draws| == |nodes|
  {
    && 0 <= n < |nodes|
    && DispatchNodes(env, s, nodes[..n], graphId, readyOnly, satisfied, draws[..n]).1.Ok?
    && Dispatch(env, DispatchNodes(env, s, nodes[..n], graphId, readyOnly, satisfied, draws[..n]).0, nodes[n], graphId, map[], None,
                DEFAULT_TTL, draws[n]) == (s', Err(x))
  }

  lemma StopsHere(env: Env, s: Control, nodes: seq<WorkNode>, graphId: string, readyOnly: bool, satisfied: set<string>, draws: seq<Draw>)
    requires s.ring.keys != [] && |draws| == |nodes| && nodes != [] && !(readyOnly && !IsReady(nodes[0], satisfied))
    requires Dispatch(env, s, nodes[0], graphId, map[], None, DEFAULT_TTL, draws[0]).1.Err?
    ensures var (s', r) := DispatchNodes(env, s, nodes, graphId, readyOnly, satisfied, draws);
      r.Err? && StopsAt(env, s, nodes, graphId, readyOnly, satisfied, draws, 0, s', r.error)
  {
    assert nodes[..0] == [] && draws[..0] == [];
  }

  /** The state in which the rest of the loop starts. */
  function AfterFirst(env: Env, s: Control, nodes: seq<WorkNode>, graphId: string, readyOnly: bool, satisfied: set<string>,
                      draws: seq<Draw>): (s1: Control)
    requires s.ring.keys != [] && |draws| == |nodes| && nodes != []
    ensures s1.ring.keys != []
  {
    if readyOnly && !IsReady(nodes[0], satisfied) then s
    else Dispatch(env, s, nodes[0], graphId, map[], None, DEFAULT_TTL, draws[0]).0
  }

  /** What the loop answers: the envelopes of the chosen nodes, or the first refusal. */
  ghost predicate LoopAnswers(env: Env, s: Control, nodes: seq<WorkNode>, graphId: string, readyOnly: bool, satisfied: set<string>,
                              draws: seq<Draw>)
    requires s.ring.keys != [] && |draws| == |nodes|
  {
    var (s', r) := DispatchNodes(env, s, nodes, graphId, readyOnly, satisfied, draws);
    && (r.Ok? ==> Answers(r.value, Chosen(nodes, readyOnly, satisfied), graphId))
    && (r.Err? ==> exists n :: StopsAt(env, s, nodes, graphId, readyOnly, satisfied, draws, n, s', r.error))
  }

  lemma SkipAnswers(env: Env, s: Control, nodes: seq<WorkNode>, graphId: string, readyOnly: bool, satisfied: set<string>, draws: seq<Draw>)
    requires s.ring.keys != [] && |draws| == |nodes| && nodes != [] && readyOnly && !IsReady(nodes[0], satisfied)
    requires LoopAnswers(env, s, nodes[1..], graphId, readyOnly, satisfied, draws[1..])
    ensures LoopAnswers(env, s, nodes, graphId, readyOnly, satisfied, draws)
  {
    ReadyIff(nodes[0], satisfied);
    StopsLater(env, s, nodes, graphId, readyOnly, satisfied, draws);
  }

  lemma TakeAnswers(env: Env, s: Control, nodes: seq<WorkNode>, graphId: string, readyOnly: bool, satisfied: set<string>, draws: seq<Draw>)
    requires s.ring.keys != [] && |draws| == |nodes| && nodes != [] && !(readyOnly && !IsReady(nodes[0], satisfied))
    requires var first := Dispatch(env, s, nodes[0], graphId, map[], None, DEFAULT_TTL, draws[0]);
      && first.1.Ok? && first.1.value.Key() == (graphId, nodes[0].id)
      && LoopAnswers(env, first.0, nodes[1..], graphId, readyOnly, satisfied, draws[1..])
    ensures LoopAnswers(env, s, nodes, graphId, readyOnly, satisfied, draws)
  {
    ReadyIff(nodes[0], satisfied);
    StopsLater(env, s, nodes, graphId, readyOnly, satisfied, draws);
    var (s1, first) := Dispatch(env, s, nodes[0], graphId, map[], None, DEFAULT_TTL, draws[0]);
    var rest := DispatchNodes(env, s1, nodes[1..], graphId, readyOnly, satisfied, draws[1..]).1;
    if rest.Ok? { AnswersJoin(first.value, rest.value, nodes[0], Chosen(nodes[1..], readyOnly, satisfied), graphId); }
  }

  lemma AnswersJoin(e: Envelope, es: seq<Envelope>, node: WorkNode, chosen: seq<WorkNode>, graphId: string)
    requires e.Key() == (graphId, node.id) && Answers(es, chosen, graphId)
    ensures Answers([e] + es, [node] + chosen, graphId)
  {}

  lemma StopsLater(env: Env, s: Control, nodes: seq<WorkNode>, graphId: string, readyOnly: bool, satisfied: set<string>, draws: seq<Draw>)
    requires s.ring.keys != [] && |draws| == |nodes| && nodes != []
    requires (readyOnly && !IsReady(nodes[0], satisfied)) || Dispatch(env, s, nodes[0], graphId, map[], None, DEFAULT_TTL, draws[0]).1.Ok?
    requires LoopAnswers(env, AfterFirst(env, s, nodes, graphId, readyOnly, satisfied, draws), nodes[1..], graphId, readyOnly,
                         satisfied, draws[1..])
    ensures var (s', r) := DispatchNodes(env, s, nodes, graphId, readyOnly, satisfied, draws);
      r.Err? ==> exists n :: StopsAt(env, s, nodes, graphId, readyOnly, satisfied, draws, n, s', r.error)
  {
    var (s', r) := DispatchNodes(env, s, nodes, graphId, readyOnly, satisfied, draws);
    var s1 := AfterFirst(env, s, nodes, graphId, readyOnly, satisfied, draws);
    if r.Err? {
      var n :| StopsAt(env, s1, nodes[1..], graphId, readyOnly, satisfied, draws[1..], n, s', r.error);
      OneMoreBefore(env, s, nodes, graphId, readyOnly, satisfied, draws, n);
      assert StopsAt(env, s, nodes, graphId, readyOnly, satisfied, draws, n + 1, s', r.error);
    }
  }

  lemma OneMoreBefore(env: Env, s: Control, nodes: seq<WorkNode>, graphId: string, readyOnly: bool, satisfied: set<string>,
                      draws: seq<Draw>, n: nat)
    requires s.ring.keys != [] && |draws| == |nodes| && nodes != [] && n < |nodes[1..]|
    requires (readyOnly && !IsReady(nodes[0], satisfied)) || Dispatch(env, s, nodes[0], graphId, map[], None, DEFAULT_TTL, draws[0]).1.Ok?
    ensures var s1 := AfterFirst(env, s, nodes, graphId, readyOnly, satisfied, draws);
      var rest := DispatchNodes(env, s1, nodes[1..][..n], graphId, readyOnly, satisfied, draws[1..][..n]);
      var all := DispatchNodes(env, s, nodes[..n + 1], graphId, readyOnly, satisfied, draws[..n + 1]);
      all.0 == rest.0 && (all.1.Ok? <==> rest.1.Ok?)
  {
    assert nodes[..n + 1][0] == nodes[0] && nodes[..n + 1][1..] == nodes[1..][..n];
    assert draws[..n + 1][0] == draws[0] && draws[..n + 1][1..] == draws[1..][..n];
  }

  /** dispatch_graph takes the chosen nodes in their order, ready ones or all. It answers with
      their envelopes, or with the refusal of the first one that is refused; the ones before it
      stay dispatched. */
  lemma {:induction false} NodesAnswer(env: Env, s: Control, nodes: seq<WorkNode>, graphId: string, readyOnly: bool,
                                       satisfied: set<string>, draws: seq<Draw>)
    requires s.ring.keys != [] && NodesNamed(s) && |draws| == |nodes| && FreshDraws(s, draws)
    ensures LoopAnswers(env, s, nodes, graphId, readyOnly, satisfied, draws)
    decreases |nodes|
  {
    if nodes != [] {
      var (s1, first) := Dispatch(env, s, nodes[0], graphId, map[], None, DEFAULT_TTL, draws[0]);
      DispatchAdds(env, s, nodes[0], graphId, DEFAULT_TTL, draws[0]);
      FreshRest(s, s1, draws);
      OneAnswer(env, s, nodes[0], graphId, draws[0]);
      if readyOnly && !IsReady(nodes[0], satisfied) {
        NodesAnswer(env, s, nodes[1..], graphId, readyOnly, satisfied, draws[1..]);
        SkipAnswers(env, s, nodes, graphId, readyOnly, satisfied, draws);
      } else if first.Ok? {
        NodesAnswer(env, s1, nodes[1..], graphId, readyOnly, satisfied, draws[1..]);
        TakeAnswers(env, s, nodes, graphId, readyOnly, satisfied, draws);
      } else {
        StopsHere(env, s, nodes, graphId, readyOnly, satisfied, draws);
      }
    }
  }

  // ---------- any operation ----------

  /** The nodes an operation may issue an envelope for, with the payload and lifetime asked for. */
  ghost predicate Offers(s: Control, op: Op, node: WorkNode, graphId: string, given: map<string, Json>, ttl: int, draw: Draw) {
    match op
    case DispatchOp(n, g, payload, _, life, d) => node == n && graphId == g && given == payload && ttl == life && draw == d
    case GraphOp(graph, g, _, draws) =>
      && graphId == g && given == map[] && ttl == 1800
      && exists i :: 0 <= i < |graph.nodes| && i < |draws| && node == graph.nodes[i] && draw == draws[i]
    case ReclaimOp(t, _, graph, d) =>
      && t in s.tasks && graph.Node(s.tasks[t].envelope.nodeId) == Ok(node)
      && graphId == s.tasks[t].envelope.graphId && given == map[] && ttl == 1800 && draw == d
    case _ => false
  }

  /** The envelope was sent for a node that this operation offers. */
  ghost predicate SentBy(s: Control, op: Op, e: Envelope) {
    exists node, graphId, given, ttl, draw :: Offers(s, op, node, graphId, given, ttl, draw) && Sent(e, node, graphId, given, ttl, draw)
  }

  lemma DispatchSends(env: Env, s: Control, op: Op, t: string)
    requires op.DispatchOp? && s.ring.keys != [] && t !in s.tasks
    requires t in Dispatch(env, s, op.node, op.graphId, op.payload, op.wanted, op.ttl, op.draw).0.tasks
    ensures SentBy(s, op, Dispatch(env, s, op.node, op.graphId, op.payload, op.wanted, op.ttl, op.draw).0.tasks[t].envelope)
  {
    DispatchAnswers(env, s, op.node, op.graphId, op.payload, op.wanted, op.ttl, op.draw);
    assert Offers(s, op, op.node, op.graphId, op.payload, op.ttl, op.draw);
  }

  lemma GraphSends(env: Env, s: Control, op: Op, t: string)
    requires op.GraphOp? && Legal(s, op) && s.ring.keys != [] && t !in s.tasks
    requires t in DispatchGraph(env, s, op.graph, op.graphId, op.readyOnly, op.draws).0.tasks
    ensures SentBy(s, op, DispatchGraph(env, s, op.graph, op.graphId, op.readyOnly, op.draws).0.tasks[t].envelope)
  {
    NodesNew(env, s, op.graph.nodes, op.graphId, op.readyOnly, Satisfied(s, op.graphId), op.draws);
    GraphNodeSent(s, DispatchGraph(env, s, op.graph, op.graphId, op.readyOnly, op.draws).0, op, t);
  }

  lemma GraphNodeSent(s: Control, s': Control, op: Op, t: string)
    requires op.GraphOp? && Legal(s, op) && t in s'.tasks && t !in s.tasks
    requires NewFrom(s, s', op.graph.nodes, op.graphId, op.draws)
    ensures SentBy(s, op, s'.tasks[t].envelope)
  {
    var e := s'.tasks[t].envelope;
    var i :| 0 <= i < |op.graph.nodes| && Sent(e, op.graph.nodes[i], op.graphId, map[], 1800, op.draws[i]);
    assert Offers(s, op, op.graph.nodes[i], op.graphId, map[], 1800, op.draws[i]);
  }

  lemma ReclaimSends(env: Env, s: Control, op: Op, t: string)
    requires op.ReclaimOp? && Legal(s, op) && s.ring.keys != [] && t !in s.tasks
    requires t in Reclaim(env, s, op.taskId, op.reason, op.graph, op.draw).0.tasks
    ensures SentBy(s, op, Reclaim(env, s, op.taskId, op.reason, op.graph, op.draw).0.tasks[t].envelope)
  {
    assert ReclaimRefusal(s, op.taskId).None?;
    ReclaimCases(env, s, op.taskId, op.reason, op.graph, op.draw);
    InnerSends(env, s, op, t);
  }

  lemma InnerSends(env: Env, s: Control, op: Op, t: string)
    requires op.ReclaimOp? && Legal(s, op) && s.ring.keys != [] && op.taskId in s.tasks && t !in s.tasks
    requires op.graph.Node(s.tasks[op.taskId].envelope.nodeId).Ok? && t in Inner(env, s, op.taskId, op.reason, op.graph, op.draw).0.tasks
    ensures SentBy(s, op, Inner(env, s, op.taskId, op.reason, op.graph, op.draw).0.tasks[t].envelope)
  {
    var base, e := ReclaimBase(s, op.taskId, op.reason), s.tasks[op.taskId].envelope;
    var node := op.graph.Node(e.nodeId).value;
    assert [op.draw][0].taskId !in s.tasks && base.tasks.Keys == s.tasks.Keys;
    DispatchNew(env, base, node, e.graphId, op.draw);
    assert Offers(s, op, node, e.graphId, map[], 1800, op.draw);
  }

  lemma SmallCreatesNone(env: Env, s: Control, op: Op)
    requires Legal(s, op) && !s.readOnly && s.ring.keys != [] && !op.StartOp?
    ensures Small(op) ==> Step(env, s, op).tasks.Keys == s.tasks.Keys
  {}

  lemma Creates(env: Env, s: Control, op: Op, t: string)
    requires Legal(s, op) && !s.readOnly && s.ring.keys != [] && !op.StartOp? && t in Step(env, s, op).tasks && t !in s.tasks
    ensures op.DispatchOp? || op.GraphOp? || op.ReclaimOp?
  {
    SmallCreatesNone(env, s, op);
  }

  /** Whatever operation creates a task, its envelope is that of a node which the operation
      names: acceptance criteria, deadline and all. */
  lemma StepSends(env: Env, s: Control, op: Op, t: string)
    requires Legal(s, op) && !s.readOnly && s.ring.keys != [] && !op.StartOp? && t in Step(env, s, op).tasks && t !in s.tasks
    ensures SentBy(s, op, Step(env, s, op).tasks[t].envelope)
  {
    Creates(env, s, op, t);
    if op.DispatchOp? {
      DispatchSends(env, s, op, t);
    } else if op.GraphOp? {
      GraphSends(env, s, op, t);
    } else {
      ReclaimSends(env, s, op, t);
    }
  }

  // ---------- runs ----------

  lemma RestoredTokenless(boot: Control, r: Replay.ReplayState, order: seq<string>)
    requires boot.tasks == map[] && forall i :: 0 <= i < |order| ==> order[i] in r.dispatched
    ensures forall t :: t in RestoreFrom(boot, r, order).tasks ==> RestoreFrom(boot, r, order).tasks[t].envelope.token.None?
  {
    Restored.RestoreAny(boot, r, order);
  }

  lemma FinishedTasks(s: Control, state: Replay.ReplayState, entries: int)
    ensures Finished(s, state, entries).0.tasks == s.tasks
  {
    var n := FinishedState(s, state, entries);
  }

  lemma RebuiltTasks(boot: Control, state: Replay.ReplayState, entries: int)
    requires forall i :: 0 <= i < |state.order| ==> state.order[i] in state.dispatched
    ensures var s := Rebuilt(boot, state, entries).0; s.tasks == boot.tasks || s.tasks == RestoreFrom(boot, state, state.order).tasks
  {
    FinishedTasks(RestoreFrom(boot, state, state.order), state, entries);
  }

  /** Whatever a cold start leaves, none of its envelopes carries a token. */
  lemma StartTokenless(start: Start, log: seq<Event>)
    requires start.ring.keys != []
    ensures forall t :: t in Started(start, log).0.tasks ==> Started(start, log).0.tasks[t].envelope.token.None?
  {
    Replay.ReplayedOrdered(log);
    var r, boot := Replay.Replayed(log), Boot(start.topology, Renew(start.ring, start.now, start.created, start.draw), log);
    RestoredTokenless(boot, r, r.order);
    RebuiltTasks(boot, r, |log|);
  }

  lemma EnvelopesStay(env: Env, s: Control, op: Op, t: string)
    requires Kept(env, s) && Legal(s, op) && !op.StartOp? && t in s.tasks
    ensures t in Step(env, s, op).tasks && Step(env, s, op).tasks[t].envelope == s.tasks[t].envelope
  {
    if !s.readOnly { Ingress.StepAdds(env, s, op); }
  }

  /** A running state with a token was not left by a cold start, and was running before. */
  lemma StartsAlone(env: Env, s: Control, op: Op, t: string)
    requires Kept(env, s) && Legal(s, op)
    requires var s' := Step(env, s, op); !s'.readOnly && t in s'.tasks && s'.tasks[t].envelope.token.Some?
    ensures !op.StartOp? && !s.readOnly && s.ring.keys != []
  {
    if op.StartOp? { StartTokenless(op.start, s.log); }
  }

  /** Its envelope was sent by this operation, or was there before. */
  lemma LastSends(env: Env, s: Control, op: Op, t: string)
    requires Kept(env, s) && Legal(s, op)
    requires var s' := Step(env, s, op); !s'.readOnly && t in s'.tasks && s'.tasks[t].envelope.token.Some?
    ensures !s.readOnly
    ensures if t in s.tasks then s.tasks[t].envelope == Step(env, s, op).tasks[t].envelope
            else SentBy(s, op, Step(env, s, op).tasks[t].envelope)
  {
    StartsAlone(env, s, op, t);
    if t in s.tasks { EnvelopesStay(env, s, op, t); } else { StepSends(env, s, op, t); }
  }

  predicate Carrying(s: Control, t: string) {
    !s.readOnly && t in s.tasks && s.tasks[t].envelope.token.Some?
  }

  /** The envelope of t in s' was in s, or `sent` says that the operation sent it. */
  ghost predicate FromLast(s: Control, op: Op, s': Control, t: string, sent: (Control, Op, Envelope) -> bool)
    requires t in s'.tasks
  {
    !s.readOnly && if t in s.tasks then s.tasks[t].envelope == s'.tasks[t].envelope else sent(s, op, s'.tasks[t].envelope)
  }

  /** Along any sequence of states, the first state with the envelope shows who sent it. */
  lemma {:induction false} SentInTrace(states: seq<Control>, ops: seq<Op>, n: nat, t: string, sent: (Control, Op, Envelope) -> bool)
    returns (k: nat)
    requires n < |states| && n <= |ops| && Carrying(states[n], t) && !Carrying(states[0], t)
    requires forall i :: 0 <= i < n && Carrying(states[i + 1], t) ==> FromLast(states[i], ops[i], states[i + 1], t, sent)
    ensures k < n && sent(states[k], ops[k], states[n].tasks[t].envelope)
  {
    assert FromLast(states[n - 1], ops[n - 1], states[n - 1 + 1], t, sent);
    if t in states[n - 1].tasks {
      k := SentInTrace(states, ops, n - 1, t, sent);
    } else {
      k := n - 1;
    }
  }

  lemma {:induction false} KeptAt(env: Env, s: Control, ops: seq<Op>, k: nat)
    requires Kept(env, s) && LegalRun(env, s, ops) && k <= |ops|
    ensures Kept(env, StateAt(env, s, ops, k))
    decreases k
  {
    if k > 0 {
      StepKept(env, s, ops[0]);
      KeptAt(env, Step(env, s, ops[0]), ops[1..], k - 1);
    }
  }

  lemma {:induction false} StateAtNext(env: Env, s: Control, ops: seq<Op>, k: nat)
    requires LegalRun(env, s, ops) && k < |ops|
    ensures Legal(StateAt(env, s, ops, k), ops[k]) && StateAt(env, s, ops, k + 1) == Step(env, StateAt(env, s, ops, k), ops[k])
    decreases k
  {
    if k > 0 { StateAtNext(env, Step(env, s, ops[0]), ops[1..], k - 1); }
  }

  lemma SentAt(env: Env, s: Control, ops: seq<Op>, i: nat, t: string)
    requires Kept(env, s) && LegalRun(env, s, ops) && i < |ops| && Carrying(StateAt(env, s, ops, i + 1), t)
    ensures FromLast(StateAt(env, s, ops, i), ops[i], StateAt(env, s, ops, i + 1), t, (s1, op, e) => SentBy(s1, op, e))
  {
    KeptAt(env, s, ops, i);
    StateAtNext(env, s, ops, i);
    LastSends(env, StateAt(env, s, ops, i), ops[i], t);
  }

  /** In every running state of every run, each envelope that carries a token was sent, as it
      stands, by an earlier operation of the run for a node that this operation names. */
  lemma RunSends(env: Env, s: Control, ops: seq<Op>, n: nat, t: string) returns (k: nat)
    requires FromNothing(env, s, ops) && n <= |ops| && Carrying(StateAt(env, s, ops, n), t)
    ensures k < n && SentBy(StateAt(env, s, ops, k), ops[k], StateAt(env, s, ops, n).tasks[t].envelope)
  {
    InitialKept(env, s);
    var sent := (s1, op, e) => SentBy(s1, op, e);
    var states := seq(n + 1, i requires 0 <= i <= n => StateAt(env, s, ops, i));
    forall i | 0 <= i < n && Carrying(states[i + 1], t) ensures FromLast(states[i], ops[i], states[i + 1], t, sent) {
      SentAt(env, s, ops, i, t);
    }
    k := SentInTrace(states, ops, n, t, sent);
  }
}
