/** What each operation answers and leaves, case by case and in whatever state it is called
    (dispatch.py). Together with Envelopes.DispatchAnswers this is every refusal, in the order
    of the checks, and every acceptance. */
module Answers {
  import opened Basics
  import opened JsonText
  import opened Schema
  import opened SchemaCodec
  import opened Tokens
  import opened Events
  import opened Control
  import opened Runs
  import Envelopes
  import Gates
  import Parsers
  import Projection
  import Topology
  import Validators

  // ---------- status reports ----------

  /** The state a report puts a task in. */
  ghost predicate StateFor(reported: string, state: TaskState) {
    if reported == "gate_fail" then state.Failed?
    else if reported == "abandoned" then state.Abandoned?
    else state == Reported(reported)
  }

  /** One record and one entry are new, as the report says; the rest is as it was. */
  ghost predicate Taken(env: Env, s: Control, s': Control, u: StatusUpdate) {
    && u.taskId in s.tasks && u.taskId in s'.tasks
    && var was, x := s.tasks[u.taskId], s'.tasks[u.taskId];
       && StateFor(u.state, x.state)
       && x == Record(was.envelope, x.state, None, Some(u.nextUpdateBy), was.gateResult, was.supersededBy, u.pctComplete)
       && s' == s.(tasks := s.tasks[u.taskId := x],
                   log := s.log + [Status(u.taskId, was.envelope.team, u.state, "sha256:" + env.digest(StatusJson(u)))])
  }

  /** ingest_status, whatever it is handed and whatever state the task is in. */
  lemma ReportAnswers(env: Env, s: Control, raw: Json)
    ensures var (s', r) := IngestStatus(env, s, raw);
      match ParseStatus(raw)
      case Err(_) => (s', r) == (s, Err(SchemaError))
      case Ok(u) =>
        if u.taskId !in s.tasks || u.state == "gate_pass" then (s', r) == (s, Err(DispatchRejected))
        else r == Ok(u) && Taken(env, s, s', u)
  {
    if ParseStatus(raw).Err? { Parsers.StatusParsedIff(raw, NoReport()); }
  }

  function NoReport(): StatusUpdate {
    StatusUpdate("", "", 0, None, [], None)
  }

  /** Every valid report on a known task is accepted, in any state of the task, except a claim
      of its own pass. */
  lemma ReportAccepted(env: Env, s: Control, u: StatusUpdate)
    requires u.Valid() && u.taskId in s.tasks && u.state != "gate_pass"
    ensures var (s', r) := IngestStatus(env, s, StatusJson(u)); r == Ok(u) && Taken(env, s, s', u)
  {
    StatusRoundTrip(u);
    ReportAnswers(env, s, StatusJson(u));
  }

  lemma StatusStepIs(env: Env, s: Control, raw: Json)
    requires !s.readOnly && s.ring.keys != []
    ensures Step(env, s, StatusOp(raw)) == IngestStatus(env, s, raw).0
  {}

  lemma ReportStep(env: Env, s: Control, u: StatusUpdate)
    requires !s.readOnly && s.ring.keys != [] && u.Valid()
    ensures var next := Step(env, s, StatusOp(StatusJson(u)));
      if u.taskId in s.tasks && u.state != "gate_pass" then Taken(env, s, next, u) else next == s
  {
    StatusStepIs(env, s, StatusJson(u));
    ReportGoes(env, s, u);
  }

  lemma ReportGoes(env: Env, s: Control, u: StatusUpdate)
    requires u.Valid()
    ensures var next := IngestStatus(env, s, StatusJson(u)).0;
      if u.taskId in s.tasks && u.state != "gate_pass" then Taken(env, s, next, u) else next == s
  {
    StatusRoundTrip(u);
    ReportAnswers(env, s, StatusJson(u));
  }

  /** So in every running state of every run. */
  lemma ReportInRun(env: Env, s: Control, ops: seq<Op>, u: StatusUpdate)
    requires FromNothing(env, s, ops) && !Run(env, s, ops).readOnly && u.Valid()
    ensures var at := Run(env, s, ops); var next := Step(env, at, StatusOp(StatusJson(u)));
      if u.taskId in at.tasks && u.state != "gate_pass" then Taken(env, at, next, u) else next == at
  {
    FromNothingKept(env, s, ops);
    ReportStep(env, Run(env, s, ops), u);
  }

  // ---------- gate results ----------

  /** The record holds the result and its verdict, and the log has the hash of its evidence. */
  ghost predicate Verdict(env: Env, s: Control, s': Control, t: string, result: Gates.GateResult) {
    && t in s.tasks && t in s'.tasks
    && var was, x := s.tasks[t], s'.tasks[t];
       && (if result.passed then x.state.Passed? else x.state.Failed?)
       && x == Record(was.envelope, x.state, was.ackDeadline, was.nextUpdateBy, Some(result), was.supersededBy, was.pctComplete)
       && exists evidence :: Parsers.Texts(evidence, result.evidence)
            && s' == s.(tasks := s.tasks[t := x],
                        log := s.log + [GateOutcome(t, was.envelope.team, result.gate, result.passed, "sha256:" + env.digest(evidence))])
  }

  lemma JudgeIsVerdict(env: Env, s: Control, t: string, result: Gates.GateResult)
    requires t in s.tasks
    ensures Verdict(env, s, Judge(env, s, t, result), t, result)
  {
    Parsers.TextsWritten(result.evidence);
    assert Parsers.Texts(Arr(WriteAll(result.evidence, WriteStr)), result.evidence);
  }

  /** accept_gate, whatever it is handed and whatever state the task is in. */
  lemma VerdictAnswers(env: Env, s: Control, t: string, raw: Json, now: int)
    ensures var (s', r) := AcceptGate(env, s, t, raw, now);
      if t !in s.tasks then (s', r) == (s, Err(DispatchRejected))
      else match ParseResult(raw, now)
        case Err(_) => (s', r) == (s, Err(SchemaError))
        case Ok(result) =>
          if result.gate != s.tasks[t].envelope.exitGate then (s', r) == (s, Err(DispatchRejected))
          else r == Ok(result) && Verdict(env, s, s', t, result)
  {
    match ParseResult(raw, now)
    case Err(_) => Parsers.ResultParsedIff(raw, Gates.GateResult("", false, [], "", 0), now);
    case Ok(result) => if t in s.tasks { JudgeIsVerdict(env, s, t, result); }
  }

  /** Every valid result for a known task's own gate is accepted, in any state of the task. */
  lemma VerdictAccepted(env: Env, s: Control, t: string, result: Gates.GateResult, now: int)
    requires result.Valid() && t in s.tasks && result.gate == s.tasks[t].envelope.exitGate
    ensures var (s', r) := AcceptGate(env, s, t, ResultJson(result), now); r == Ok(result) && Verdict(env, s, s', t, result)
  {
    ResultRoundTrip(result, now);
    VerdictAnswers(env, s, t, ResultJson(result), now);
  }

  // ---------- reclaim ----------

  /** The task is abandoned and the log says why; the rest is as it was. */
  ghost predicate GivenUp(s: Control, s': Control, t: string, reason: string) {
    && t in s.tasks
    && s' == s.(tasks := s.tasks[t := s.tasks[t].(state := TaskState.Abandoned)],
                log := s.log + [Reclaimed(t, s.tasks[t].envelope.team, reason)])
  }

  predicate FirstNamed(nodes: seq<WorkNode>, i: int, id: string) {
    0 <= i < |nodes| && nodes[i].id == id && forall j :: 0 <= j < i ==> nodes[j].id != id
  }

  lemma {:induction false} FirstFound(nodes: seq<WorkNode>, id: string) returns (i: int)
    requires FindNode(nodes, id).Ok?
    ensures FirstNamed(nodes, i, id) && FindNode(nodes, id) == Ok(nodes[i])
  {
    if nodes[0].id == id {
      i := 0;
    } else {
      var j := FirstFound(nodes[1..], id);
      i := j + 1;
      assert forall k :: 1 <= k < |nodes| ==> nodes[k] == nodes[1..][k - 1];
    }
  }

  /** What a reclaim does after giving up: it stops without the node in the graph, or without an
      owner; otherwise the first node of that name is dispatched again without its owner, and
      the task is linked to the new one. */
  ghost predicate Retried(env: Env, s: Control, s': Control, r: Result<Envelope>, t: string, graph: WorkGraph, draw: Draw)
    requires s.ring.keys != [] && t in s.tasks
  {
    var e := s.tasks[t].envelope;
    if e.nodeId !in graph.Ids() then (s', r) == (s, Err(SchemaError))
    else if (e.graphId, e.nodeId) !in s.byNode then (s', r) == (s, Err(Crash))
    else
      exists i :: FirstNamed(graph.nodes, i, e.nodeId)
        && var again := Dispatch(env, s.(byNode := s.byNode - {(e.graphId, e.nodeId)}), graph.nodes[i], e.graphId, map[], None, 1800, draw);
           r == again.1 && (r.Err? ==> s' == again.0)
           && (r.Ok? && t in again.0.tasks ==>
                 s' == again.0.(tasks := again.0.tasks[t := again.0.tasks[t].(supersededBy := Some(r.value.taskId))]))
  }

  /** reclaim: the refusals, then giving up, then trying again. */
  lemma ReclaimAnswers(env: Env, s: Control, t: string, reason: string, graph: WorkGraph, draw: Draw)
    requires s.ring.keys != []
    ensures var (s', r) := Reclaim(env, s, t, reason, graph, draw);
      if s.readOnly then (s', r) == (s, Err(ReadOnlyMode))
      else if t !in s.tasks || s.tasks[t].state.Passed? || s.tasks[t].supersededBy.Some? then (s', r) == (s, Err(DispatchRejected))
      else exists s1 :: GivenUp(s, s1, t, reason) && Retried(env, s1, s', r, t, graph, draw)
  {
    if !s.readOnly && t in s.tasks && !s.tasks[t].state.Passed? && s.tasks[t].supersededBy.None? {
      var s1 := Abandon(s, t, reason);
      assert GivenUp(s, s1, t, reason);
      RetakenIs(env, s1, t, graph, draw);
    }
  }

  lemma RetakenIs(env: Env, s: Control, t: string, graph: WorkGraph, draw: Draw)
    requires s.ring.keys != [] && t in s.tasks
    ensures var (s', r) := Retaken(env, s, t, graph, draw); Retried(env, s, s', r, t, graph, draw)
  {
    var e := s.tasks[t].envelope;
    if e.nodeId in graph.Ids() && e.Key() in s.byNode {
      var i := FirstFound(graph.nodes, e.nodeId);
      assert graph.Node(e.nodeId) == Ok(graph.nodes[i]);
    }
  }

  // ---------- ingress ----------

  /** The key of this id in the ring. */
  predicate KeyAt(keys: seq<Key>, i: int, id: string) {
    0 <= i < |keys| && keys[i].keyId == id && forall j {:trigger keys[j]} :: 0 <= j < i ==> keys[j].keyId != id
  }

  lemma {:induction false} LookupMisses(keys: seq<Key>, id: string)
    requires Lookup(keys, id).None?
    ensures forall i :: 0 <= i < |keys| ==> keys[i].keyId != id
  {
    if keys != [] {
      LookupMisses(keys[1..], id);
      assert forall k :: 1 <= k < |keys| ==> keys[k] == keys[1..][k - 1];
    }
  }

  lemma {:induction false} LookupFinds(keys: seq<Key>, id: string) returns (i: int)
    requires Lookup(keys, id).Some?
    ensures KeyAt(keys, i, id) && Lookup(keys, id).value == keys[i]
  {
    if keys[0].keyId == id {
      i := 0;
    } else {
      var j := LookupFinds(keys[1..], id);
      i := j + 1;
      assert forall k :: 1 <= k < |keys| ==> keys[k] == keys[1..][k - 1];
    }
  }

  /** The text that is signed. */
  function SignedText(t: HandoffToken): string {
    t.taskId + "|" + t.team + "|" + t.tierMax + "|" + t.scopeDigest + "|" + DumpInt(t.expiry)
  }

  lemma MessageIs(t: HandoffToken)
    ensures Message(t) == SignedText(t)
  {
    var f := MessageFields(t);
    var b, c, d, e := f[1..], f[2..], f[3..], f[4..];
    assert b[1..] == c && c[1..] == d && d[1..] == e;
    assert JoinBars(e) == DumpInt(t.expiry);
    assert JoinBars(d) == t.scopeDigest + "|" + JoinBars(e);
    assert JoinBars(c) == t.tierMax + "|" + JoinBars(d);
    assert JoinBars(b) == t.team + "|" + JoinBars(c);
    assert JoinBars(f) == t.taskId + "|" + JoinBars(b);
    Regrouped(t.taskId, t.team, t.tierMax, t.scopeDigest, DumpInt(t.expiry));
  }

  lemma Regrouped(a: string, b: string, c: string, d: string, e: string)
    ensures a + "|" + (b + "|" + (c + "|" + (d + "|" + e))) == a + "|" + b + "|" + c + "|" + d + "|" + e
  {}

  /** The tag was made with a held key for what the token says. */
  ghost predicate TagHolds(env: Env, keys: seq<Key>, t: HandoffToken) {
    exists i :: KeyAt(keys, i, t.keyId) && env.hmac(keys[i].material, SignedText(t)) == t.mac
  }

  /** A T2 token covers both tiers, a T3 token its own. */
  predicate Covers(granted: string, asked: string) {
    (granted == "T2" && (asked == "T2" || asked == "T3")) || (granted == "T3" && asked == "T3")
  }

  lemma VerifyAnswers(env: Env, ring: Ring, t: HandoffToken, digest: string, team: string, tier: string, now: int)
    ensures Verify(env.hmac, ring, t, digest, team, tier, now) ==
      if !TagHolds(env, ring.keys, t) || now >= t.expiry || digest != t.scopeDigest || team != t.team || (tier != "T2" && tier != "T3")
      then Err(TokenError)
      else if t.tierMax != "T2" && t.tierMax != "T3" then Err(Crash)
      else if !Covers(t.tierMax, tier) then Err(TokenError)
      else Ok(())
  {
    MessageIs(t);
    Validators.TierIff(tier);
    Validators.TierIff(t.tierMax);
    TagIs(env, ring.keys, t);
  }

  lemma OneKeyAt(keys: seq<Key>, i: int, j: int, id: string)
    requires KeyAt(keys, i, id) && KeyAt(keys, j, id)
    ensures i == j
  {}

  lemma TagIs(env: Env, keys: seq<Key>, t: HandoffToken)
    ensures TagHolds(env, keys, t) <==> Lookup(keys, t.keyId).Some? && env.hmac(Lookup(keys, t.keyId).value.material, SignedText(t)) == t.mac
  {
    if Lookup(keys, t.keyId).None? {
      LookupMisses(keys, t.keyId);
    } else {
      var i := LookupFinds(keys, t.keyId);
      if j :| KeyAt(keys, j, t.keyId) && env.hmac(keys[j].material, SignedText(t)) == t.mac { OneKeyAt(keys, i, j, t.keyId); }
      assert KeyAt(keys, i, t.keyId) && keys[i] == Lookup(keys, t.keyId).value;
    }
  }

  /** deliver: every refusal in the order of the checks, and what an acceptance leaves. */
  lemma DeliverAnswers(env: Env, s: Control, e: Envelope, to: string, now: int)
    ensures var (s', r) := Deliver(env, s, e, to, now);
      if !s.topology.Declares(e.team) then (s', r) == (s, Err(TopologyError))
      else if e.token.None? || to != s.topology.TeamNamed(e.team).value.lead || e.taskId != e.token.value.taskId
        then (s', r) == (s, Err(AuthorityError))
      else
        var t := e.token.value;
        if !TagHolds(env, s.ring.keys, t) || now >= t.expiry || env.digest(EnvelopeScope(e)) != t.scopeDigest || e.team != t.team
           || (e.tierMax != "T2" && e.tierMax != "T3")
        then (s', r) == (s, Err(TokenError))
        else if t.tierMax != "T2" && t.tierMax != "T3" then (s', r) == (s, Err(Crash))
        else if !Covers(t.tierMax, e.tierMax) then (s', r) == (s, Err(TokenError))
        else if e.taskId in s.consumed then (s', r) == (s, Err(ReplayError))
        else r == Ok(()) && s' == s.(consumed := s.consumed[e.taskId := t.mac], log := s.log + [IngressAccepted(e.taskId, e.team, to)])
  {
    if e.token.Some? {
      VerifyAnswers(env, s.ring, e.token.value, env.digest(EnvelopeScope(e)), e.team, e.tierMax, now);
    }
  }

  /** sign: the two refusals, and the token with its tag. */
  lemma SignAnswers(hmac: Hmac, ring: Ring, q: Request, clock: Clock, draw: Fresh)
    requires ring.keys != []
    ensures var (ring', r) := Sign(hmac, ring, q, clock, draw);
      if (q.tierMax != "T2" && q.tierMax != "T3") || q.ttl <= 0 then (ring', r) == (ring, Err(TokenError))
      else
        && ring'.rotation == ring.rotation && ring'.keys != []
        && (clock.now - ring.keys[0].createdAt < ring.rotation ==> ring' == ring)
        && (clock.now - ring.keys[0].createdAt >= ring.rotation ==>
              ring'.keys == [Key(draw.keyId, draw.material, clock.created), ring.keys[0]])
        && r.Ok? && var t := r.value;
           && t.taskId == q.taskId && t.team == q.team && t.tierMax == q.tierMax && t.scopeDigest == q.digest
           && t.expiry == clock.signed + q.ttl && t.keyId == ring'.keys[0].keyId
           && t.mac == hmac(ring'.keys[0].material, SignedText(t))
  {
    Validators.TierIff(q.tierMax);
    var (ring', r) := Sign(hmac, ring, q, clock, draw);
    if r.Ok? {
      MessageIs(r.value);
      assert MessageFields(r.value) == MessageFields(r.value.(mac := ""));
    }
  }

  // ---------- pauses ----------

  /** pause_team and resume_team refuse an undeclared team, and otherwise change that team's
      pause alone and log it. */
  lemma PauseAnswers(s: Control, team: string, reason: string)
    ensures !s.topology.Declares(team) ==>
      PauseTeam(s, team, reason) == (s, Err(TopologyError)) && ResumeTeam(s, team) == (s, Err(TopologyError))
    ensures s.topology.Declares(team) ==>
      var paused, resumed := PauseTeam(s, team, reason), ResumeTeam(s, team);
      && paused.1.Ok? && resumed.1.Ok?
      && (forall x :: x in paused.0.paused <==> x == team || x in s.paused)
      && (forall x :: x in resumed.0.paused <==> x != team && x in s.paused)
      && paused.0 == s.(paused := paused.0.paused, log := s.log + [TeamPaused(team, reason)])
      && resumed.0 == s.(paused := resumed.0.paused, log := s.log + [TeamResumed(team)])
  {}

  /** While a team is paused nothing new is dispatched to it, and after a resume it is again. */
  lemma PauseFreezes(env: Env, s: Control, team: string, reason: string, node: WorkNode, graphId: string,
                     given: map<string, Json>, ttl: int, draw: Draw)
    requires s.ring.keys != [] && !s.readOnly && s.topology.Declares(team) && node.Valid() && node.team == team
    requires Gates.Known(node.exitGate) && s.topology.TeamForGate(node.exitGate).Some? && (graphId, node.id) !in s.byNode
    ensures var paused := PauseTeam(s, team, reason).0;
      && Dispatch(env, paused, node, graphId, given, None, ttl, draw) == (paused, Err(DispatchRejected))
      && (ttl > 0 && IsTaskId(draw.taskId) ==> Dispatch(env, ResumeTeam(paused, team).0, node, graphId, given, None, ttl, draw).1.Ok?)
  {
    var paused := PauseTeam(s, team, reason).0;
    Envelopes.DispatchAnswers(env, paused, node, graphId, given, None, ttl, draw);
    Envelopes.DispatchAnswers(env, ResumeTeam(paused, team).0, node, graphId, given, None, ttl, draw);
  }

  /** dispatch_graph refuses an invalid graph before anything else, and otherwise goes through
      its nodes with those whose gate passed in some task of the graph counted as done. */
  lemma GraphAnswers(env: Env, s: Control, graph: WorkGraph, graphId: string, readyOnly: bool, draws: seq<Draw>)
    requires s.ring.keys != [] && |draws| == |graph.nodes| && FreshDraws(s, draws) && Projection.NodesNamed(s)
    ensures var (s', r) := DispatchGraph(env, s, graph, graphId, readyOnly, draws);
      if !graph.Valid() then (s', r) == (s, Err(SchemaError))
      else exists done :: Done(s, graphId, done) && (s', r) == DispatchNodes(env, s, graph.nodes, graphId, readyOnly, done, draws)
                          && Envelopes.LoopAnswers(env, s, graph.nodes, graphId, readyOnly, done, draws)
  {
    if graph.Valid() {
      assert Done(s, graphId, Satisfied(s, graphId));
      Envelopes.NodesAnswer(env, s, graph.nodes, graphId, readyOnly, Satisfied(s, graphId), draws);
    }
  }

  ghost predicate Done(s: Control, graphId: string, done: set<string>) {
    forall id :: id in done <==>
      exists t :: t in s.tasks && s.tasks[t].state.Passed? && s.tasks[t].envelope.graphId == graphId && s.tasks[t].envelope.nodeId == id
  }

  // ---------- runs ----------

  /** A run takes each operation as the dispatcher does it. */
  lemma StepIs(env: Env, s: Control, op: Op)
    requires Legal(s, op) && !s.readOnly && s.ring.keys != []
    ensures op.StatusOp? ==> Step(env, s, op) == IngestStatus(env, s, op.raw).0
    ensures op.GateOp? ==> Step(env, s, op) == AcceptGate(env, s, op.taskId, op.raw, op.now).0
    ensures op.DeliverOp? ==> Step(env, s, op) == Deliver(env, s, op.e, op.toAgent, op.now).0
    ensures op.DispatchOp? ==> Step(env, s, op) == Dispatch(env, s, op.node, op.graphId, op.payload, op.wanted, op.ttl, op.draw).0
    ensures op.GraphOp? ==> Step(env, s, op) == DispatchGraph(env, s, op.graph, op.graphId, op.readyOnly, op.draws).0
    ensures op.ReclaimOp? ==> Step(env, s, op) == Reclaim(env, s, op.taskId, op.reason, op.graph, op.draw).0
    ensures op.PauseOp? ==> Step(env, s, op) == PauseTeam(s, op.team, op.reason).0
    ensures op.ResumeOp? ==> Step(env, s, op) == ResumeTeam(s, op.team).0
    ensures op.RotateOp? ==> Step(env, s, op) == s.(ring := RotateNow(s.ring, op.key, op.now, op.revoke))
  {}

  // ---------- teams and keys ----------

  /** A team is looked up to the first one of that name in the manifest. */
  lemma {:induction false} TeamFound(teams: seq<Topology.Team>, name: string) returns (i: int)
    requires Topology.FindTeam(teams, name).Some?
    ensures 0 <= i < |teams| && teams[i] == Topology.FindTeam(teams, name).value && teams[i].name == name
    ensures forall j :: 0 <= j < i ==> teams[j].name != name
  {
    if teams[0].name == name {
      i := 0;
    } else {
      var k := TeamFound(teams[1..], name);
      i := k + 1;
      assert forall j :: 1 <= j < |teams| ==> teams[j] == teams[1..][j - 1];
    }
  }

  /** A forced rotation puts the new key first and keeps at most one other, the newest before
      it, unless it revokes. */
  lemma RotationAnswers(ring: Ring, draw: Fresh, now: int, revoke: bool)
    requires ring.keys != []
    ensures var newest := Key(draw.keyId, draw.material, now);
      RotateNow(ring, draw, now, revoke) == ring.(keys := if revoke then [newest] else [newest, ring.keys[0]])
  {}

  /** A plain rotation drops no token signed just before it. */
  lemma PlainRotationKeeps(env: Env, ring: Ring, draw: Fresh, created: int, t: HandoffToken, digest: string, team: string,
                           tier: string, now: int)
    requires ring.keys != [] && t.keyId == ring.keys[0].keyId && draw.keyId != t.keyId
    ensures Verify(env.hmac, RotateNow(ring, draw, created, false), t, digest, team, tier, now)
      == Verify(env.hmac, ring, t, digest, team, tier, now)
  {
    var keys := RotateNow(ring, draw, created, false).keys;
    RotationAnswers(ring, draw, created, false);
    assert keys[1..][0] == ring.keys[0];
    assert Lookup(keys, t.keyId) == Lookup(keys[1..], t.keyId);
  }

  // ---------- projections ----------

  /** The state of the record that owns a node, if it has one. */
  function OwnerState(s: Control, graphId: string, nodeId: string): Option<TaskState> {
    if (graphId, nodeId) in s.byNode && s.byNode[(graphId, nodeId)] in s.tasks
    then Some(s.tasks[s.byNode[(graphId, nodeId)]].state) else None
  }

  /** may_ship: every node's owner has passed. */
  lemma ShipAnswers(s: Control, graph: WorkGraph, graphId: string)
    ensures MayShip(s, graph, graphId) <==> forall n :: n in graph.nodes ==> OwnerState(s, graphId, n.id) == Some(Passed)
  {
    assert forall i :: 0 <= i < |graph.nodes| ==> graph.nodes[i] in graph.nodes;
  }

  /** The nodes' ids that answer to this, in their order. */
  function IdsWhere(nodes: seq<WorkNode>, which: WorkNode -> bool): seq<string> {
    if nodes == [] then [] else (if which(nodes[0]) then [nodes[0].id] else []) + IdsWhere(nodes[1..], which)
  }

  lemma {:induction false} IdsWhereSnoc(nodes: seq<WorkNode>, last: WorkNode, which: WorkNode -> bool)
    ensures IdsWhere(nodes + [last], which) == IdsWhere(nodes, which) + if which(last) then [last.id] else []
  {
    if nodes == [] {
      assert [last][1..] == [];
    } else {
      IdsWhereSnoc(nodes[1..], last, which);
      assert (nodes + [last])[1..] == nodes[1..] + [last];
    }
  }

  /** The two lists of assert_shippable: the nodes without an owner, and those whose owner has
      not passed, each in the order of the graph. */
  lemma {:induction false} ListsAnswer(s: Control, graphId: string, nodes: seq<WorkNode>)
    ensures NeverDispatched(s, graphId, nodes) == IdsWhere(nodes, (n: WorkNode) => OwnerState(s, graphId, n.id).None?)
    ensures UngatedNodes(s, graphId, nodes)
      == IdsWhere(nodes, (n: WorkNode) => OwnerState(s, graphId, n.id).Some? && OwnerState(s, graphId, n.id) != Some(Passed))
  {
    if nodes != [] {
      var n := |nodes| - 1;
      ListsAnswer(s, graphId, nodes[..n]);
      assert nodes == nodes[..n] + [nodes[n]];
      IdsWhereSnoc(nodes[..n], nodes[n], (n: WorkNode) => OwnerState(s, graphId, n.id).None?);
      IdsWhereSnoc(nodes[..n], nodes[n], (n: WorkNode) => OwnerState(s, graphId, n.id).Some? && OwnerState(s, graphId, n.id) != Some(Passed));
    }
  }

  /** Work that still occupies its team: neither passed, abandoned nor superseded. */
  predicate Pending(r: Record) {
    r.state != Passed && r.state != TaskState.Abandoned && r.supersededBy == None
  }

  /** stuck: pending, and past the acknowledgement or the next promised report. */
  lemma StuckIs(r: Record, now: int)
    ensures Stuck(r, now) <==> Pending(r) && exists due :: (r.ackDeadline == Some(due) || r.nextUpdateBy == Some(due)) && due < now
  {
    if r.ackDeadline.Some? { assert r.ackDeadline == Some(r.ackDeadline.value); }
    if r.nextUpdateBy.Some? { assert r.nextUpdateBy == Some(r.nextUpdateBy.value); }
  }

  /** queue_depth: a count for each declared team of its pending tasks, unless some pending
      task is of no declared team. */
  lemma DepthAnswers(s: Control)
    ensures QueueDepth(s).Err? <==> exists t :: t in s.tasks && Pending(s.tasks[t]) && !s.topology.Declares(s.tasks[t].envelope.team)
    ensures QueueDepth(s).Err? ==> QueueDepth(s) == Err(Crash)
    ensures QueueDepth(s).Ok? ==> forall team :: team in QueueDepth(s).value <==> s.topology.Declares(team)
    ensures QueueDepth(s).Ok? ==> forall team, those :: team in QueueDepth(s).value && PendingOf(s, team, those) ==>
              QueueDepth(s).value[team] == |those|
  {
    forall team ensures s.topology.Declares(team) <==> team in s.topology.Names() { Topology.DeclaresIff(s.topology, team); }
    forall team, those | PendingOf(s, team, those) ensures those == OpenOf(s, team) {}
  }

  ghost predicate PendingOf(s: Control, team: string, those: set<string>) {
    forall t :: t in those <==> t in s.tasks && Pending(s.tasks[t]) && s.tasks[t].envelope.team == team
  }

  lemma CountersStand(s: Control)
    requires forall t :: t in s.tasks && Open(s.tasks[t]) ==> s.topology.Declares(s.tasks[t].envelope.team)
    ensures QueueDepth(s) == Ok(map team | team in s.topology.Names() :: |OpenOf(s, team)|)
  {}

  lemma CountersStood(s: Control)
    requires QueueDepth(s).Ok?
    ensures QueueDepth(s).value == map team | team in s.topology.Names() :: |OpenOf(s, team)|
  {}

  /** Only this team's counter differs. */
  lemma CountersMove(s: Control, s': Control, team: string)
    requires s'.topology == s.topology && s.topology.Declares(team) && QueueDepth(s).Ok?
    requires forall t :: t in s'.tasks && Open(s'.tasks[t]) ==> s.topology.Declares(s'.tasks[t].envelope.team)
    requires forall other :: other != team ==> OpenOf(s', other) == OpenOf(s, other)
    ensures team in QueueDepth(s).value && QueueDepth(s).value[team] == |OpenOf(s, team)|
    ensures QueueDepth(s') == Ok(QueueDepth(s).value[team := |OpenOf(s', team)|])
  {
    Topology.DeclaresIff(s.topology, team);
    CountersStand(s');
    CountersStood(s);
    assert QueueDepth(s').value == QueueDepth(s).value[team := |OpenOf(s', team)|];
  }

  lemma OneOpened(s: Control, s': Control, t: string, x: Record)
    requires t !in s.tasks && s'.tasks == s.tasks[t := x] && Open(x)
    ensures |OpenOf(s', x.envelope.team)| == |OpenOf(s, x.envelope.team)| + 1
    ensures forall other :: other != x.envelope.team ==> OpenOf(s', other) == OpenOf(s, other)
  {
    assert OpenOf(s', x.envelope.team) == OpenOf(s, x.envelope.team) + {t};
  }

  lemma OneClosed(s: Control, s': Control, t: string, x: Record)
    requires t in s.tasks && Open(s.tasks[t]) && s'.tasks == s.tasks[t := x] && !Open(x) && x.envelope == s.tasks[t].envelope
    ensures |OpenOf(s', x.envelope.team)| == |OpenOf(s, x.envelope.team)| - 1
    ensures forall other :: other != x.envelope.team ==> OpenOf(s', other) == OpenOf(s, other)
  {
    assert OpenOf(s, x.envelope.team) == OpenOf(s', x.envelope.team) + {t};
  }

  /** A dispatch adds one to its team's depth and leaves the other teams' as they were. */
  lemma DispatchDeepens(env: Env, s: Control, s': Control, t: string, node: WorkNode, graphId: string, given: map<string, Json>,
                        ttl: int, draw: Draw)
    requires Envelopes.Issues(env, s, s', t, node, graphId, given, ttl, draw) && t !in s.tasks && QueueDepth(s).Ok?
    ensures node.team in QueueDepth(s).value
    ensures QueueDepth(s') == Ok(QueueDepth(s).value[node.team := QueueDepth(s).value[node.team] + 1])
  {
    IssuedOpen(env, s, s', t, node, graphId, given, ttl, draw);
    OneOpened(s, s', t, s'.tasks[t]);
    CountersMove(s, s', node.team);
  }

  lemma IssuedOpen(env: Env, s: Control, s': Control, t: string, node: WorkNode, graphId: string, given: map<string, Json>,
                   ttl: int, draw: Draw)
    requires Envelopes.Issues(env, s, s', t, node, graphId, given, ttl, draw)
    ensures t in s'.tasks && Open(s'.tasks[t]) && s'.tasks[t].envelope.team == node.team && s'.tasks == s.tasks[t := s'.tasks[t]]
    ensures s'.topology == s.topology && s.topology.Declares(node.team)
  {}

  /** A passing verdict on a pending task takes one off its team's depth. */
  lemma PassLightens(env: Env, s: Control, s': Control, t: string, result: Gates.GateResult)
    requires Verdict(env, s, s', t, result) && result.passed && Pending(s.tasks[t]) && QueueDepth(s).Ok?
    ensures var team := s.tasks[t].envelope.team;
      && team in QueueDepth(s).value && QueueDepth(s).value[team] >= 1
      && QueueDepth(s') == Ok(QueueDepth(s).value[team := QueueDepth(s).value[team] - 1])
  {
    VerdictCloses(env, s, s', t, result);
    OneClosed(s, s', t, s'.tasks[t]);
    CountersMove(s, s', s.tasks[t].envelope.team);
  }

  lemma VerdictCloses(env: Env, s: Control, s': Control, t: string, result: Gates.GateResult)
    requires Verdict(env, s, s', t, result) && result.passed
    ensures t in s'.tasks && !Open(s'.tasks[t]) && s'.tasks[t].envelope == s.tasks[t].envelope
    ensures s'.tasks == s.tasks[t := s'.tasks[t]] && s'.topology == s.topology
  {}
}
