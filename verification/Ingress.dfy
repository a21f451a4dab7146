/** Signed ingress: across any number of restarts with fresh key rings, the log accepts a
    task at most once, and only as it was dispatched. */
module Ingress {
  import opened Basics
  import opened JsonText
  import opened Schema
  import opened SchemaCodec
  import opened Tokens
  import opened Events
  import opened Replay
  import opened Control
  import opened Moves
  import opened Projection
  import opened Restart
  import opened Recovery
  import opened Runs
  import opened History
  import Lex

  function KeyIds(ring: Ring): set<string> {
    set i | 0 <= i < |ring.keys| :: ring.keys[i].keyId
  }

  /** An envelope as dispatch signs it. */
  ghost predicate WellSigned(env: Env, e: Envelope) {
    && e.token.Some? && IsTaskId(e.taskId) && IsId(e.team) && e.tierMax in TIERS
    && e.token.value.taskId == e.taskId && e.token.value.team == e.team && e.token.value.tierMax == e.tierMax
    && e.token.value.scopeDigest == env.digest(EnvelopeScope(e))
  }

  // ---------- what a presented token proves ----------

  /** The MAC is not forged: a tag that verifies under a key was made for some issued token
      with that key id and message. */
  ghost predicate Unforged(env: Env, ring: Ring, issued: set<Envelope>, shown: HandoffToken) {
    Lookup(ring.keys, shown.keyId).Some? && env.hmac(Lookup(ring.keys, shown.keyId).value.material, Message(shown)) == shown.mac ==>
      exists x | x in issued :: x.token.Some? && x.token.value.keyId == shown.keyId && Message(x.token.value) == Message(shown)
  }

  /** Two different scopes with one digest. */
  predicate Collision(env: Env, a: Json, b: Json) {
    a != b && env.digest(a) == env.digest(b)
  }

  predicate SameScope(e: Envelope, x: Envelope) {
    && e.graphId == x.graphId && e.nodeId == x.nodeId && e.exitGate == x.exitGate && e.payload == x.payload
    && e.deliverables == x.deliverables
  }

  lemma ArtifactJsonInjective(a: ArtifactRef, b: ArtifactRef)
    requires ArtifactJson(a) == ArtifactJson(b)
    ensures a == b
  {
    var f, g := ArtifactJson(a).fields, ArtifactJson(b).fields;
    ArtifactKeysDiffer();
    assert f["kind"] == Str(a.kind) && g["kind"] == Str(b.kind) && f["path"] == Str(a.path) && g["path"] == Str(b.path);
    assert "sha256" in f <==> a.sha256.Some?;
    assert "sha256" in g <==> b.sha256.Some?;
  }

  lemma {:induction false} ArtifactsJsonInjective(a: seq<ArtifactRef>, b: seq<ArtifactRef>)
    requires WriteAll(a, ArtifactJson) == WriteAll(b, ArtifactJson)
    ensures a == b
  {
    if a != [] && b != [] {
      var x, y := WriteAll(a, ArtifactJson), WriteAll(b, ArtifactJson);
      assert x[0] == ArtifactJson(a[0]) && y[0] == ArtifactJson(b[0]);
      ArtifactJsonInjective(a[0], b[0]);
      assert x[1..] == WriteAll(a[1..], ArtifactJson) && y[1..] == WriteAll(b[1..], ArtifactJson);
      ArtifactsJsonInjective(a[1..], b[1..]);
    }
  }

  lemma ScopeKeysDiffer()
    ensures "graph_id" != "node_id" && "graph_id" != "exit_gate" && "node_id" != "exit_gate"
    ensures "payload" != "graph_id" && "payload" != "node_id" && "payload" != "exit_gate"
    ensures "deliverables" != "payload" && "deliverables" != "graph_id" && "deliverables" != "node_id" && "deliverables" != "exit_gate"
  {
    assert "graph_id"[0] != "node_id"[0] && "graph_id"[0] != "exit_gate"[0] && "node_id"[0] != "exit_gate"[0];
    assert "payload"[0] != "node_id"[0];
  }

  lemma ScopeEntries(e: Envelope)
    ensures EnvelopeScope(e).Obj?
    ensures var f := EnvelopeScope(e).fields;
      && "graph_id" in f && "node_id" in f && "exit_gate" in f && "payload" in f && "deliverables" in f
      && f["graph_id"] == Str(e.graphId) && f["node_id"] == Str(e.nodeId) && f["exit_gate"] == Str(e.exitGate)
      && f["payload"] == Obj(e.payload) && f["deliverables"] == Arr(WriteAll(e.deliverables, ArtifactJson))
  {
    ScopeKeysDiffer();
  }

  /** What a token commits to determines graph, node, gate, payload and deliverables. */
  lemma ScopeInjective(e: Envelope, x: Envelope)
    requires EnvelopeScope(e) == EnvelopeScope(x)
    ensures SameScope(e, x)
  {
    ScopeEntries(e);
    ScopeEntries(x);
    ArtifactsJsonInjective(e.deliverables, x.deliverables);
  }

  /** The accepted envelope is the issued one, with a tier no more authoritative, or its
      scope collides with that of the issued one. */
  ghost predicate Matches(env: Env, e: Envelope, x: Envelope) {
    && x.taskId == e.taskId && x.team == e.team && e.tierMax in TIERS && Rank(e.tierMax) >= Rank(x.tierMax)
    && (SameScope(e, x) || Collision(env, EnvelopeScope(e), EnvelopeScope(x)))
  }

  /** Digests are hexadecimal, so that they hold no bar. */
  ghost predicate PlainDigests(env: Env) {
    forall j :: BarFree(env.digest(j))
  }

  lemma {:induction false} FoundIsHeld(keys: seq<Key>, keyId: string)
    requires Lookup(keys, keyId).Some?
    ensures exists i :: 0 <= i < |keys| && keys[i].keyId == keyId
  {
    if keys[0].keyId != keyId {
      FoundIsHeld(keys[1..], keyId);
      var i :| 0 <= i < |keys[1..]| && keys[1..][i].keyId == keyId;
      assert keys[i + 1].keyId == keyId;
    }
  }

  lemma SignedFieldsPlain(env: Env, x: Envelope)
    requires WellSigned(env, x) && PlainDigests(env)
    ensures var t := x.token.value; BarFree(t.taskId) && BarFree(t.team) && BarFree(t.tierMax) && BarFree(t.scopeDigest)
  {
    assert forall i :: 0 <= i < |x.taskId| ==> x.taskId[i] != '|';
    assert forall i :: 0 <= i < |x.team| ==> x.team[i] != '|';
    assert BarFree("T2") && BarFree("T3");
    assert x.tierMax == "T2" || x.tierMax == "T3" by { assert TIERS[0] == "T2" && TIERS[1] == "T3"; }
  }

  lemma TokenMatches(env: Env, e: Envelope, x: Envelope)
    requires WellSigned(env, x) && PlainDigests(env) && e.token.Some?
    requires Message(x.token.value) == Message(e.token.value)
    requires e.taskId == e.token.value.taskId && e.team == e.token.value.team
    requires env.digest(EnvelopeScope(e)) == e.token.value.scopeDigest
    requires e.tierMax in TIERS && Rank(e.tierMax) >= Rank(e.token.value.tierMax)
    ensures Matches(env, e, x)
  {
    SignedFieldsPlain(env, x);
    MessageDecodes(x.token.value, e.token.value);
    if EnvelopeScope(e) == EnvelopeScope(x) { ScopeInjective(e, x); }
  }

  lemma VerifiedFields(env: Env, s: Control, e: Envelope, to: string, now: int)
    requires IngressRefusal(env, s, e, to, now).None?
    ensures e.token.Some?
    ensures var t := e.token.value;
      && e.taskId == t.taskId && e.team == t.team && env.digest(EnvelopeScope(e)) == t.scopeDigest && now < t.expiry
      && e.tierMax in TIERS && t.tierMax in TIERS && Rank(e.tierMax) >= Rank(t.tierMax)
      && Lookup(s.ring.keys, t.keyId).Some? && env.hmac(Lookup(s.ring.keys, t.keyId).value.material, Message(t)) == t.mac
    ensures e.taskId !in s.consumed
  {}

  /** Whatever deliver accepts was issued: to the same task and team, for the same work, with
      a key that the ring still holds. */
  lemma AcceptedWasIssued(env: Env, s: Control, issued: set<Envelope>, e: Envelope, to: string, now: int) returns (x: Envelope)
    requires IngressRefusal(env, s, e, to, now).None? && PlainDigests(env)
    requires forall y :: y in issued ==> WellSigned(env, y)
    requires e.token.Some? ==> Unforged(env, s.ring, issued, e.token.value)
    ensures x in issued && Matches(env, e, x) && x.token.Some? && x.token.value.keyId in KeyIds(s.ring)
  {
    VerifiedFields(env, s, e, to, now);
    x :| x in issued && x.token.Some? && x.token.value.keyId == e.token.value.keyId && Message(x.token.value) == Message(e.token.value);
    TokenMatches(env, e, x);
    FoundIsHeld(s.ring.keys, e.token.value.keyId);
  }

  // ---------- what one operation adds ----------

  /** New records carry well-signed envelopes and old records keep theirs. */
  ghost predicate IssuesWell(env: Env, s: Control, s': Control) {
    && s.tasks.Keys <= s'.tasks.Keys
    && (forall t :: t in s.tasks ==> s'.tasks[t].envelope == s.tasks[t].envelope)
    && (forall t :: t in s'.tasks && t !in s.tasks ==> WellSigned(env, s'.tasks[t].envelope) && s'.tasks[t].envelope.taskId == t)
  }

  /** The entry is the dispatch entry of the envelope: it binds the token and the payload. */
  predicate EntryOf(env: Env, ev: Event, x: Envelope) {
    ev.Dispatched? && ev == DispatchEvent(env, x, ev.lead)
  }

  predicate LoggedAt(env: Env, log: seq<Event>, x: Envelope) {
    0 <= x.parentAuditSeq < |log| && EntryOf(env, log[x.parentAuditSeq], x)
  }

  ghost predicate LogsIssued(env: Env, s: Control, s': Control) {
    s.log <= s'.log && forall t :: t in s'.tasks && t !in s.tasks ==> LoggedAt(env, s'.log, s'.tasks[t].envelope)
  }

  lemma MoveLogsIssued(env: Env, s: Control, m: Move)
    requires Enabled(env, s, m)
    ensures LogsIssued(env, s, After(env, s, m))
  {
    MoveLogs(env, s, m);
  }

  lemma LogsIssuedJoin(env: Env, s: Control, s1: Control, s': Control)
    requires LogsIssued(env, s, s1) && LogsIssued(env, s1, s') && IssuesWell(env, s1, s')
    ensures LogsIssued(env, s, s')
  {
    forall t | t in s'.tasks && t !in s.tasks ensures LoggedAt(env, s'.log, s'.tasks[t].envelope) {
      if t in s1.tasks { assert LoggedAt(env, s1.log, s1.tasks[t].envelope); }
    }
  }

  /** Entries that accept a task are for tasks that the ledger newly consumed, each once. */
  ghost predicate AcceptsWell(s: Control, s': Control) {
    && s.log <= s'.log && s.consumed.Keys <= s'.consumed.Keys
    && (forall i :: |s.log| <= i < |s'.log| && s'.log[i].IngressAccepted? ==> s'.log[i].taskId in s'.consumed.Keys - s.consumed.Keys)
  }

  lemma EnqueueIssuesWell(env: Env, s: Control, e: Envelope, lead: string, now: int)
    requires Fits(env, s, e)
    ensures IssuesWell(env, s, Enqueue(env, s, e, lead, now))
  {}

  lemma MoveIssuesWell(env: Env, s: Control, m: Move)
    requires Enabled(env, s, m)
    ensures IssuesWell(env, s, After(env, s, m))
  {
    if m.Enqueued? { EnqueueIssuesWell(env, s, m.e, m.lead, m.now); }
  }

  lemma MoveAcceptsWell(env: Env, s: Control, m: Move)
    requires Enabled(env, s, m)
    ensures AcceptsWell(s, After(env, s, m))
  {
    MoveLogs(env, s, m);
    if m.Accepted? {
      var now :| IngressRefusal(env, s, m.e, m.toAgent, now).None?;
      VerifiedFields(env, s, m.e, m.toAgent, now);
    }
  }

  lemma {:induction false} PathIssuesWell(env: Env, s: Control, ms: seq<Move>, s': Control)
    requires Path(env, s, ms, s')
    ensures IssuesWell(env, s, s') && AcceptsWell(s, s') && LogsIssued(env, s, s')
    decreases |ms|
  {
    if ms != [] {
      var s1 := After(env, s, ms[0]);
      MoveIssuesWell(env, s, ms[0]);
      MoveLogsIssued(env, s, ms[0]);
      MoveAcceptsWell(env, s, ms[0]);
      PathIssuesWell(env, s1, ms[1..], s');
      AcceptsJoin(s, s1, s');
      LogsIssuedJoin(env, s, s1, s');
    }
  }

  lemma AcceptsJoin(s: Control, s1: Control, s': Control)
    requires AcceptsWell(s, s1) && AcceptsWell(s1, s')
    ensures AcceptsWell(s, s')
  {
    forall i | |s.log| <= i < |s'.log| && s'.log[i].IngressAccepted? ensures s'.log[i].taskId in s'.consumed.Keys - s.consumed.Keys {
      if i < |s1.log| { assert s'.log[i] == s1.log[i]; }
    }
  }

  // ---------- key ids and the ledger ----------

  lemma RotatedIds(ring: Ring, draw: Fresh, now: int, revoke: bool)
    ensures KeyIds(RotateNow(ring, draw, now, revoke)) <= KeyIds(ring) + {draw.keyId}
  {
    var keys := [Key(draw.keyId, draw.material, now)] + ring.keys;
    forall k | k in KeyIds(RotateNow(ring, draw, now, revoke)) ensures k in KeyIds(ring) + {draw.keyId} {
      var i :| 0 <= i < |RotateNow(ring, draw, now, revoke).keys| && RotateNow(ring, draw, now, revoke).keys[i].keyId == k;
      assert keys[i].keyId == k;
      assert i > 0 ==> ring.keys[i - 1].keyId == k;
    }
  }

  lemma RenewedIds(ring: Ring, now: int, created: int, draw: Fresh)
    requires ring.keys != []
    ensures KeyIds(Renew(ring, now, created, draw)) <= KeyIds(ring) + {draw.keyId}
  {
    RotatedIds(ring, draw, created, false);
  }

  /** The ring holds only ids it held or drew, and the ledger is as it was. */
  ghost predicate RingDraws(s: Control, s': Control, drawn: set<string>) {
    KeyIds(s'.ring) <= KeyIds(s.ring) + drawn && s'.consumed == s.consumed
  }

  lemma PlaceDraws(env: Env, s: Control, node: WorkNode, graphId: string, payload: map<string, Json>, t: string, ttl: int, draw: Draw)
    requires s.ring.keys != []
    ensures RingDraws(s, Place(env, s, node, graphId, payload, t, ttl, draw).0, {draw.key.keyId})
  {
    RenewedIds(s.ring, draw.clock.now, draw.clock.created, draw.key);
  }

  lemma DispatchDraws(env: Env, s: Control, node: WorkNode, graphId: string, payload: map<string, Json>,
                      wanted: Option<string>, ttl: int, draw: Draw)
    requires s.ring.keys != []
    ensures RingDraws(s, Dispatch(env, s, node, graphId, payload, wanted, ttl, draw).0, {draw.key.keyId})
  {
    if !s.readOnly && node.Valid() && Existing(s, graphId, node.id, wanted).None? && Refusal(s, node).None? {
      PlaceDraws(env, s, node, graphId, payload, if wanted.Some? && wanted.value != "" then wanted.value else draw.taskId, ttl, draw);
    }
  }

  function DrawnKeys(draws: seq<Draw>): set<string> {
    set i | 0 <= i < |draws| :: draws[i].key.keyId
  }

  lemma DrawnKeysStep(draws: seq<Draw>)
    requires draws != []
    ensures DrawnKeys(draws) == {draws[0].key.keyId} + DrawnKeys(draws[1..])
  {
    forall k | k in DrawnKeys(draws[1..]) ensures k in DrawnKeys(draws) {
      var i :| 0 <= i < |draws[1..]| && draws[1..][i].key.keyId == k;
      assert draws[i + 1].key.keyId == k;
    }
    assert forall i :: 1 <= i < |draws| ==> draws[i] == draws[1..][i - 1];
  }

  lemma {:induction false} NodesDraw(env: Env, s: Control, nodes: seq<WorkNode>, graphId: string, readyOnly: bool,
                                     ready: set<string>, draws: seq<Draw>)
    requires s.ring.keys != [] && |draws| == |nodes|
    ensures RingDraws(s, DispatchNodes(env, s, nodes, graphId, readyOnly, ready, draws).0, DrawnKeys(draws))
    decreases |nodes|
  {
    if nodes != [] {
      DrawnKeysStep(draws);
      if readyOnly && !IsReady(nodes[0], ready) {
        NodesDraw(env, s, nodes[1..], graphId, readyOnly, ready, draws[1..]);
      } else {
        var (s1, first) := Dispatch(env, s, nodes[0], graphId, map[], None, DEFAULT_TTL, draws[0]);
        DispatchDraws(env, s, nodes[0], graphId, map[], None, DEFAULT_TTL, draws[0]);
        if first.Ok? { NodesDraw(env, s1, nodes[1..], graphId, readyOnly, ready, draws[1..]); }
      }
    }
  }

  lemma ReclaimDraws(env: Env, s: Control, t: string, reason: string, graph: WorkGraph, draw: Draw)
    requires s.ring.keys != []
    ensures RingDraws(s, Reclaim(env, s, t, reason, graph, draw).0, {draw.key.keyId})
  {
    if ReclaimRefusal(s, t).None? {
      ReclaimCases(env, s, t, reason, graph, draw);
      var e := s.tasks[t].envelope;
      if graph.Node(e.nodeId).Ok? && e.Key() in s.byNode {
        DispatchDraws(env, ReclaimBase(s, t, reason), graph.Node(e.nodeId).value, e.graphId, map[], None, DEFAULT_TTL, draw);
      }
    }
  }

  /** The key ids an operation draws, or a new process brings with it. */
  function Drawn(op: Op): set<string> {
    match op
    case DispatchOp(_, _, _, _, _, draw) => {draw.key.keyId}
    case GraphOp(_, _, _, draws) => DrawnKeys(draws)
    case ReclaimOp(_, _, _, draw) => {draw.key.keyId}
    case RotateOp(key, _, _) => {key.keyId}
    case StartOp(start) => KeyIds(start.ring) + {start.draw.keyId}
    case _ => {}
  }

  lemma StepDraws(env: Env, s: Control, op: Op)
    requires Legal(s, op) && !s.readOnly && s.ring.keys != [] && !op.StartOp?
    ensures var s' := Step(env, s, op); KeyIds(s'.ring) <= KeyIds(s.ring) + Drawn(op) && (!op.DeliverOp? ==> s'.consumed == s.consumed)
  {
    match op
    case DispatchOp(node, g, payload, wanted, ttl, draw) => DispatchDraws(env, s, node, g, payload, wanted, ttl, draw);
    case GraphOp(graph, g, readyOnly, draws) => NodesDraw(env, s, graph.nodes, g, readyOnly, Satisfied(s, g), draws);
    case ReclaimOp(t, reason, graph, draw) => ReclaimDraws(env, s, t, reason, graph, draw);
    case RotateOp(key, now, revoke) => RotatedIds(s.ring, key, now, revoke);
    case _ => NothingDrawn(env, s, op);
  }

  lemma NothingDrawn(env: Env, s: Control, op: Op)
    requires Legal(s, op) && (op.DeliverOp? || op.StatusOp? || op.GateOp? || op.PauseOp? || op.ResumeOp?)
    ensures Step(env, s, op).ring == s.ring && (!op.DeliverOp? ==> Step(env, s, op).consumed == s.consumed)
  {}

  // ---------- runs ----------

  /** The envelopes that some process has issued so far. */
  ghost function IssuedNext(env: Env, s: Control, issued: set<Envelope>, op: Op): set<Envelope>
    requires Legal(s, op)
  {
    var s' := Step(env, s, op);
    if op.StartOp? then issued else issued + set t | t in s'.tasks && t !in s.tasks :: s'.tasks[t].envelope
  }

  /** New key ids were never used by an issued token, and no tag is forged. */
  ghost predicate Sealed(env: Env, s: Control, issued: set<Envelope>, op: Op) {
    && (forall x | x in issued && x.token.Some? :: x.token.value.keyId !in Drawn(op))
    && (op.DeliverOp? && op.e.token.Some? ==> Unforged(env, s.ring, issued, op.e.token.value))
  }

  predicate AcceptAt(log: seq<Event>, i: int, t: string) {
    0 <= i < |log| && log[i].IngressAccepted? && log[i].taskId == t
  }

  /** Issued envelopes are signed, logged, and one per task. */
  ghost predicate IssuedLogged(env: Env, log: seq<Event>, issued: set<Envelope>) {
    && (forall x :: x in issued ==>
          WellSigned(env, x) && LoggedAt(env, log, x)
          && x.taskId in Replayed(log).dispatched && Identity(x) == Replayed(log).dispatched[x.taskId])
    && (forall x, y :: x in issued && y in issued && x.taskId == y.taskId ==> x == y)
  }

  /** An accepted task can not be accepted again: its ledger entry or its lost key refuses. */
  ghost predicate Spent(s: Control, issued: set<Envelope>, t: string) {
    t in s.consumed || forall x :: x in issued && x.taskId == t && x.token.Some? ==> x.token.value.keyId !in KeyIds(s.ring)
  }

  /** The acceptance at i is of an envelope that was dispatched before, to the same team. */
  predicate Backs(log: seq<Event>, i: int, x: Envelope) {
    0 <= i < |log| && log[i].IngressAccepted? && x.taskId == log[i].taskId && x.team == log[i].team && 0 <= x.parentAuditSeq < i
  }

  ghost predicate AcceptedSpent(s: Control, issued: set<Envelope>) {
    forall i, t :: AcceptAt(s.log, i, t) ==> (exists x :: x in issued && Backs(s.log, i, x)) && (!s.readOnly ==> Spent(s, issued, t))
  }

  ghost predicate AcceptedOnce(log: seq<Event>) {
    forall i, j, t :: AcceptAt(log, i, t) && AcceptAt(log, j, t) ==> i == j
  }

  ghost predicate IngressKept(env: Env, s: Control, issued: set<Envelope>) {
    IssuedLogged(env, s.log, issued) && AcceptedSpent(s, issued) && AcceptedOnce(s.log)
  }

  /** The task of an issued envelope is in the memory with the envelope's identity. */
  lemma IssuedInMemory(env: Env, s: Control, issued: set<Envelope>, x: Envelope)
    requires Memory(s) && IssuedLogged(env, s.log, issued) && x in issued
    ensures x.taskId in s.tasks && Identity(s.tasks[x.taskId].envelope) == Identity(x) && WellSigned(env, x) && LoggedAt(env, s.log, x)
  {}

  lemma TaskLogged(s: Control, t: string)
    requires Memory(s) && t in s.tasks
    ensures t in Replayed(s.log).dispatched && Identity(s.tasks[t].envelope) == Replayed(s.log).dispatched[t]
  {}

  lemma StillLogged(env: Env, s: Control, issued: set<Envelope>, s': Control, x: Envelope)
    requires Memory(s) && Memory(s') && IssuesWell(env, s, s') && LogsIssued(env, s, s') && IssuedLogged(env, s.log, issued)
    requires x in issued || exists t :: t in s'.tasks && t !in s.tasks && x == s'.tasks[t].envelope
    ensures WellSigned(env, x) && LoggedAt(env, s'.log, x) && x.taskId in Replayed(s'.log).dispatched
    ensures Identity(x) == Replayed(s'.log).dispatched[x.taskId] && x.taskId in s'.tasks && (x in issued <==> x.taskId in s.tasks)
  {
    if x in issued { IssuedInMemory(env, s, issued, x); }
    TaskLogged(s', x.taskId);
  }

  lemma NewlyIssuedLogged(env: Env, s: Control, issued: set<Envelope>, s': Control, issued': set<Envelope>)
    requires Memory(s) && Memory(s') && IssuesWell(env, s, s') && LogsIssued(env, s, s') && IssuedLogged(env, s.log, issued)
    requires issued' == issued + set t | t in s'.tasks && t !in s.tasks :: s'.tasks[t].envelope
    ensures IssuedLogged(env, s'.log, issued')
  {
    forall x | x in issued'
      ensures WellSigned(env, x) && LoggedAt(env, s'.log, x) && x.taskId in Replayed(s'.log).dispatched
      ensures Identity(x) == Replayed(s'.log).dispatched[x.taskId] && (x in issued <==> x.taskId in s.tasks)
    {
      StillLogged(env, s, issued, s', x);
    }
  }

  lemma AcceptAtPrefix(log: seq<Event>, log': seq<Event>, i: int, t: string)
    requires log <= log' && AcceptAt(log', i, t) && i < |log|
    ensures AcceptAt(log, i, t)
  {}

  // ---------- steps other than deliver ----------

  /** Without a delivery nothing is accepted, and a new token is for a task that was never
      accepted. */
  lemma OtherStepSpent(env: Env, s: Control, issued: set<Envelope>, s': Control, issued': set<Envelope>, drawn: set<string>)
    requires Memory(s) && !s.readOnly && IssuedLogged(env, s.log, issued) && AcceptedSpent(s, issued) && AcceptedOnce(s.log)
    requires AcceptsWell(s, s') && IssuesWell(env, s, s') && s'.consumed == s.consumed
    requires issued' == issued + set t | t in s'.tasks && t !in s.tasks :: s'.tasks[t].envelope
    requires KeyIds(s'.ring) <= KeyIds(s.ring) + drawn
    requires forall x | x in issued && x.token.Some? :: x.token.value.keyId !in drawn
    ensures AcceptedSpent(s', issued') && AcceptedOnce(s'.log)
  {
    forall i, t | AcceptAt(s'.log, i, t)
      ensures AcceptAt(s.log, i, t) && (exists x :: x in issued' && Backs(s'.log, i, x)) && Spent(s', issued', t)
    {
      AcceptAtPrefix(s.log, s'.log, i, t);
      StillBacked(s, issued, s', issued', i, t);
      assert Spent(s, issued, t);
    }
  }

  lemma StillBacked(s: Control, issued: set<Envelope>, s': Control, issued': set<Envelope>, i: int, t: string)
    requires AcceptedSpent(s, issued) && AcceptAt(s.log, i, t) && s.log <= s'.log && issued <= issued'
    ensures exists x :: x in issued' && Backs(s'.log, i, x)
    ensures exists x :: x in issued && Backs(s.log, i, x) && x.taskId == t
  {
    var x :| x in issued && Backs(s.log, i, x);
    assert x in issued' && Backs(s'.log, i, x);
  }

  // ---------- deliver ----------

  lemma AcceptedNow(s: Control, e: Envelope, to: string, i: int, t: string)
    requires e.token.Some? && AcceptAt(Accept(s, e, to).log, i, t)
    ensures (AcceptAt(s.log, i, t) && i < |s.log|) || (i == |s.log| && t == e.taskId)
  {}

  /** What deliver accepts was not accepted before, by this process or an earlier one. */
  lemma NotAcceptedBefore(env: Env, s: Control, issued: set<Envelope>, e: Envelope, to: string, now: int, i: int)
    requires IngressKept(env, s, issued) && !s.readOnly && PlainDigests(env)
    requires IngressRefusal(env, s, e, to, now).None? && Unforged(env, s.ring, issued, e.token.value)
    ensures !AcceptAt(s.log, i, e.taskId)
  {
    VerifiedFields(env, s, e, to, now);
    var x := AcceptedWasIssued(env, s, issued, e, to, now);
    assert AcceptAt(s.log, i, e.taskId) ==> Spent(s, issued, e.taskId);
  }

  lemma DeliverStep(env: Env, s: Control, issued: set<Envelope>, e: Envelope, to: string, now: int)
    requires IngressKept(env, s, issued) && !s.readOnly && PlainDigests(env) && Restorable(Replayed(s.log), |s.log|)
    requires IngressRefusal(env, s, e, to, now).None? && Unforged(env, s.ring, issued, e.token.value)
    ensures AcceptedSpent(Accept(s, e, to), issued) && AcceptedOnce(Accept(s, e, to).log)
  {
    var s' := Accept(s, e, to);
    var x := AcceptedWasIssued(env, s, issued, e, to, now);
    forall i, t | AcceptAt(s'.log, i, t)
      ensures (exists y :: y in issued && Backs(s'.log, i, y)) && Spent(s', issued, t)
      ensures i == |s.log| <==> t == e.taskId
    {
      AcceptedNow(s, e, to, i, t);
      NotAcceptedBefore(env, s, issued, e, to, now, i);
      if i < |s.log| {
        var y :| y in issued && Backs(s.log, i, y);
        assert Backs(s'.log, i, y) && Spent(s, issued, t);
      } else {
        assert Identity(x) == Replayed(s.log).dispatched[x.taskId] && Backs(s'.log, i, x);
      }
    }
    forall i, j, t | AcceptAt(s'.log, i, t) && AcceptAt(s'.log, j, t) ensures i == j {
      AcceptedNow(s, e, to, i, t);
      AcceptedNow(s, e, to, j, t);
    }
  }

  // ---------- cold starts ----------

  lemma NeutralAccepts(log: seq<Event>, teams: seq<string>, i: int, t: string)
    requires AcceptAt(log + PauseEvents(teams), i, t) || AcceptAt(log + PauseEvents(teams) + [ColdStart(|log|)], i, t)
    ensures AcceptAt(log, i, t)
  {
    PausesAreNeutral(teams);
  }

  lemma StartAccepts(start: Start, log: seq<Event>, i: int, t: string)
    requires start.ring.keys != [] && AcceptAt(Started(start, log).0.log, i, t)
    ensures AcceptAt(log, i, t) && log[i] == Started(start, log).0.log[i]
  {
    var n := StartedState(start, log);
    var teams := Lex.Sorted(Replayed(log).paused);
    if Started(start, log).1.Err? {
      NeutralAccepts(log, teams[..n], i, t);
    } else {
      NeutralAccepts(log, teams, i, t);
    }
  }

  /** A new process has an empty ledger, and a ring that verifies nothing issued before. */
  lemma StartIngress(env: Env, start: Start, s: Control, issued: set<Envelope>)
    requires AllAdmissible(env, s.log) && start.ring.keys != [] && IngressKept(env, s, issued)
    requires forall x | x in issued && x.token.Some? :: x.token.value.keyId !in KeyIds(start.ring) + {start.draw.keyId}
    ensures IngressKept(env, Started(start, s.log).0, issued)
  {
    StartReplays(env, start, s.log);
    StartGrows(start, s.log);
    LoggedOn(env, s.log, Started(start, s.log).0.log, issued);
    StartSpent(env, start, s, issued);
  }

  lemma LoggedOn(env: Env, log: seq<Event>, log': seq<Event>, issued: set<Envelope>)
    requires IssuedLogged(env, log, issued) && log <= log' && Replayed(log') == Replayed(log)
    ensures IssuedLogged(env, log', issued)
  {}

  lemma StartSpent(env: Env, start: Start, s: Control, issued: set<Envelope>)
    requires AllAdmissible(env, s.log) && start.ring.keys != [] && AcceptedSpent(s, issued) && AcceptedOnce(s.log)
    requires forall x | x in issued && x.token.Some? :: x.token.value.keyId !in KeyIds(start.ring) + {start.draw.keyId}
    ensures AcceptedSpent(Started(start, s.log).0, issued) && AcceptedOnce(Started(start, s.log).0.log)
  {
    var s' := Started(start, s.log).0;
    if !s'.readOnly {
      StartRing(env, start, s.log);
      RenewedIds(start.ring, start.now, start.created, start.draw);
    }
    forall i, t | AcceptAt(s'.log, i, t)
      ensures AcceptAt(s.log, i, t) && exists x :: x in issued && Backs(s'.log, i, x)
    {
      StartBacks(start, s, issued, i, t);
    }
  }

  lemma StartBacks(start: Start, s: Control, issued: set<Envelope>, i: int, t: string)
    requires start.ring.keys != [] && AcceptedSpent(s, issued) && AcceptAt(Started(start, s.log).0.log, i, t)
    ensures AcceptAt(s.log, i, t) && exists x :: x in issued && Backs(Started(start, s.log).0.log, i, x)
  {
    StartAccepts(start, s.log, i, t);
    StartGrows(start, s.log);
    var x :| x in issued && Backs(s.log, i, x);
    assert Backs(Started(start, s.log).0.log, i, x);
  }

  lemma StartRing(env: Env, start: Start, log: seq<Event>)
    requires AllAdmissible(env, log) && start.ring.keys != [] && !Started(start, log).0.readOnly
    ensures Started(start, log).0.ring == Renew(start.ring, start.now, start.created, start.draw)
  {
    var _ := StartedState(start, log);
    StartedRecords(env, start, log);
  }

  // ---------- whole runs ----------

  lemma StepIngress(env: Env, s: Control, issued: set<Envelope>, op: Op)
    requires Kept(env, s) && Legal(s, op) && PlainDigests(env) && Sealed(env, s, issued, op) && IngressKept(env, s, issued)
    ensures IngressKept(env, Step(env, s, op), IssuedNext(env, s, issued, op))
  {
    if op.StartOp? {
      StartIngress(env, op.start, s, issued);
    } else if s.readOnly {
      assert IssuedNext(env, s, issued, op) == issued;
    } else {
      RunningStep(env, s, issued, op);
    }
  }

  lemma StepAdds(env: Env, s: Control, op: Op)
    requires Legal(s, op) && !s.readOnly && s.ring.keys != [] && !op.StartOp?
    ensures IssuesWell(env, s, Step(env, s, op)) && AcceptsWell(s, Step(env, s, op)) && LogsIssued(env, s, Step(env, s, op))
  {
    StepReaches(env, s, op);
    var ms :| Path(env, s, ms, Step(env, s, op));
    PathIssuesWell(env, s, ms, Step(env, s, op));
  }

  lemma DeliverIssues(env: Env, s: Control, issued: set<Envelope>, op: Op)
    requires Kept(env, s) && Legal(s, op) && op.DeliverOp? && !s.readOnly
    requires IngressRefusal(env, s, op.e, op.toAgent, op.now).None? && op.e.token.Some?
    ensures Step(env, s, op) == Accept(s, op.e, op.toAgent) && IssuedNext(env, s, issued, op) == issued
  {}

  lemma RunningStep(env: Env, s: Control, issued: set<Envelope>, op: Op)
    requires Sound(env, s) && Legal(s, op) && PlainDigests(env) && Sealed(env, s, issued, op) && IngressKept(env, s, issued)
    requires !op.StartOp?
    ensures IngressKept(env, Step(env, s, op), IssuedNext(env, s, issued, op))
  {
    var s', issued' := Step(env, s, op), IssuedNext(env, s, issued, op);
    StepKept(env, s, op);
    StepAdds(env, s, op);
    NewlyIssuedLogged(env, s, issued, s', issued');
    StepDraws(env, s, op);
    if op.DeliverOp? && IngressRefusal(env, s, op.e, op.toAgent, op.now).None? {
      VerifiedFields(env, s, op.e, op.toAgent, op.now);
      DeliverIssues(env, s, issued, op);
      AdmissibleRestorable(env, s.log);
      DeliverStep(env, s, issued, op.e, op.toAgent, op.now);
    } else {
      OtherStepSpent(env, s, issued, s', issued', Drawn(op));
    }
  }

  /** Every operation of the run draws fresh keys and sees only unforged tags. */
  ghost predicate SealedRun(env: Env, s: Control, issued: set<Envelope>, ops: seq<Op>)
    requires LegalRun(env, s, ops)
    decreases |ops|
  {
    ops == [] || (Sealed(env, s, issued, ops[0])
                  && SealedRun(env, Step(env, s, ops[0]), IssuedNext(env, s, issued, ops[0]), ops[1..]))
  }

  /** The envelopes issued before operation k of a run. */
  ghost function IssuedAt(env: Env, s: Control, issued: set<Envelope>, ops: seq<Op>, k: nat): set<Envelope>
    requires LegalRun(env, s, ops) && k <= |ops|
    decreases k
  {
    if k == 0 then issued
    else IssuedAt(env, Step(env, s, ops[0]), IssuedNext(env, s, issued, ops[0]), ops[1..], k - 1)
  }

  /** Whatever holds at first, and survives every sealed operation, holds all along. */
  lemma {:induction false} SealedInvariant(env: Env, s: Control, issued: set<Envelope>, ops: seq<Op>, k: nat,
                                           inv: (Control, set<Envelope>) -> bool)
    requires LegalRun(env, s, ops) && SealedRun(env, s, issued, ops) && k <= |ops| && inv(s, issued)
    requires forall s1, issued1, op | inv(s1, issued1) && Legal(s1, op) && Sealed(env, s1, issued1, op) ::
      inv(Step(env, s1, op), IssuedNext(env, s1, issued1, op))
    ensures inv(StateAt(env, s, ops, k), IssuedAt(env, s, issued, ops, k))
    decreases k
  {
    if k > 0 {
      SealedInvariant(env, Step(env, s, ops[0]), IssuedNext(env, s, issued, ops[0]), ops[1..], k - 1, inv);
    }
  }

  lemma IngressAt(env: Env, s: Control, issued: set<Envelope>, ops: seq<Op>, k: nat)
    requires Kept(env, s) && LegalRun(env, s, ops) && PlainDigests(env) && SealedRun(env, s, issued, ops)
    requires IngressKept(env, s, issued) && k <= |ops|
    ensures IngressKept(env, StateAt(env, s, ops, k), IssuedAt(env, s, issued, ops, k))
  {
    var inv := (s1, issued1) => Kept(env, s1) && IngressKept(env, s1, issued1);
    forall s1, issued1, op | inv(s1, issued1) && Legal(s1, op) && Sealed(env, s1, issued1, op)
      ensures inv(Step(env, s1, op), IssuedNext(env, s1, issued1, op))
    {
      StepKept(env, s1, op);
      StepIngress(env, s1, issued1, op);
    }
    SealedInvariant(env, s, issued, ops, k, inv);
  }

  lemma {:induction false} SealedAt(env: Env, s: Control, issued: set<Envelope>, ops: seq<Op>, k: nat)
    requires LegalRun(env, s, ops) && SealedRun(env, s, issued, ops) && k < |ops|
    ensures Sealed(env, StateAt(env, s, ops, k), IssuedAt(env, s, issued, ops, k), ops[k])
    decreases k
  {
    if k > 0 {
      SealedAt(env, Step(env, s, ops[0]), IssuedNext(env, s, issued, ops[0]), ops[1..], k - 1);
    }
  }

  /** At most once, ever: from an empty log, over any operations and any number of restarts
      with fresh key rings, the log accepts each task at most once, and only after a dispatch
      entry of the same task to the same team. */
  lemma IngressAtMostOnce(env: Env, s: Control, ops: seq<Op>)
    requires FromNothing(env, s, ops) && PlainDigests(env) && SealedRun(env, s, {}, ops)
    ensures var log := Run(env, s, ops).log;
      && AcceptedOnce(log)
      && forall i, t :: AcceptAt(log, i, t) ==> exists d :: 0 <= d < i && DispatchAt(log, d, t) && log[d].team == log[i].team
  {
    IngressAt(env, s, {}, ops, |ops|);
    StateAtEnd(env, s, ops);
    var issued, log := IssuedAt(env, s, {}, ops, |ops|), Run(env, s, ops).log;
    forall i, t | AcceptAt(log, i, t) ensures exists d :: 0 <= d < i && DispatchAt(log, d, t) && log[d].team == log[i].team {
      var x :| x in issued && Backs(log, i, x);
      assert Identity(x) == Replayed(log).dispatched[t];
      DispatchedIsLogged(log, t);
      assert DispatchAt(log, x.parentAuditSeq, t);
    }
  }

  /** The dispatch entry says where the envelope belongs and carries the hash of its payload. */
  predicate Describes(env: Env, ev: Event, e: Envelope) {
    && ev.Dispatched? && ev.graphId == e.graphId && ev.nodeId == e.nodeId && ev.exitGate == e.exitGate
    && ev.deliverables == Some(e.deliverables) && ev.payloadHash == Stamp(env.digest(Obj(e.payload)))
  }

  /** The accepted envelope against the one issued for its task: the dispatch entry of that one
      names the task and team, its tier is no less authoritative, and it describes the accepted
      envelope too, unless these two scopes collide under the digest. */
  ghost predicate AcceptedFor(env: Env, log: seq<Event>, e: Envelope, x: Envelope) {
    && LoggedAt(env, log, x) && DispatchAt(log, x.parentAuditSeq, e.taskId) && x.taskId == e.taskId
    && x.team == e.team && log[x.parentAuditSeq].team == e.team
    && e.tierMax in TIERS && Rank(e.tierMax) >= Rank(x.tierMax) && log[x.parentAuditSeq].tierMax == x.tierMax
    && ((SameScope(e, x) && Describes(env, log[x.parentAuditSeq], e)) || Collision(env, EnvelopeScope(e), EnvelopeScope(x)))
  }

  lemma AcceptedAsDispatched(env: Env, s: Control, issued: set<Envelope>, e: Envelope, to: string, now: int) returns (x: Envelope)
    requires IngressKept(env, s, issued) && PlainDigests(env)
    requires IngressRefusal(env, s, e, to, now).None? && (e.token.Some? ==> Unforged(env, s.ring, issued, e.token.value))
    ensures x in issued && AcceptedFor(env, s.log, e, x)
  {
    x := AcceptedWasIssued(env, s, issued, e, to, now);
    assert LoggedAt(env, s.log, x) && DispatchAt(s.log, x.parentAuditSeq, e.taskId);
  }

  /** Every delivery that is accepted anywhere in a run from nothing, restarts included, is of
      the envelope issued before for that task, as the log dispatched it, and is logged as the
      next entry. */
  lemma AcceptedInRun(env: Env, s: Control, ops: seq<Op>, k: nat) returns (x: Envelope)
    requires FromNothing(env, s, ops) && PlainDigests(env) && SealedRun(env, s, {}, ops) && k < |ops| && ops[k].DeliverOp?
    requires !StateAt(env, s, ops, k).readOnly
    requires Deliver(env, StateAt(env, s, ops, k), ops[k].e, ops[k].toAgent, ops[k].now).1.Ok?
    ensures var before := StateAt(env, s, ops, k); var e := ops[k].e;
      && x in IssuedAt(env, s, {}, ops, k) && AcceptedFor(env, before.log, e, x)
      && (forall y :: y in IssuedAt(env, s, {}, ops, k) && y.taskId == e.taskId ==> y == x)
      && Deliver(env, before, e, ops[k].toAgent, ops[k].now).0.log == before.log + [IngressAccepted(e.taskId, e.team, ops[k].toAgent)]
  {
    IngressAt(env, s, {}, ops, k);
    SealedAt(env, s, {}, ops, k);
    x := AcceptedAsDispatched(env, StateAt(env, s, ops, k), IssuedAt(env, s, {}, ops, k), ops[k].e, ops[k].toAgent, ops[k].now);
  }
}
