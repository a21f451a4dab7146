/** The small moves that every dispatcher operation is made of, each of them logging at
    most one event. What holds of every move holds of every operation. */
module Moves {
  import opened Basics
  import opened JsonText
  import opened Schema
  import opened Tokens
  import opened Control
  import Gates

  datatype Move =
    | Turn(draw: Fresh, now: int, revoke: bool)
    | Enqueued(e: Envelope, lead: string, now: int)
    | Accepted(e: Envelope, toAgent: string)
    | Reported(update: StatusUpdate)
    | Judged(taskId: string, result: Gates.GateResult)
    | Abandoned(taskId: string, reason: string)
    | Released(key: (string, string))
    | Linked(taskId: string, next: string)
    | Paused(team: string, reason: string)
    | Resumed(team: string)

  /** An envelope that dispatch may enqueue: new to the memory, unowned node, well formed,
      for a team that is declared and not paused, and signed with the newest key. */
  ghost predicate Fits(env: Env, s: Control, e: Envelope) {
    && e.taskId !in s.tasks && IsTaskId(e.taskId) && e.Key() !in s.byNode && e.parentAuditSeq == |s.log|
    && e.deliverables != [] && AllValid(e.deliverables) && e.tierMax in TIERS && IsId(e.team)
    && e.team !in s.paused && s.topology.Declares(e.team) && Gates.Known(e.exitGate)
    && s.ring.keys != [] && SignedBy(env, s.ring.keys[0], e)
  }

  /** The token binds this envelope under this key. */
  ghost predicate SignedBy(env: Env, key: Key, e: Envelope) {
    && e.token.Some?
    && e.token.value.taskId == e.taskId && e.token.value.team == e.team && e.token.value.tierMax == e.tierMax
    && e.token.value.scopeDigest == env.digest(EnvelopeScope(e)) && e.token.value.keyId == key.keyId
  }

  ghost predicate Enabled(env: Env, s: Control, m: Move) {
    && !s.readOnly
    && match m
       case Turn(_, _, _) => true
       case Enqueued(e, lead, _) => Fits(env, s, e) && lead == LeadOf(s, e.team)
       case Accepted(e, to) => exists now :: IngressRefusal(env, s, e, to, now).None?
       case Reported(u) => u.taskId in s.tasks && u.state != "gate_pass"
       case Judged(t, result) => t in s.tasks && result.Valid() && result.gate == s.tasks[t].envelope.exitGate
       case Abandoned(t, _) => ReclaimRefusal(s, t).None?
       case Released(key) => key in s.byNode
       case Linked(t, next) => t in s.tasks && next in s.tasks
       case Paused(team, _) => s.topology.Declares(team)
       case Resumed(team) => s.topology.Declares(team)
  }

  ghost function After(env: Env, s: Control, m: Move): Control
    requires Enabled(env, s, m)
  {
    match m
    case Turn(draw, now, revoke) => s.(ring := RotateNow(s.ring, draw, now, revoke))
    case Enqueued(e, lead, now) => Enqueue(env, s, e, lead, now)
    case Accepted(e, to) => Accept(s, e, to)
    case Reported(u) => Report(env, s, u)
    case Judged(t, result) => Judge(env, s, t, result)
    case Abandoned(t, reason) => Abandon(s, t, reason)
    case Released(key) => s.(byNode := s.byNode - {key})
    case Linked(t, next) => Supersede(s, t, next)
    case Paused(team, reason) => PauseTeam(s, team, reason).0
    case Resumed(team) => ResumeTeam(s, team).0
  }

  /** The states passed through by a list of moves. */
  ghost predicate Path(env: Env, s: Control, ms: seq<Move>, s': Control)
    decreases |ms|
  {
    if ms == [] then s == s' else Enabled(env, s, ms[0]) && Path(env, After(env, s, ms[0]), ms[1..], s')
  }

  ghost predicate Reaches(env: Env, s: Control, s': Control) {
    exists ms :: Path(env, s, ms, s')
  }

  /** Not a step that only a reclaim takes. */
  predicate Quiet(m: Move) {
    !m.Abandoned? && !m.Released? && !m.Linked?
  }

  /** A step of handing out work. */
  predicate Assigning(m: Move) {
    m.Turn? || m.Enqueued?
  }

  /** Not a gate result. */
  predicate Ungated(m: Move) {
    !m.Judged?
  }

  ghost predicate PathBy(env: Env, s: Control, ms: seq<Move>, s': Control, ok: Move -> bool) {
    Path(env, s, ms, s') && forall i :: 0 <= i < |ms| ==> ok(ms[i])
  }

  /** A path of moves of one kind. */
  ghost predicate ReachesBy(env: Env, s: Control, s': Control, ok: Move -> bool) {
    exists ms :: PathBy(env, s, ms, s', ok)
  }

  lemma ByReaches(env: Env, s: Control, s': Control, ok: Move -> bool)
    requires ReachesBy(env, s, s', ok)
    ensures Reaches(env, s, s')
  {
    var ms :| PathBy(env, s, ms, s', ok);
  }

  lemma Widen(env: Env, s: Control, s': Control, ok: Move -> bool, wider: Move -> bool)
    requires ReachesBy(env, s, s', ok) && forall m :: ok(m) ==> wider(m)
    ensures ReachesBy(env, s, s', wider)
  {
    var ms :| PathBy(env, s, ms, s', ok);
    assert PathBy(env, s, ms, s', wider);
  }

  lemma ReachesSelf(env: Env, s: Control, ok: Move -> bool)
    ensures ReachesBy(env, s, s, ok)
  {
    assert PathBy(env, s, [], s, ok);
  }

  lemma {:induction false} PathJoins(env: Env, a: Control, ms: seq<Move>, b: Control, ns: seq<Move>, c: Control)
    requires Path(env, a, ms, b) && Path(env, b, ns, c)
    ensures Path(env, a, ms + ns, c)
    decreases |ms|
  {
    if ms == [] {
      assert ms + ns == ns;
    } else {
      PathJoins(env, After(env, a, ms[0]), ms[1..], b, ns, c);
      assert (ms + ns)[0] == ms[0] && (ms + ns)[1..] == ms[1..] + ns;
    }
  }

  lemma ReachesJoins(env: Env, a: Control, b: Control, c: Control, ok: Move -> bool)
    requires ReachesBy(env, a, b, ok) && ReachesBy(env, b, c, ok)
    ensures ReachesBy(env, a, c, ok)
  {
    var ms :| PathBy(env, a, ms, b, ok);
    var ns :| PathBy(env, b, ns, c, ok);
    PathJoins(env, a, ms, b, ns, c);
    assert PathBy(env, a, ms + ns, c, ok);
  }

  lemma OneMove(env: Env, s: Control, m: Move, ok: Move -> bool)
    requires Enabled(env, s, m) && ok(m)
    ensures ReachesBy(env, s, After(env, s, m), ok)
  {
    assert Path(env, s, [m], After(env, s, m)) by {
      assert Path(env, After(env, s, m), [m][1..], After(env, s, m));
    }
    assert PathBy(env, s, [m], After(env, s, m), ok);
  }

  // ---------- dispatch ----------

  /** What dispatch does: nothing, or possibly turn the key ring, or that and enqueue one
      fitting envelope, which it returns. */
  ghost predicate Outcome(env: Env, s: Control, s': Control, r: Result<Envelope>, key: (string, string)) {
    OnlyRing(s, s') || (r.Ok? && !s.readOnly && r.value.Key() == key && Places(env, s, s', r.value))
  }

  ghost predicate OnlyRing(s: Control, s': Control) {
    s' == s || exists draw, now :: s' == s.(ring := RotateNow(s.ring, draw, now, false))
  }

  ghost predicate Places(env: Env, s: Control, s': Control, e: Envelope) {
    exists s1, lead, now :: OnlyRing(s, s1) && Fits(env, s1, e) && lead == LeadOf(s1, e.team) && s' == Enqueue(env, s1, e, lead, now)
  }

  lemma RenewIsTurn(s: Control, now: int, created: int, draw: Fresh)
    requires s.ring.keys != []
    ensures OnlyRing(s, s.(ring := Renew(s.ring, now, created, draw)))
  {
    assert Rotate(s.ring, draw, created) == RotateNow(s.ring, draw, created, false);
    assert s.(ring := s.ring) == s;
  }

  lemma SignBinds(env: Env, s: Control, node: WorkNode, graphId: string, payload: map<string, Json>, taskId: string,
                  ttl: int, draw: Draw)
    requires s.ring.keys != []
    ensures var (ring, t) := Sign(env.hmac, s.ring, SignRequest(env, node, graphId, payload, taskId, ttl), draw.clock, draw.key);
      && OnlyRing(s, s.(ring := ring))
      && (t.Ok? ==> SignedBy(env, ring.keys[0], NewEnvelope(s, node, graphId, payload, taskId, t.value)))
  {
    RenewIsTurn(s, draw.clock.now, draw.clock.created, draw.key);
    assert s.(ring := s.ring) == s;
  }

  lemma PlaceOutcome(env: Env, s: Control, node: WorkNode, graphId: string, payload: map<string, Json>, taskId: string,
                     ttl: int, draw: Draw)
    requires s.ring.keys != [] && !s.readOnly && node.Valid() && Refusal(s, node).None?
    requires taskId !in s.tasks && (graphId, node.id) !in s.byNode
    ensures var (s', r) := Place(env, s, node, graphId, payload, taskId, ttl, draw);
      Outcome(env, s, s', r, (graphId, node.id)) && (r.Ok? ==> Places(env, s, s', r.value))
  {
    var full := Resolved(payload, node);
    SignBinds(env, s, node, graphId, full, taskId, ttl, draw);
    var (ring, t) := Sign(env.hmac, s.ring, SignRequest(env, node, graphId, full, taskId, ttl), draw.clock, draw.key);
    var s1 := s.(ring := ring);
    if t.Ok? && IsTaskId(taskId) {
      var e := NewEnvelope(s, node, graphId, full, taskId, t.value);
      NewFits(env, s, s1, node, graphId, full, taskId, t.value);
      assert Place(env, s, node, graphId, payload, taskId, ttl, draw) == (Enqueue(env, s1, e, LeadOf(s1, e.team), draw.now), Ok(e));
      FitsPlaces(env, s, s1, e, draw.now);
    }
  }

  lemma FitsPlaces(env: Env, s: Control, s1: Control, e: Envelope, now: int)
    requires OnlyRing(s, s1) && Fits(env, s1, e)
    ensures Places(env, s, Enqueue(env, s1, e, LeadOf(s1, e.team), now), e)
  {}

  lemma NewFits(env: Env, s: Control, s1: Control, node: WorkNode, graphId: string, payload: map<string, Json>,
                taskId: string, token: HandoffToken)
    requires node.Valid() && Refusal(s, node).None? && s1 == s.(ring := s1.ring) && s1.ring.keys != []
    requires taskId !in s.tasks && (graphId, node.id) !in s.byNode && IsTaskId(taskId)
    requires SignedBy(env, s1.ring.keys[0], NewEnvelope(s, node, graphId, payload, taskId, token))
    ensures Fits(env, s1, NewEnvelope(s, node, graphId, payload, taskId, token))
  {}

  /** The shape of every dispatch. */
  lemma DispatchOutcome(env: Env, s: Control, node: WorkNode, graphId: string, payload: map<string, Json>,
                        taskId: Option<string>, ttl: int, draw: Draw)
    requires s.ring.keys != [] && draw.taskId !in s.tasks
    ensures var (s', r) := Dispatch(env, s, node, graphId, payload, taskId, ttl, draw);
      Outcome(env, s, s', r, (graphId, node.id))
  {
    if !s.readOnly && node.Valid() && Existing(s, graphId, node.id, taskId).None? && Refusal(s, node).None? {
      PlaceOutcome(env, s, node, graphId, payload, if taskId.Some? && taskId.value != "" then taskId.value else draw.taskId, ttl, draw);
    }
  }

  lemma OnlyRingReaches(env: Env, s: Control, s': Control)
    requires OnlyRing(s, s') && !s.readOnly
    ensures ReachesBy(env, s, s', Assigning)
  {
    ReachesSelf(env, s, Assigning);
    if s' != s {
      var draw, now :| s' == s.(ring := RotateNow(s.ring, draw, now, false));
      OneMove(env, s, Turn(draw, now, false), Assigning);
    }
  }

  lemma PlacesReaches(env: Env, s: Control, s': Control, e: Envelope)
    requires Places(env, s, s', e) && !s.readOnly
    ensures ReachesBy(env, s, s', Assigning)
  {
    var s1, lead, now :| OnlyRing(s, s1) && Fits(env, s1, e) && lead == LeadOf(s1, e.team) && s' == Enqueue(env, s1, e, lead, now);
    OnlyRingReaches(env, s, s1);
    OneMove(env, s1, Enqueued(e, lead, now), Assigning);
    ReachesJoins(env, s, s1, s', Assigning);
  }
}
