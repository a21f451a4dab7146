/** An envelope that dispatch returned can be delivered until its token expires, whatever the
    process does meanwhile. */
module Lifetime {
  import opened Basics
  import opened JsonText
  import opened Schema
  import opened Tokens
  import opened KeyRotation
  import opened Control
  import opened Moves
  import opened Projection
  import opened Recovery
  import opened Runs
  import opened Ingress

  // ---------- the ring under operations ----------

  /** The draws of an operation, in the order it makes them. */
  function DrawsOf(op: Op): seq<Draw> {
    match op
    case DispatchOp(_, _, _, _, _, draw) => [draw]
    case GraphOp(_, _, _, draws) => draws
    case ReclaimOp(_, _, _, draw) => [draw]
    case _ => []
  }

  /** Clock readings never go backwards. */
  predicate InClockOrder(draws: seq<Draw>, start: int) {
    draws == []
    || (start <= draws[0].clock.now <= draws[0].clock.created <= draws[0].clock.signed && InClockOrder(draws[1..], draws[0].clock.signed))
  }

  function ClockEnd(draws: seq<Draw>, start: int): int {
    if draws == [] then start else ClockEnd(draws[1..], draws[0].clock.signed)
  }

  /** Every draw brings a key id that the ring and the draws before it do not have. */
  predicate NewKeys(ids: set<string>, draws: seq<Draw>)
    decreases |draws|
  {
    draws == [] || (draws[0].key.keyId !in ids && NewKeys(ids + {draws[0].key.keyId}, draws[1..]))
  }

  lemma {:induction false} FewerIds(ids: set<string>, more: set<string>, draws: seq<Draw>)
    requires ids <= more && NewKeys(more, draws)
    ensures NewKeys(ids, draws)
    decreases |draws|
  {
    if draws != [] { FewerIds(ids + {draws[0].key.keyId}, more + {draws[0].key.keyId}, draws[1..]); }
  }

  lemma {:induction false} ClockMovesOn(draws: seq<Draw>, start: int)
    requires InClockOrder(draws, start)
    ensures start <= ClockEnd(draws, start)
    decreases |draws|
  {
    if draws != [] { ClockMovesOn(draws[1..], draws[0].clock.signed); }
  }

  /** What the lemmas below follow: the signing key, when it signed, and when the token
      expires, within the key's deadline. */
  datatype Signed = Signed(key: Key, at: int, expiry: int)

  predicate Follows(ring: Ring, k: Signed, now: int) {
    && ring.rotation > 0 && k.expiry <= Deadline(k.key, ring.rotation, k.at) && k.at <= now
    && Tracks(ring, k.key, k.expiry, now)
  }

  lemma RingFollows(ring: Ring, ring': Ring, k: Signed, start: int, draw: Draw)
    requires Follows(ring, k, start) && InClockOrder([draw], start) && draw.key.keyId !in KeyIds(ring)
    requires ring' == ring || ring' == Renew(ring, draw.clock.now, draw.clock.created, draw.key)
    ensures Follows(ring', k, draw.clock.signed)
  {
    if ring' != ring {
      forall i | 0 <= i < |ring.keys| ensures ring.keys[i].keyId != draw.key.keyId {
        assert ring.keys[i].keyId in KeyIds(ring);
      }
      RenewTracks(ring, k.key, k.at, k.expiry, start, draw.clock.now, draw.clock.created, draw.key);
    }
  }

  lemma DispatchRing(env: Env, s: Control, node: WorkNode, graphId: string, payload: map<string, Json>,
                     wanted: Option<string>, ttl: int, draw: Draw)
    requires s.ring.keys != []
    ensures var s' := Dispatch(env, s, node, graphId, payload, wanted, ttl, draw).0;
      s'.ring == s.ring || s'.ring == Renew(s.ring, draw.clock.now, draw.clock.created, draw.key)
  {}

  lemma DispatchFollows(env: Env, s: Control, node: WorkNode, graphId: string, payload: map<string, Json>,
                        wanted: Option<string>, ttl: int, draw: Draw, k: Signed, start: int)
    requires s.ring.keys != [] && Follows(s.ring, k, start) && InClockOrder([draw], start) && NewKeys(KeyIds(s.ring), [draw])
    ensures Follows(Dispatch(env, s, node, graphId, payload, wanted, ttl, draw).0.ring, k, draw.clock.signed)
  {
    DispatchRing(env, s, node, graphId, payload, wanted, ttl, draw);
    RingFollows(s.ring, Dispatch(env, s, node, graphId, payload, wanted, ttl, draw).0.ring, k, start, draw);
  }

  lemma {:induction false} NodesFollow(env: Env, s: Control, nodes: seq<WorkNode>, graphId: string, readyOnly: bool,
                                       ready: set<string>, draws: seq<Draw>, k: Signed, start: int)
    requires s.ring.keys != [] && |draws| == |nodes|
    requires Follows(s.ring, k, start) && InClockOrder(draws, start) && NewKeys(KeyIds(s.ring), draws)
    ensures Follows(DispatchNodes(env, s, nodes, graphId, readyOnly, ready, draws).0.ring, k, ClockEnd(draws, start))
    decreases |nodes|
  {
    if nodes != [] {
      var d, rest := draws[0], draws[1..];
      ClockMovesOn(rest, d.clock.signed);
      if readyOnly && !IsReady(nodes[0], ready) {
        FewerIds(KeyIds(s.ring), KeyIds(s.ring) + {d.key.keyId}, rest);
        FollowsLater(s.ring, k, start, d.clock.signed);
        NodesFollow(env, s, nodes[1..], graphId, readyOnly, ready, rest, k, d.clock.signed);
      } else {
        var (s1, first) := Dispatch(env, s, nodes[0], graphId, map[], None, DEFAULT_TTL, d);
        OneDraw(draws, start, KeyIds(s.ring));
        DispatchFollows(env, s, nodes[0], graphId, map[], None, DEFAULT_TTL, d, k, start);
        DispatchDraws(env, s, nodes[0], graphId, map[], None, DEFAULT_TTL, d);
        if first.Ok? {
          FewerIds(KeyIds(s1.ring), KeyIds(s.ring) + {d.key.keyId}, rest);
          NodesFollow(env, s1, nodes[1..], graphId, readyOnly, ready, rest, k, d.clock.signed);
        } else {
          FollowsLater(s1.ring, k, d.clock.signed, ClockEnd(draws, start));
        }
      }
    }
  }

  lemma OneDraw(draws: seq<Draw>, start: int, ids: set<string>)
    requires draws != [] && InClockOrder(draws, start) && NewKeys(ids, draws)
    ensures InClockOrder([draws[0]], start) && NewKeys(ids, [draws[0]])
  {}

  lemma FollowsLater(ring: Ring, k: Signed, now: int, later: int)
    requires Follows(ring, k, now) && now <= later
    ensures Follows(ring, k, later)
  {}

  lemma ReclaimFollows(env: Env, s: Control, t: string, reason: string, graph: WorkGraph, draw: Draw, k: Signed, start: int)
    requires s.ring.keys != [] && Follows(s.ring, k, start) && InClockOrder([draw], start) && NewKeys(KeyIds(s.ring), [draw])
    ensures Follows(Reclaim(env, s, t, reason, graph, draw).0.ring, k, draw.clock.signed)
  {
    FollowsLater(s.ring, k, start, draw.clock.signed);
    if ReclaimRefusal(s, t).None? {
      ReclaimCases(env, s, t, reason, graph, draw);
      var e := s.tasks[t].envelope;
      if graph.Node(e.nodeId).Ok? && e.Key() in s.byNode {
        DispatchFollows(env, ReclaimBase(s, t, reason), graph.Node(e.nodeId).value, e.graphId, map[], None, DEFAULT_TTL, draw, k, start);
      }
    }
  }

  /** One operation of the process, without a forced rotation. */
  predicate Steady(s: Control, op: Op, start: int) {
    !op.StartOp? && !op.RotateOp? && InClockOrder(DrawsOf(op), start) && NewKeys(KeyIds(s.ring), DrawsOf(op))
  }

  lemma StepFollows(env: Env, s: Control, op: Op, k: Signed, start: int)
    requires Legal(s, op) && !s.readOnly && s.ring.keys != [] && Steady(s, op, start) && Follows(s.ring, k, start)
    ensures Follows(Step(env, s, op).ring, k, ClockEnd(DrawsOf(op), start))
  {
    match op
    case DispatchOp(node, g, payload, wanted, ttl, draw) => DispatchFollows(env, s, node, g, payload, wanted, ttl, draw, k, start);
    case GraphOp(graph, g, readyOnly, draws) =>
      ClockMovesOn(draws, start);
      FollowsLater(s.ring, k, start, ClockEnd(draws, start));
      NodesFollow(env, s, graph.nodes, g, readyOnly, Satisfied(s, g), draws, k, start);
    case ReclaimOp(t, reason, graph, draw) => ReclaimFollows(env, s, t, reason, graph, draw, k, start);
    case _ =>
  }

  // ---------- over one process ----------

  ghost predicate SteadyRun(env: Env, s: Control, ops: seq<Op>, start: int)
    requires LegalRun(env, s, ops)
    decreases |ops|
  {
    ops == []
    || (Steady(s, ops[0], start)
        && SteadyRun(env, Step(env, s, ops[0]), ops[1..], ClockEnd(DrawsOf(ops[0]), start)))
  }

  function RunEnd(ops: seq<Op>, start: int): int {
    if ops == [] then start else RunEnd(ops[1..], ClockEnd(DrawsOf(ops[0]), start))
  }

  lemma StepTopology(env: Env, s: Control, op: Op)
    requires Sound(env, s) && Legal(s, op) && !op.StartOp?
    ensures Step(env, s, op).topology == s.topology
  {
    StepReaches(env, s, op);
    var ms :| Path(env, s, ms, Step(env, s, op));
    PathMemory(env, s, ms, Step(env, s, op));
  }

  lemma {:induction false} RunFollows(env: Env, s: Control, ops: seq<Op>, k: Signed, start: int)
    requires Sound(env, s) && LegalRun(env, s, ops) && SteadyRun(env, s, ops, start) && Follows(s.ring, k, start)
    ensures Follows(Run(env, s, ops).ring, k, RunEnd(ops, start)) && Run(env, s, ops).topology == s.topology
    decreases |ops|
  {
    if ops != [] {
      StepKept(env, s, ops[0]);
      StepFollows(env, s, ops[0], k, start);
      StepTopology(env, s, ops[0]);
      RunFollows(env, Step(env, s, ops[0]), ops[1..], k, ClockEnd(DrawsOf(ops[0]), start));
    }
  }

  // ---------- delivery ----------

  /** A token whose key the ring still follows verifies exactly until it expires. */
  lemma FollowedVerifies(hmac: Hmac, ring: Ring, t: HandoffToken, k: Signed, last: int, now: int)
    requires Follows(ring, k, last) && last <= now && t.keyId == k.key.keyId && t.expiry == k.expiry
    requires t.mac == hmac(k.key.material, Message(t)) && t.tierMax in TIERS
    ensures Verify(hmac, ring, t, t.scopeDigest, t.team, t.tierMax, now).Ok? <==> now < t.expiry
  {
    FollowsLater(ring, k, last, now);
    if now < t.expiry {
      assert Lookup(ring.keys, k.key.keyId) == Some(k.key) by {
        if ring.keys[0] != k.key {
          assert Lookup(ring.keys, k.key.keyId) == Lookup(ring.keys[1..], k.key.keyId);
        }
      }
    }
  }

  /** What placing a node signs: the token of the envelope, under the newest key. */
  lemma PlacedToken(env: Env, s: Control, node: WorkNode, graphId: string, payload: map<string, Json>, t: string, ttl: int, draw: Draw)
    requires s.ring.keys != [] && Place(env, s, node, graphId, payload, t, ttl, draw).1.Ok?
    ensures var (s', r) := Place(env, s, node, graphId, payload, t, ttl, draw); var e := r.value;
      && s'.ring.keys != [] && e.token.Some? && e.team == node.team && e.token.value.taskId == e.taskId && e.token.value.team == e.team
      && e.token.value.tierMax == e.tierMax && e.tierMax in TIERS && e.token.value.scopeDigest == env.digest(EnvelopeScope(e))
      && e.token.value.keyId == s'.ring.keys[0].keyId && e.token.value.expiry == draw.clock.signed + ttl
      && e.token.value.mac == env.hmac(s'.ring.keys[0].material, Message(e.token.value))
      && s'.topology == s.topology && s'.ring == Renew(s.ring, draw.clock.now, draw.clock.created, draw.key)
  {
    var full := Resolved(payload, node);
    var token := Sign(env.hmac, s.ring, SignRequest(env, node, graphId, full, t, ttl), draw.clock, draw.key).1.value;
    MacIgnoresMac(token);
  }

  /** The envelope of such a token is accepted from the team's lead exactly until it expires
      or is consumed. */
  lemma FollowedIsAccepted(env: Env, s: Control, e: Envelope, k: Signed, last: int, now: int)
    requires Follows(s.ring, k, last) && last <= now && s.topology.Declares(e.team) && e.token.Some?
    requires e.token.value.taskId == e.taskId && e.token.value.team == e.team && e.token.value.tierMax == e.tierMax
    requires e.tierMax in TIERS && e.token.value.scopeDigest == env.digest(EnvelopeScope(e))
    requires e.token.value.keyId == k.key.keyId && e.token.value.expiry == k.expiry
    requires e.token.value.mac == env.hmac(k.key.material, Message(e.token.value))
    ensures IngressRefusal(env, s, e, LeadOf(s, e.team), now).None? <==> now < k.expiry && e.taskId !in s.consumed
  {
    FollowedVerifies(env.hmac, s.ring, e.token.value, k, last, now);
  }

  /** An envelope that dispatch places is accepted from the team's lead exactly until its token
      expires or is consumed, after any further operations of the process: with a clock that
      never goes backwards, new key ids, no forced rotation, and a lifetime within the
      deadline of the signing key. */
  lemma IssuedIsAccepted(env: Env, s: Control, node: WorkNode, graphId: string, payload: map<string, Json>, t: string, ttl: int,
                         draw: Draw, ops: seq<Op>, now: int)
    requires s.ring.rotation > 0 && 1 <= |s.ring.keys| <= 2 && s.topology.Declares(node.team)
    requires InClockOrder([draw], draw.clock.now)
    requires Place(env, s, node, graphId, payload, t, ttl, draw).1.Ok?
    requires var s1 := Place(env, s, node, graphId, payload, t, ttl, draw).0;
      && Sound(env, s1) && LegalRun(env, s1, ops) && SteadyRun(env, s1, ops, draw.clock.signed)
      && draw.clock.signed + ttl <= Deadline(s1.ring.keys[0], s1.ring.rotation, draw.clock.signed)
    requires RunEnd(ops, draw.clock.signed) <= now
    ensures var (s1, r) := Place(env, s, node, graphId, payload, t, ttl, draw); var end := Run(env, s1, ops);
      IngressRefusal(env, end, r.value, LeadOf(end, node.team), now).None?
      <==> now < draw.clock.signed + ttl && r.value.taskId !in end.consumed
  {
    var (s1, r) := Place(env, s, node, graphId, payload, t, ttl, draw);
    PlacedToken(env, s, node, graphId, payload, t, ttl, draw);
    var k := Signed(s1.ring.keys[0], draw.clock.signed, draw.clock.signed + ttl);
    RunFollows(env, s1, ops, k, draw.clock.signed);
    FollowedIsAccepted(env, Run(env, s1, ops), r.value, k, RunEnd(ops, draw.clock.signed), now);
  }
}
