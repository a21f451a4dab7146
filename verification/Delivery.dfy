/** What a dispatched task can expect: it is dispatched once, and nothing issued before a
    restart comes in after it. */
module Delivery {
  import opened Basics
  import opened JsonText
  import opened Schema
  import opened Control
  import opened Moves
  import opened Projection
  import opened Restart
  import opened Recovery
  import opened Runs
  import opened Progress
  import opened Ingress
  import Chains
  import Order

  // ---------- the beginning ----------

  /** On an empty log every valid manifest opens a dispatcher, and the invariants that runs
      keep hold of it. */
  lemma FirstStart(env: Env, start: Start, graph: WorkGraph, graphId: string)
    requires start.ring.keys != [] && start.topology.Valid()
    ensures CanStart(start, [])
    ensures var s := Started(start, []).0;
      && Sound(env, s) && OneOwner(s) && Chains.Chained(s) && IngressKept(env, s, {})
      && Order.InOrder(s.log, graph, graphId) && OwnedPassed(s, graph, graphId)
  {
    StartsExactlyWhen(start, []);
    StartKept(env, start, []);
    StartMemory(env, start, []);
    Chains.StartChained(env, start, []);
    Order.StartInOrder(start, [], graph, graphId);
    StartIngress(env, start, Boot(start.topology, start.ring, []), {});
    StartedRecords(env, start, []);
    assert Started(start, []).0.byNode == map[];
  }

  // ---------- idempotence ----------

  /** Once a node has been dispatched, dispatching it again changes nothing and returns the
      same envelope, whatever the second call asks for. */
  lemma DispatchTwice(env: Env, s: Control, node: WorkNode, graphId: string, first: map<string, Json>, ttl: int, draw: Draw,
                      second: map<string, Json>, ttl2: int, draw2: Draw)
    requires Sound(env, s) && draw.taskId !in s.tasks
    ensures var (s', r) := Dispatch(env, s, node, graphId, first, None, ttl, draw);
      r.Ok? ==> Dispatch(env, s', node, graphId, second, None, ttl2, draw2) == (s', r)
                && Dispatch(env, s', node, graphId, second, Some(r.value.taskId), ttl2, draw2) == (s', r)
  {
    var (s', r) := Dispatch(env, s, node, graphId, first, None, ttl, draw);
    if r.Ok? {
      if (graphId, node.id) in s.byNode {
        OwnerAnswers(env, s, node, graphId, s.byNode[(graphId, node.id)], second, ttl2, draw2);
      } else {
        PlaceOutcome(env, s, node, graphId, first, draw.taskId, ttl, draw);
        PlacedKey(env, s, node, graphId, first, draw.taskId, ttl, draw);
        PlacedRecord(env, s, s', r.value);
        OwnerAnswers(env, s', node, graphId, r.value.taskId, second, ttl2, draw2);
      }
    }
  }

  lemma PlacedRecord(env: Env, s: Control, s': Control, e: Envelope)
    requires Places(env, s, s', e)
    ensures e.taskId in s'.tasks && s'.tasks[e.taskId].envelope == e && s'.ring.keys != []
    ensures e.Key() in s'.byNode && s'.byNode[e.Key()] == e.taskId && s'.readOnly == s.readOnly
  {}

  lemma OwnerAnswers(env: Env, s: Control, node: WorkNode, graphId: string, t: string, payload: map<string, Json>, ttl: int, draw: Draw)
    requires s.ring.keys != [] && !s.readOnly && node.Valid()
    requires (graphId, node.id) in s.byNode && s.byNode[(graphId, node.id)] == t && t in s.tasks && s.tasks[t].envelope.taskId == t
    ensures Dispatch(env, s, node, graphId, payload, None, ttl, draw) == (s, Ok(s.tasks[t].envelope))
    ensures Dispatch(env, s, node, graphId, payload, Some(t), ttl, draw) == (s, Ok(s.tasks[t].envelope))
  {}

  // ---------- after a restart ----------

  lemma FreshRing(env: Env, s: Control, issued: set<Envelope>, start: Start)
    requires AllAdmissible(env, s.log) && CanStart(start, s.log) && Sealed(env, s, issued, StartOp(start))
    ensures forall x | x in issued && x.token.Some? :: x.token.value.keyId !in KeyIds(Started(start, s.log).0.ring)
  {
    StartedRecords(env, start, s.log);
    RenewedIds(start.ring, start.now, start.created, start.draw);
  }

  /** Right after a cold start with fresh keys every delivery is refused: what was issued
      before must be reclaimed and dispatched again. */
  lemma RestartFailsClosed(env: Env, s: Control, issued: set<Envelope>, start: Start, e: Envelope, to: string, now: int)
    requires Kept(env, s) && PlainDigests(env) && IngressKept(env, s, issued)
    requires CanStart(start, s.log) && Sealed(env, s, issued, StartOp(start))
    requires e.token.Some? ==> Unforged(env, Started(start, s.log).0.ring, issued, e.token.value)
    ensures IngressRefusal(env, Started(start, s.log).0, e, to, now).Some?
  {
    var s' := Started(start, s.log).0;
    FreshRing(env, s, issued, start);
    if IngressRefusal(env, s', e, to, now).None? {
      var x := AcceptedWasIssued(env, s', issued, e, to, now);
    }
  }
}
