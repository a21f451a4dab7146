/** No deadlock: a valid graph whose owned nodes have all passed always gets a further node
    dispatched, and ships after at most as many waves as it has nodes. */
module Progress {
  import opened Basics
  import opened Schema
  import opened Control
  import opened Moves
  import opened Projection
  import opened Recovery
  import opened Runs
  import Gates
  import Topology

  ghost predicate Tidy(s: Control) {
    NodesNamed(s) && s.ring.keys != [] && forall t :: t in s.tasks ==> s.tasks[t].envelope.taskId == t
  }

  /** Nothing refuses any node of the graph. */
  ghost predicate Admits(s: Control, graph: WorkGraph) {
    && !s.readOnly && Tidy(s) && graph.Valid()
    && forall i :: 0 <= i < |graph.nodes| ==> Refusal(s, graph.nodes[i]).None?
  }

  /** Declared, unpaused teams and known gates are enough. */
  lemma AdmittedWhen(env: Env, s: Control, graph: WorkGraph)
    requires Sound(env, s) && graph.Valid()
    requires forall i :: 0 <= i < |graph.nodes| ==>
      s.topology.Declares(graph.nodes[i].team) && graph.nodes[i].team !in s.paused && Gates.Known(graph.nodes[i].exitGate)
    ensures Admits(s, graph)
  {
    forall i | 0 <= i < |graph.nodes| ensures Refusal(s, graph.nodes[i]).None? {
      Topology.GateOwnerIsUnique(s.topology, graph.nodes[i].exitGate);
      assert graph.nodes[i].Valid();
    }
  }

  /** Every owned node of the graph has passed. */
  predicate OwnedPassed(s: Control, graph: WorkGraph, graphId: string) {
    forall i :: 0 <= i < |graph.nodes| && (graphId, graph.nodes[i].id) in s.byNode ==> NodePassed(s, graphId, graph.nodes[i].id)
  }

  function Unowned(s: Control, graph: WorkGraph, graphId: string): set<string> {
    set i | 0 <= i < |graph.nodes| && (graphId, graph.nodes[i].id) !in s.byNode :: graph.nodes[i].id
  }

  lemma ShipsWhenAllOwned(s: Control, graph: WorkGraph, graphId: string)
    requires OwnedPassed(s, graph, graphId)
    ensures MayShip(s, graph, graphId) <==> Unowned(s, graph, graphId) == {}
  {
    if MayShip(s, graph, graphId) {
      forall i | 0 <= i < |graph.nodes| ensures (graphId, graph.nodes[i].id) in s.byNode {
        assert NodePassed(s, graphId, graph.nodes[i].id);
      }
    }
    if Unowned(s, graph, graphId) == {} {
      forall i | 0 <= i < |graph.nodes| ensures NodePassed(s, graphId, graph.nodes[i].id) {
        assert graph.nodes[i].id !in Unowned(s, graph, graphId);
      }
    }
  }

  lemma {:induction false} LeastRanked(ids: set<string>, rank: map<string, nat>) returns (m: string)
    requires ids != {} && ids <= rank.Keys
    ensures m in ids && forall x :: x in ids ==> rank[m] <= rank[x]
  {
    var x :| x in ids;
    if ids == {x} {
      m := x;
    } else {
      m := LeastRanked(ids - {x}, rank);
      if rank[x] < rank[m] { m := x; }
    }
  }

  /** An unowned node of least rank has all its dependencies satisfied. */
  lemma SomeNodeIsReady(s: Control, graph: WorkGraph, graphId: string) returns (i: nat)
    requires graph.Valid() && NodesNamed(s) && OwnedPassed(s, graph, graphId) && Unowned(s, graph, graphId) != {}
    ensures i < |graph.nodes| && (graphId, graph.nodes[i].id) !in s.byNode && IsReady(graph.nodes[i], Satisfied(s, graphId))
  {
    var rank :| graph.RankedBy(rank);
    var m := LeastRanked(Unowned(s, graph, graphId), rank);
    i :| 0 <= i < |graph.nodes| && (graphId, graph.nodes[i].id) !in s.byNode && graph.nodes[i].id == m;
    forall k | 0 <= k < |graph.nodes[i].dependsOn| ensures graph.nodes[i].dependsOn[k] in Satisfied(s, graphId) {
      var dep := graph.nodes[i].dependsOn[k];
      assert rank[dep] < rank[m] && dep !in Unowned(s, graph, graphId);
      var j :| 0 <= j < |graph.nodes| && graph.nodes[j].id == dep;
      PassedIsSatisfied(s, graphId, dep);
    }
  }

  lemma PassedIsSatisfied(s: Control, graphId: string, nodeId: string)
    requires NodesNamed(s) && NodePassed(s, graphId, nodeId)
    ensures nodeId in Satisfied(s, graphId)
  {
    var t := s.byNode[(graphId, nodeId)];
    assert s.tasks[t].envelope.Key() == (graphId, nodeId);
  }

  // ---------- one wave of dispatching ----------

  /** s' keeps the tasks and owners of s; every new owner is a new open task with a known
      gate. */
  ghost predicate Grown(s: Control, s': Control) {
    && s'.topology == s.topology && s'.paused == s.paused && s'.readOnly == s.readOnly && Tidy(s')
    && s.tasks.Keys <= s'.tasks.Keys && s.byNode.Keys <= s'.byNode.Keys
    && (forall t :: t in s.tasks ==> s'.tasks[t] == s.tasks[t])
    && (forall k :: k in s.byNode ==> s'.byNode[k] == s.byNode[k])
    && (forall t :: t in s'.tasks && t !in s.tasks ==> s'.tasks[t].state.Issued? && Gates.Known(s'.tasks[t].envelope.exitGate))
    && (forall k :: k in s'.byNode && k !in s.byNode ==> s'.byNode[k] !in s.tasks)
  }

  lemma GrownJoins(a: Control, b: Control, c: Control)
    requires Grown(a, b) && Grown(b, c)
    ensures Grown(a, c)
  {
    forall t | t in c.tasks && t !in a.tasks ensures c.tasks[t].state.Issued? && Gates.Known(c.tasks[t].envelope.exitGate) {
      if t in b.tasks { assert c.tasks[t] == b.tasks[t]; }
    }
  }

  lemma EnqueueGrows(env: Env, s: Control, e: Envelope, lead: string, now: int)
    requires Fits(env, s, e) && Tidy(s)
    ensures Grown(s, Enqueue(env, s, e, lead, now))
  {
    OneMoreGrows(s, Enqueue(env, s, e, lead, now), e);
  }

  lemma OneMoreGrows(s: Control, s': Control, e: Envelope)
    requires Tidy(s) && e.taskId !in s.tasks && e.Key() !in s.byNode && Gates.Known(e.exitGate)
    requires e.taskId in s'.tasks && s'.tasks[e.taskId].state.Issued? && s'.tasks[e.taskId].envelope == e
    requires s'.tasks == s.tasks[e.taskId := s'.tasks[e.taskId]] && s'.byNode == s.byNode[e.Key() := e.taskId]
    requires s'.topology == s.topology && s'.paused == s.paused && s'.readOnly == s.readOnly && s'.ring == s.ring
    ensures Grown(s, s')
  {
    OneMoreTidy(s, s', e);
  }

  lemma OneMoreTidy(s: Control, s': Control, e: Envelope)
    requires Tidy(s) && e.taskId !in s.tasks && s'.ring == s.ring
    requires e.taskId in s'.tasks && s'.tasks[e.taskId].envelope == e
    requires s'.tasks == s.tasks[e.taskId := s'.tasks[e.taskId]] && s'.byNode == s.byNode[e.Key() := e.taskId]
    ensures Tidy(s')
  {}

  lemma EnqueueOwns(env: Env, s: Control, e: Envelope, lead: string, now: int)
    ensures var s' := Enqueue(env, s, e, lead, now);
      && e.Key() in s'.byNode && s'.byNode[e.Key()] == e.taskId && e.taskId in s'.tasks
      && s'.byNode.Keys == s.byNode.Keys + {e.Key()}
  {}

  lemma RingGrows(s: Control, s1: Control)
    requires OnlyRing(s, s1) && Tidy(s)
    ensures Grown(s, s1) && s1.byNode == s.byNode && s1.tasks == s.tasks
  {}

  lemma PlacesGrows(env: Env, s: Control, s': Control, e: Envelope)
    requires Places(env, s, s', e) && Tidy(s)
    ensures Grown(s, s') && e.Key() in s'.byNode && s'.byNode[e.Key()] == e.taskId && e.taskId in s'.tasks
    ensures s'.byNode.Keys == s.byNode.Keys + {e.Key()}
  {
    var s1, lead, now :| OnlyRing(s, s1) && Fits(env, s1, e) && s' == Enqueue(env, s1, e, lead, now);
    RingGrows(s, s1);
    EnqueueGrows(env, s1, e, lead, now);
    EnqueueOwns(env, s1, e, lead, now);
    GrownJoins(s, s1, s');
  }

  /** A node that nothing refuses is dispatched, or already has an owner. */
  lemma DispatchGrows(env: Env, s: Control, node: WorkNode, graphId: string, draw: Draw)
    requires !s.readOnly && Tidy(s) && node.Valid() && Refusal(s, node).None?
    requires IsTaskId(draw.taskId) && draw.taskId !in s.tasks
    ensures var (s', r) := Dispatch(env, s, node, graphId, map[], None, DEFAULT_TTL, draw);
      && r.Ok? && Grown(s, s') && s'.byNode.Keys == s.byNode.Keys + {(graphId, node.id)}
      && r.value.taskId in s'.tasks && s'.byNode[(graphId, node.id)] == r.value.taskId && r.value.Key() == (graphId, node.id)
      && s'.tasks.Keys <= s.tasks.Keys + {draw.taskId}
  {
    var (s', r) := Dispatch(env, s, node, graphId, map[], None, DEFAULT_TTL, draw);
    DispatchAdds(env, s, node, graphId, DEFAULT_TTL, draw);
    if (graphId, node.id) in s.byNode {
      assert s' == s && Grown(s, s);
    } else {
      UnownedPlaces(env, s, node, graphId, DEFAULT_TTL, draw);
      PlaceSucceeds(env, s, node, graphId, draw);
      PlacesGrows(env, s, s', r.value);
    }
  }

  lemma PlaceSucceeds(env: Env, s: Control, node: WorkNode, graphId: string, draw: Draw)
    requires s.ring.keys != [] && node.Valid() && IsTaskId(draw.taskId)
    ensures Place(env, s, node, graphId, map[], draw.taskId, DEFAULT_TTL, draw).1.Ok?
  {}

  /** The keys of the nodes in a list that are ready. */
  function ReadyKeys(nodes: seq<WorkNode>, graphId: string, ready: set<string>): set<(string, string)> {
    set i | 0 <= i < |nodes| && IsReady(nodes[i], ready) :: (graphId, nodes[i].id)
  }

  ghost predicate GoodDraws(s: Control, draws: seq<Draw>) {
    FreshDraws(s, draws) && forall i :: 0 <= i < |draws| ==> IsTaskId(draws[i].taskId)
  }

  lemma RefusalUnmoved(s: Control, s': Control, node: WorkNode)
    requires s'.topology == s.topology && s'.paused == s.paused
    ensures Refusal(s', node) == Refusal(s, node)
  {}

  lemma ReadyKeysStep(nodes: seq<WorkNode>, graphId: string, ready: set<string>)
    requires nodes != []
    ensures ReadyKeys(nodes, graphId, ready) ==
      (if IsReady(nodes[0], ready) then {(graphId, nodes[0].id)} else {}) + ReadyKeys(nodes[1..], graphId, ready)
  {
    var rest := ReadyKeys(nodes[1..], graphId, ready);
    assert forall i :: 1 <= i < |nodes| ==> nodes[i] == nodes[1..][i - 1];
    forall k | k in ReadyKeys(nodes, graphId, ready) && !(IsReady(nodes[0], ready) && k == (graphId, nodes[0].id)) ensures k in rest {
      var i :| 0 <= i < |nodes| && IsReady(nodes[i], ready) && k == (graphId, nodes[i].id);
      assert IsReady(nodes[1..][i - 1], ready);
    }
    forall k | k in rest ensures k in ReadyKeys(nodes, graphId, ready) {
      var i :| 0 <= i < |nodes[1..]| && IsReady(nodes[1..][i], ready) && k == (graphId, nodes[1..][i].id);
      assert IsReady(nodes[i + 1], ready);
    }
  }

  /** Every returned envelope is that of an owner, and every new owner's is returned. */
  ghost predicate Returned(s: Control, s': Control, es: seq<Envelope>, keys: set<(string, string)>) {
    && (forall i :: 0 <= i < |es| ==> es[i].Key() in keys && es[i].Key() in s'.byNode && s'.byNode[es[i].Key()] == es[i].taskId)
    && (forall k :: k in s'.byNode && k !in s.byNode ==> exists i :: 0 <= i < |es| && es[i].taskId == s'.byNode[k])
  }

  ghost predicate NoneRefused(s: Control, nodes: seq<WorkNode>) {
    forall i :: 0 <= i < |nodes| ==> nodes[i].Valid() && Refusal(s, nodes[i]).None?
  }

  lemma RestNotRefused(s: Control, s1: Control, nodes: seq<WorkNode>)
    requires NoneRefused(s, nodes) && nodes != [] && s1.topology == s.topology && s1.paused == s.paused
    ensures NoneRefused(s1, nodes[1..])
  {
    forall i | 0 <= i < |nodes[1..]| ensures nodes[1..][i].Valid() && Refusal(s1, nodes[1..][i]).None? {
      RefusalUnmoved(s, s1, nodes[i + 1]);
    }
  }

  /** The first turn of the loop, and what it leaves to the rest. */
  lemma FirstGrows(env: Env, s: Control, nodes: seq<WorkNode>, graphId: string, draws: seq<Draw>)
    requires nodes != [] && !s.readOnly && Tidy(s) && |draws| == |nodes| && GoodDraws(s, draws) && NoneRefused(s, nodes)
    ensures var (s1, first) := Dispatch(env, s, nodes[0], graphId, map[], None, DEFAULT_TTL, draws[0]);
      && first.Ok? && Grown(s, s1) && s1.byNode.Keys == s.byNode.Keys + {(graphId, nodes[0].id)}
      && first.value.Key() == (graphId, nodes[0].id) && s1.byNode[(graphId, nodes[0].id)] == first.value.taskId
      && GoodDraws(s1, draws[1..]) && NoneRefused(s1, nodes[1..])
  {
    var s1 := Dispatch(env, s, nodes[0], graphId, map[], None, DEFAULT_TTL, draws[0]).0;
    DispatchGrows(env, s, nodes[0], graphId, draws[0]);
    FreshRest(s, s1, draws);
    RestNotRefused(s, s1, nodes);
  }

  ghost predicate Looped(s: Control, s': Control, es: seq<Envelope>, keys: set<(string, string)>) {
    Grown(s, s') && s'.byNode.Keys == s.byNode.Keys + keys && Returned(s, s', es, keys)
  }

  lemma LoopJoins(s: Control, s1: Control, s': Control, e: Envelope, es: seq<Envelope>, key: (string, string), keys: set<(string, string)>)
    requires Grown(s, s1) && s1.byNode.Keys == s.byNode.Keys + {key} && e.Key() == key && s1.byNode[key] == e.taskId
    requires Looped(s1, s', es, keys)
    ensures Looped(s, s', [e] + es, {key} + keys)
  {
    GrownJoins(s, s1, s');
    ReturnedJoins(s, s1, s', e, es, key, keys);
  }

  lemma NothingLooped(s: Control)
    requires Tidy(s)
    ensures Looped(s, s, [], {})
  {}

  /** The loop dispatches every ready node, so that each of them has an owner. */
  lemma {:induction false} LoopGrows(env: Env, s: Control, nodes: seq<WorkNode>, graphId: string, ready: set<string>, draws: seq<Draw>)
    requires !s.readOnly && Tidy(s) && |draws| == |nodes| && GoodDraws(s, draws) && NoneRefused(s, nodes)
    ensures var (s', r) := DispatchNodes(env, s, nodes, graphId, true, ready, draws);
      r.Ok? && Looped(s, s', r.value, ReadyKeys(nodes, graphId, ready))
    decreases |nodes|
  {
    if nodes == [] {
      NothingLooped(s);
      assert ReadyKeys(nodes, graphId, ready) == {};
    } else {
      ReadyKeysStep(nodes, graphId, ready);
      var rest := ReadyKeys(nodes[1..], graphId, ready);
      if IsReady(nodes[0], ready) {
        var (s1, first) := Dispatch(env, s, nodes[0], graphId, map[], None, DEFAULT_TTL, draws[0]);
        FirstGrows(env, s, nodes, graphId, draws);
        LoopGrows(env, s1, nodes[1..], graphId, ready, draws[1..]);
        var (s', es) := DispatchNodes(env, s1, nodes[1..], graphId, true, ready, draws[1..]);
        LoopJoins(s, s1, s', first.value, es.value, (graphId, nodes[0].id), rest);
      } else {
        FreshRest(s, s, draws);
        RestNotRefused(s, s, nodes);
        LoopGrows(env, s, nodes[1..], graphId, ready, draws[1..]);
        assert {} + rest == rest;
      }
    }
  }

  lemma ReturnedJoins(s: Control, s1: Control, s': Control, e: Envelope, es: seq<Envelope>, key: (string, string),
                      keys: set<(string, string)>)
    requires Returned(s1, s', es, keys)
    requires forall k :: k in s1.byNode ==> k in s'.byNode && s'.byNode[k] == s1.byNode[k]
    requires s1.byNode.Keys == s.byNode.Keys + {key} && e.Key() == key && s1.byNode[key] == e.taskId
    ensures Returned(s, s', [e] + es, {key} + keys)
  {
    var all := [e] + es;
    forall i | 0 <= i < |all|
      ensures all[i].Key() in {key} + keys && all[i].Key() in s'.byNode && s'.byNode[all[i].Key()] == all[i].taskId
    {
      assert i > 0 ==> all[i] == es[i - 1];
    }
    forall k | k in s'.byNode && k !in s.byNode ensures exists i :: 0 <= i < |all| && all[i].taskId == s'.byNode[k] {
      NewOwnerReturned(s1, s', e, es, key, k);
    }
  }

  lemma NewOwnerReturned(s1: Control, s': Control, e: Envelope, es: seq<Envelope>, key: (string, string), k: (string, string))
    requires k in s'.byNode && (k in s1.byNode ==> k == key)
    requires key in s1.byNode && key in s'.byNode && s'.byNode[key] == e.taskId
    requires k !in s1.byNode ==> exists i :: 0 <= i < |es| && es[i].taskId == s'.byNode[k]
    ensures exists i :: 0 <= i < |[e] + es| && ([e] + es)[i].taskId == s'.byNode[k]
  {
    if k in s1.byNode {
      assert ([e] + es)[0] == e;
    } else {
      var i :| 0 <= i < |es| && es[i].taskId == s'.byNode[k];
      assert ([e] + es)[i + 1] == es[i];
    }
  }

  ghost predicate NewlyOwned(s: Control, s': Control, key: (string, string)) {
    key !in s.byNode && key in s'.byNode && s'.byNode[key] in s'.tasks && s'.byNode[key] !in s.tasks
  }

  /** No deadlock: if every owned node has passed and the graph may not ship, dispatching the
      graph creates a task for some node that had no owner. */
  lemma NoDeadlock(env: Env, s: Control, graph: WorkGraph, graphId: string, draws: seq<Draw>)
    requires Admits(s, graph) && |draws| == |graph.nodes| && GoodDraws(s, draws)
    requires OwnedPassed(s, graph, graphId) && !MayShip(s, graph, graphId)
    ensures var (s', r) := DispatchGraph(env, s, graph, graphId, true, draws);
      r.Ok? && exists i | 0 <= i < |graph.nodes| :: NewlyOwned(s, s', (graphId, graph.nodes[i].id))
  {
    ShipsWhenAllOwned(s, graph, graphId);
    var i := SomeNodeIsReady(s, graph, graphId);
    LoopGrows(env, s, graph.nodes, graphId, Satisfied(s, graphId), draws);
    assert NewlyOwned(s, DispatchGraph(env, s, graph, graphId, true, draws).0, (graphId, graph.nodes[i].id));
  }
}
