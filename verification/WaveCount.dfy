/** How many waves a graph needs: exactly as many as its longest dependency chain is long. */
module WaveCount {
  import opened Schema
  import opened Control
  import opened Projection
  import opened Progress
  import opened Waves
  import SchemaCodec

  /** Some node of this id depends on d. */
  predicate Depends(graph: WorkGraph, id: string, d: string) {
    exists i :: 0 <= i < |graph.nodes| && graph.nodes[i].id == id && d in graph.nodes[i].dependsOn
  }

  /** Node ids of the graph, each depending on the one before. */
  ghost predicate Chain(graph: WorkGraph, ids: seq<string>) {
    && (forall i :: 0 <= i < |ids| ==> ids[i] in graph.Ids())
    && forall i :: 0 < i < |ids| ==> Depends(graph, ids[i], ids[i - 1])
  }

  lemma ChainLonger(graph: WorkGraph, d: string, ids: seq<string>)
    requires Chain(graph, ids) && ids != [] && d in graph.Ids() && Depends(graph, ids[0], d)
    ensures Chain(graph, [d] + ids)
  {
    var all := [d] + ids;
    assert forall i :: 1 <= i < |all| ==> all[i] == ids[i - 1];
    forall i | 0 < i < |all| ensures Depends(graph, all[i], all[i - 1]) {
      assert i > 1 ==> all[i - 1] == ids[i - 2];
    }
  }

  lemma ChainRest(graph: WorkGraph, ids: seq<string>)
    requires Chain(graph, ids) && ids != []
    ensures Chain(graph, ids[1..])
  {
    forall i | 0 < i < |ids[1..]| ensures Depends(graph, ids[1..][i], ids[1..][i - 1]) {
      assert Depends(graph, ids[i + 1], ids[i]);
    }
  }

  /** One pass over the graph: who owns a node after a wave. */
  lemma WaveOwners(env: Env, s: Control, graph: WorkGraph, graphId: string, round: Round)
    requires Between(s, graph, graphId) && GoodRound(s, graph, round)
    ensures Between(Wave(env, s, graph, graphId, round), graph, graphId)
    ensures Wave(env, s, graph, graphId, round).byNode.Keys
         == s.byNode.Keys + ReadyKeys(graph.nodes, graphId, Satisfied(s, graphId))
  {
    WaveDispatches(env, s, graph, graphId, round);
    WaveKeeps(env, s, graph, graphId, round);
  }

  // ---------- no longer than the longest chain ----------

  lemma IdKnown(graph: WorkGraph, i: int)
    requires 0 <= i < |graph.nodes|
    ensures graph.nodes[i].id in graph.Ids()
  {}

  lemma UnownedIff(s: Control, graph: WorkGraph, graphId: string, id: string)
    ensures id in Unowned(s, graph, graphId) <==> id in graph.Ids() && (graphId, id) !in s.byNode
  {}

  lemma OwnedIsSatisfied(s: Control, graph: WorkGraph, graphId: string, d: string)
    requires Between(s, graph, graphId) && d in graph.Ids() && (graphId, d) in s.byNode
    ensures d in Satisfied(s, graphId)
  {
    var i :| 0 <= i < |graph.nodes| && graph.nodes[i].id == d;
    PassedIsSatisfied(s, graphId, graph.nodes[i].id);
  }

  /** A node that a wave leaves unowned depends on one that was unowned before it. */
  lemma LeftWaiting(env: Env, s: Control, graph: WorkGraph, graphId: string, round: Round, id: string) returns (d: string)
    requires Between(s, graph, graphId) && GoodRound(s, graph, round)
    requires id in Unowned(Wave(env, s, graph, graphId, round), graph, graphId)
    ensures d in Unowned(s, graph, graphId) && Depends(graph, id, d)
  {
    WaveOwners(env, s, graph, graphId, round);
    UnownedIff(Wave(env, s, graph, graphId, round), graph, graphId, id);
    d := NotReady(s, graph, graphId, id);
  }

  lemma NotReady(s: Control, graph: WorkGraph, graphId: string, id: string) returns (d: string)
    requires Between(s, graph, graphId) && id in graph.Ids()
    requires (graphId, id) !in ReadyKeys(graph.nodes, graphId, Satisfied(s, graphId))
    ensures d in Unowned(s, graph, graphId) && Depends(graph, id, d)
  {
    var i :| 0 <= i < |graph.nodes| && graph.nodes[i].id == id;
    assert !IsReady(graph.nodes[i], Satisfied(s, graphId));
    var k :| 0 <= k < |graph.nodes[i].dependsOn| && graph.nodes[i].dependsOn[k] !in Satisfied(s, graphId);
    d := graph.nodes[i].dependsOn[k];
    assert graph.KnownDependencies();
    if (graphId, d) in s.byNode { OwnedIsSatisfied(s, graph, graphId, d); }
    UnownedIff(s, graph, graphId, d);
  }

  /** What is unowned after some waves ends a chain that is longer than they are many, and was
      unowned before them. */
  lemma {:induction false} ChainBehind(env: Env, s: Control, graph: WorkGraph, graphId: string, rounds: seq<Round>, id: string)
    returns (ids: seq<string>)
    requires Between(s, graph, graphId) && GoodRounds(env, s, graph, graphId, rounds)
    requires id in Unowned(AfterWaves(env, s, graph, graphId, rounds), graph, graphId)
    ensures Chain(graph, ids) && |ids| == |rounds| + 1 && ids[0] in Unowned(s, graph, graphId)
    decreases |rounds|
  {
    if rounds == [] {
      ids := [id];
      UnownedIff(s, graph, graphId, id);
    } else {
      WaveOwners(env, s, graph, graphId, rounds[0]);
      var later := ChainBehind(env, Wave(env, s, graph, graphId, rounds[0]), graph, graphId, rounds[1..], id);
      var d := LeftWaiting(env, s, graph, graphId, rounds[0], later[0]);
      UnownedIff(s, graph, graphId, d);
      ChainLonger(graph, d, later);
      ids := [d] + later;
    }
  }

  /** As many waves as the longest dependency chain is long make the graph shippable. */
  lemma ShipsWithinChains(env: Env, s: Control, graph: WorkGraph, graphId: string, rounds: seq<Round>)
    requires Between(s, graph, graphId) && GoodRounds(env, s, graph, graphId, rounds)
    requires forall ids :: Chain(graph, ids) ==> |ids| <= |rounds|
    ensures MayShip(AfterWaves(env, s, graph, graphId, rounds), graph, graphId)
  {
    var s' := AfterWaves(env, s, graph, graphId, rounds);
    ShipsWhenAllOwned(s', graph, graphId);
    if id :| id in Unowned(s', graph, graphId) {
      var ids := ChainBehind(env, s, graph, graphId, rounds, id);
    }
  }

  // ---------- and no fewer ----------

  /** No task of the node, neither owning nor passed. */
  predicate Idle(s: Control, graphId: string, id: string) {
    (graphId, id) !in s.byNode && id !in Satisfied(s, graphId)
  }

  lemma {:induction false} PassOpenLeaves(env: Env, s: Control, es: seq<Envelope>, evidence: seq<string>, now: int, t: string)
    requires forall i :: 0 <= i < |es| ==> es[i].taskId != t
    requires t in s.tasks && Gateable(s, es) && evidence != []
    ensures t in PassOpen(env, s, es, evidence, now).tasks && PassOpen(env, s, es, evidence, now).tasks[t] == s.tasks[t]
    decreases |es|
  {
    if es != [] {
      var s1 := FirstPassesOne(env, s, es, evidence, now, t);
      GateableRest(s, s1, es);
      PassOpenLeaves(env, s1, es[1..], evidence, now, t);
    }
  }

  lemma FirstPassesOne(env: Env, s: Control, es: seq<Envelope>, evidence: seq<string>, now: int, t: string) returns (s1: Control)
    requires Gateable(s, es) && es != [] && evidence != [] && t in s.tasks && es[0].taskId != t
    ensures Judging(s, s1) && s1.tasks[t] == s.tasks[t]
    ensures PassOpen(env, s, es, evidence, now) == PassOpen(env, s1, es[1..], evidence, now)
  {
    var u := es[0].taskId;
    s1 := s;
    if !s.tasks[u].state.Passed? {
      var result := PassingResult(s.tasks[u].envelope.exitGate, evidence, now);
      s1 := AcceptGate(env, s, u, SchemaCodec.ResultJson(result), now).0;
      PassOne(env, s, u, evidence, now);
    }
  }

  /** A dependant of an idle node is not among the ready ones. */
  lemma DependantNotReady(s: Control, graph: WorkGraph, graphId: string, id: string, d: string)
    requires graph.UniqueIds() && Depends(graph, id, d) && d !in Satisfied(s, graphId)
    ensures (graphId, id) !in ReadyKeys(graph.nodes, graphId, Satisfied(s, graphId))
  {
    var i :| 0 <= i < |graph.nodes| && graph.nodes[i].id == id && d in graph.nodes[i].dependsOn;
    var k :| 0 <= k < |graph.nodes[i].dependsOn| && graph.nodes[i].dependsOn[k] == d;
    assert !IsReady(graph.nodes[i], Satisfied(s, graphId));
    forall j | 0 <= j < |graph.nodes| && IsReady(graph.nodes[j], Satisfied(s, graphId)) ensures graph.nodes[j].id != id {
      assert j < i || i < j;
    }
  }

  /** A wave passes only tasks of ready nodes. */
  lemma StillUnsatisfied(env: Env, s: Control, graph: WorkGraph, graphId: string, round: Round, id: string)
    requires Between(s, graph, graphId) && GoodRound(s, graph, round) && id !in Satisfied(s, graphId)
    requires (graphId, id) !in ReadyKeys(graph.nodes, graphId, Satisfied(s, graphId))
    ensures id !in Satisfied(Wave(env, s, graph, graphId, round), graphId)
  {
    WaveDispatches(env, s, graph, graphId, round);
    var (s1, es) := DispatchGraph(env, s, graph, graphId, true, round.draws);
    PassOpenPasses(env, s1, es.value, round.evidence, round.now);
    var s' := Wave(env, s, graph, graphId, round);
    forall t | t in s'.tasks && s'.tasks[t].envelope.Key() == (graphId, id) ensures !s'.tasks[t].state.Passed? {
      NotReturned(s, s1, es.value, ReadyKeys(graph.nodes, graphId, Satisfied(s, graphId)), t, (graphId, id));
      PassOpenLeaves(env, s1, es.value, round.evidence, round.now, t);
      UnpassedBefore(s, s1, graphId, id, t);
    }
  }

  lemma NotReturned(s: Control, s1: Control, es: seq<Envelope>, keys: set<(string, string)>, t: string, key: (string, string))
    requires Looped(s, s1, es, keys) && t in s1.tasks && s1.tasks[t].envelope.Key() == key && key !in keys
    ensures forall i :: 0 <= i < |es| ==> es[i].taskId != t
  {
    forall i | 0 <= i < |es| ensures es[i].taskId != t {
      assert es[i].Key() in keys && s1.byNode[es[i].Key()] == es[i].taskId;
      assert s1.tasks[es[i].taskId].envelope.Key() == es[i].Key();
    }
  }

  lemma UnpassedBefore(s: Control, s1: Control, graphId: string, id: string, t: string)
    requires Grown(s, s1) && id !in Satisfied(s, graphId) && t in s1.tasks && s1.tasks[t].envelope.Key() == (graphId, id)
    ensures !s1.tasks[t].state.Passed?
  {
    if t in s.tasks { assert s1.tasks[t] == s.tasks[t]; }
  }

  /** A chain of idle nodes loses at most its first node in a wave. */
  lemma ChainStaysIdle(env: Env, s: Control, graph: WorkGraph, graphId: string, round: Round, ids: seq<string>)
    requires Between(s, graph, graphId) && GoodRound(s, graph, round) && Chain(graph, ids) && ids != []
    requires forall i :: 0 <= i < |ids| ==> Idle(s, graphId, ids[i])
    ensures forall i :: 0 <= i < |ids[1..]| ==> Idle(Wave(env, s, graph, graphId, round), graphId, ids[1..][i])
  {
    WaveOwners(env, s, graph, graphId, round);
    forall i | 0 <= i < |ids[1..]| ensures Idle(Wave(env, s, graph, graphId, round), graphId, ids[1..][i]) {
      assert Depends(graph, ids[i + 1], ids[i]) && Idle(s, graphId, ids[i]) && Idle(s, graphId, ids[i + 1]);
      DependantNotReady(s, graph, graphId, ids[i + 1], ids[i]);
      StillUnsatisfied(env, s, graph, graphId, round, ids[i + 1]);
    }
  }

  lemma {:induction false} LongChainWaits(env: Env, s: Control, graph: WorkGraph, graphId: string, rounds: seq<Round>, ids: seq<string>)
    requires Between(s, graph, graphId) && GoodRounds(env, s, graph, graphId, rounds)
    requires Chain(graph, ids) && |ids| > |rounds| && forall i :: 0 <= i < |ids| ==> Idle(s, graphId, ids[i])
    ensures !MayShip(AfterWaves(env, s, graph, graphId, rounds), graph, graphId)
    decreases |rounds|
  {
    if rounds == [] {
      var i :| 0 <= i < |graph.nodes| && graph.nodes[i].id == ids[0];
      assert !NodePassed(s, graphId, graph.nodes[i].id);
    } else {
      WaveOwners(env, s, graph, graphId, rounds[0]);
      ChainStaysIdle(env, s, graph, graphId, rounds[0], ids);
      ChainRest(graph, ids);
      LongChainWaits(env, Wave(env, s, graph, graphId, rounds[0]), graph, graphId, rounds[1..], ids[1..]);
    }
  }

  /** A graph without tasks may ship after some waves if and only if no dependency chain of it
      is longer than they are many. */
  lemma ShipsExactlyAfterChains(env: Env, s: Control, graph: WorkGraph, graphId: string, rounds: seq<Round>)
    requires Between(s, graph, graphId) && GoodRounds(env, s, graph, graphId, rounds)
    requires forall id :: id in graph.Ids() ==> Idle(s, graphId, id)
    ensures MayShip(AfterWaves(env, s, graph, graphId, rounds), graph, graphId)
       <==> forall ids :: Chain(graph, ids) ==> |ids| <= |rounds|
  {
    if forall ids :: Chain(graph, ids) ==> |ids| <= |rounds| {
      ShipsWithinChains(env, s, graph, graphId, rounds);
    } else {
      var ids :| Chain(graph, ids) && |ids| > |rounds|;
      LongChainWaits(env, s, graph, graphId, rounds, ids);
    }
  }
}
