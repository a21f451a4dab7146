/** Alternating graph dispatch and passing gates ships a graph within as many waves as the
    graph has nodes. */
module Waves {
  import opened Schema
  import opened SchemaCodec
  import opened Control
  import opened Progress
  import Gates

  /** A passing result for a gate, from the team that owns it. */
  function PassingResult(gate: string, evidence: seq<string>, now: int): Gates.GateResult
    requires Gates.Known(gate)
  {
    Gates.GateResult(gate, true, evidence, Gates.Lookup(gate).value.ownerTeam, now)
  }

  /** accept_gate with a passing result, for each open task among the envelopes. */
  function PassOpen(env: Env, s: Control, es: seq<Envelope>, evidence: seq<string>, now: int): Control
    decreases |es|
  {
    if es == [] then s
    else
      var t := es[0].taskId;
      var s1 := if t in s.tasks && !s.tasks[t].state.Passed? && Gates.Known(s.tasks[t].envelope.exitGate)
                then AcceptGate(env, s, t, ResultJson(PassingResult(s.tasks[t].envelope.exitGate, evidence, now)), now).0
                else s;
      PassOpen(env, s1, es[1..], evidence, now)
  }

  /** Only task states moved, and no passed task lost its pass. */
  ghost predicate Judging(s: Control, s': Control) {
    && s' == s.(tasks := s'.tasks, log := s'.log) && s'.tasks.Keys == s.tasks.Keys
    && forall t :: t in s.tasks ==>
         s'.tasks[t].envelope == s.tasks[t].envelope && (s.tasks[t].state.Passed? ==> s'.tasks[t].state.Passed?)
  }

  lemma PassOne(env: Env, s: Control, t: string, evidence: seq<string>, now: int)
    requires t in s.tasks && Gates.Known(s.tasks[t].envelope.exitGate) && evidence != []
    ensures var s' := AcceptGate(env, s, t, ResultJson(PassingResult(s.tasks[t].envelope.exitGate, evidence, now)), now).0;
      Judging(s, s') && s'.tasks[t].state.Passed?
  {
    ResultRoundTrip(PassingResult(s.tasks[t].envelope.exitGate, evidence, now), now);
  }

  /** Every open task among the envelopes has a known gate. */
  predicate Gateable(s: Control, es: seq<Envelope>) {
    forall i :: 0 <= i < |es| ==>
      es[i].taskId in s.tasks && (s.tasks[es[i].taskId].state.Passed? || Gates.Known(s.tasks[es[i].taskId].envelope.exitGate))
  }

  lemma FirstPasses(env: Env, s: Control, es: seq<Envelope>, evidence: seq<string>, now: int) returns (s1: Control)
    requires Gateable(s, es) && es != [] && evidence != []
    ensures Judging(s, s1) && s1.tasks[es[0].taskId].state.Passed?
    ensures PassOpen(env, s, es, evidence, now) == PassOpen(env, s1, es[1..], evidence, now)
  {
    var t := es[0].taskId;
    s1 := s;
    if !s.tasks[t].state.Passed? {
      s1 := AcceptGate(env, s, t, ResultJson(PassingResult(s.tasks[t].envelope.exitGate, evidence, now)), now).0;
      PassOne(env, s, t, evidence, now);
    }
  }

  lemma {:induction false} PassOpenPasses(env: Env, s: Control, es: seq<Envelope>, evidence: seq<string>, now: int)
    requires Gateable(s, es) && evidence != []
    ensures var s' := PassOpen(env, s, es, evidence, now);
      Judging(s, s') && forall i :: 0 <= i < |es| ==> s'.tasks[es[i].taskId].state.Passed?
    decreases |es|
  {
    if es != [] {
      var s1 := FirstPasses(env, s, es, evidence, now);
      GateableRest(s, s1, es);
      PassOpenPasses(env, s1, es[1..], evidence, now);
      assert forall i :: 1 <= i < |es| ==> es[i] == es[1..][i - 1];
    }
  }

  lemma GateableRest(s: Control, s1: Control, es: seq<Envelope>)
    requires Gateable(s, es) && es != [] && Judging(s, s1)
    ensures Gateable(s1, es[1..])
  {
    forall i | 0 <= i < |es[1..]| ensures es[1..][i].taskId in s1.tasks
      && (s1.tasks[es[1..][i].taskId].state.Passed? || Gates.Known(s1.tasks[es[1..][i].taskId].envelope.exitGate))
    {
      assert es[1..][i] == es[i + 1];
    }
  }

  // ---------- one wave ----------

  datatype Round = Round(draws: seq<Draw>, evidence: seq<string>, now: int)

  /** Dispatch the graph, then pass the gate of every task it returned. */
  ghost function Wave(env: Env, s: Control, graph: WorkGraph, graphId: string, round: Round): Control
    requires s.ring.keys != [] && |round.draws| == |graph.nodes|
  {
    var (s1, es) := DispatchGraph(env, s, graph, graphId, true, round.draws);
    if es.Ok? then PassOpen(env, s1, es.value, round.evidence, round.now) else s1
  }

  /** A state between waves: nothing is refused, owned nodes have passed, and the open tasks
      of the graph have known gates. */
  ghost predicate Between(s: Control, graph: WorkGraph, graphId: string) {
    Admits(s, graph) && OwnedPassed(s, graph, graphId)
  }

  ghost predicate GoodRound(s: Control, graph: WorkGraph, round: Round) {
    |round.draws| == |graph.nodes| && GoodDraws(s, round.draws) && round.evidence != []
  }

  lemma OwnersOfWave(s: Control, s1: Control, graph: WorkGraph, graphId: string, es: seq<Envelope>, keys: set<(string, string)>, s': Control)
    requires Tidy(s) && OwnedPassed(s, graph, graphId) && Looped(s, s1, es, keys) && Judging(s1, s')
    requires forall i :: 0 <= i < |es| ==> s'.tasks[es[i].taskId].state.Passed?
    ensures OwnedPassed(s', graph, graphId)
  {
    forall i | 0 <= i < |graph.nodes| && (graphId, graph.nodes[i].id) in s'.byNode
      ensures NodePassed(s', graphId, graph.nodes[i].id)
    {
      var key := (graphId, graph.nodes[i].id);
      if key in s.byNode {
        assert NodePassed(s, graphId, graph.nodes[i].id);
      } else {
        var j :| 0 <= j < |es| && es[j].taskId == s1.byNode[key];
      }
    }
  }

  lemma JudgedAdmits(s: Control, s': Control, graph: WorkGraph)
    requires Admits(s, graph) && Judging(s, s')
    ensures Admits(s', graph)
  {
    forall i | 0 <= i < |graph.nodes| ensures Refusal(s', graph.nodes[i]).None? {
      RefusalUnmoved(s, s', graph.nodes[i]);
    }
  }

  lemma GrownAdmits(s: Control, s': Control, graph: WorkGraph)
    requires Admits(s, graph) && Grown(s, s')
    ensures Admits(s', graph)
  {
    forall i | 0 <= i < |graph.nodes| ensures Refusal(s', graph.nodes[i]).None? {
      RefusalUnmoved(s, s', graph.nodes[i]);
    }
  }

  /** Returned tasks are new, with known gates, or own nodes that have passed. */
  lemma ReturnedGateable(s: Control, s1: Control, graph: WorkGraph, graphId: string, es: seq<Envelope>, ready: set<string>)
    requires Tidy(s) && OwnedPassed(s, graph, graphId) && Looped(s, s1, es, ReadyKeys(graph.nodes, graphId, ready))
    ensures Gateable(s1, es)
  {
    forall i | 0 <= i < |es|
      ensures es[i].taskId in s1.tasks
      ensures s1.tasks[es[i].taskId].state.Passed? || Gates.Known(s1.tasks[es[i].taskId].envelope.exitGate)
    {
      var key := es[i].Key();
      var n :| 0 <= n < |graph.nodes| && IsReady(graph.nodes[n], ready) && key == (graphId, graph.nodes[n].id);
      if key in s.byNode { assert NodePassed(s, graphId, graph.nodes[n].id); }
    }
  }

  /** What dispatching leaves for the gates to pass. */
  lemma WaveDispatches(env: Env, s: Control, graph: WorkGraph, graphId: string, round: Round)
    requires Between(s, graph, graphId) && GoodRound(s, graph, round)
    ensures var (s1, es) := DispatchGraph(env, s, graph, graphId, true, round.draws);
      && es.Ok? && Looped(s, s1, es.value, ReadyKeys(graph.nodes, graphId, Satisfied(s, graphId)))
      && Admits(s1, graph) && Gateable(s1, es.value)
  {
    var ready := Satisfied(s, graphId);
    var (s1, es) := DispatchGraph(env, s, graph, graphId, true, round.draws);
    LoopGrows(env, s, graph.nodes, graphId, ready, round.draws);
    GrownAdmits(s, s1, graph);
    ReturnedGateable(s, s1, graph, graphId, es.value, ready);
  }

  lemma WaveKeeps(env: Env, s: Control, graph: WorkGraph, graphId: string, round: Round)
    requires Between(s, graph, graphId) && GoodRound(s, graph, round)
    ensures var s1 := DispatchGraph(env, s, graph, graphId, true, round.draws).0; var s' := Wave(env, s, graph, graphId, round);
      Between(s', graph, graphId) && s'.byNode == s1.byNode && s.byNode.Keys <= s1.byNode.Keys
  {
    WaveDispatches(env, s, graph, graphId, round);
    var (s1, es) := DispatchGraph(env, s, graph, graphId, true, round.draws);
    PassOpenPasses(env, s1, es.value, round.evidence, round.now);
    var s' := Wave(env, s, graph, graphId, round);
    OwnersOfWave(s, s1, graph, graphId, es.value, ReadyKeys(graph.nodes, graphId, Satisfied(s, graphId)), s');
    JudgedAdmits(s1, s', graph);
  }

  /** Each wave leaves fewer nodes without an owner, until none is left. */
  lemma WaveProgress(env: Env, s: Control, graph: WorkGraph, graphId: string, round: Round)
    requires Between(s, graph, graphId) && GoodRound(s, graph, round)
    ensures var s' := Wave(env, s, graph, graphId, round);
      && Between(s', graph, graphId) && Unowned(s', graph, graphId) <= Unowned(s, graph, graphId)
      && (Unowned(s, graph, graphId) != {} ==> Unowned(s', graph, graphId) != Unowned(s, graph, graphId))
  {
    WaveKeeps(env, s, graph, graphId, round);
    if Unowned(s, graph, graphId) != {} { WaveOwnsMore(env, s, graph, graphId, round); }
  }

  lemma WaveOwnsMore(env: Env, s: Control, graph: WorkGraph, graphId: string, round: Round)
    requires Between(s, graph, graphId) && GoodRound(s, graph, round) && Unowned(s, graph, graphId) != {}
    ensures Unowned(DispatchGraph(env, s, graph, graphId, true, round.draws).0, graph, graphId) != Unowned(s, graph, graphId)
  {
    ShipsWhenAllOwned(s, graph, graphId);
    NoDeadlock(env, s, graph, graphId, round.draws);
    var s1 := DispatchGraph(env, s, graph, graphId, true, round.draws).0;
    var i :| 0 <= i < |graph.nodes| && NewlyOwned(s, s1, (graphId, graph.nodes[i].id));
    assert graph.nodes[i].id in Unowned(s, graph, graphId);
    assert graph.nodes[i].id !in Unowned(s1, graph, graphId) by {
      assert forall j :: 0 <= j < |graph.nodes| && graph.nodes[j].id == graph.nodes[i].id ==> (graphId, graph.nodes[j].id) in s1.byNode;
    }
  }

  // ---------- all the waves ----------

  /** Every wave draws fresh task ids and has evidence for its gates. */
  ghost predicate GoodRounds(env: Env, s: Control, graph: WorkGraph, graphId: string, rounds: seq<Round>)
    requires Between(s, graph, graphId)
    decreases |rounds|
  {
    rounds == [] || (GoodRound(s, graph, rounds[0])
                     && (WaveKeeps(env, s, graph, graphId, rounds[0]);
                         GoodRounds(env, Wave(env, s, graph, graphId, rounds[0]), graph, graphId, rounds[1..])))
  }

  ghost function AfterWaves(env: Env, s: Control, graph: WorkGraph, graphId: string, rounds: seq<Round>): (s': Control)
    requires Between(s, graph, graphId) && GoodRounds(env, s, graph, graphId, rounds)
    ensures Between(s', graph, graphId)
    decreases |rounds|
  {
    if rounds == [] then s
    else
      WaveKeeps(env, s, graph, graphId, rounds[0]);
      AfterWaves(env, Wave(env, s, graph, graphId, rounds[0]), graph, graphId, rounds[1..])
  }

  lemma ProperSubsetSmaller(a: set<string>, b: set<string>)
    requires a <= b
    ensures |a| <= |b| && (a != b ==> |a| < |b|)
  {
    assert b == a + (b - a);
  }

  lemma {:induction false} WavesOwnAll(env: Env, s: Control, graph: WorkGraph, graphId: string, rounds: seq<Round>)
    requires Between(s, graph, graphId) && GoodRounds(env, s, graph, graphId, rounds)
    requires |rounds| >= |Unowned(s, graph, graphId)|
    ensures Unowned(AfterWaves(env, s, graph, graphId, rounds), graph, graphId) == {}
    decreases |rounds|
  {
    if rounds != [] {
      var s' := Wave(env, s, graph, graphId, rounds[0]);
      WaveProgress(env, s, graph, graphId, rounds[0]);
      ProperSubsetSmaller(Unowned(s', graph, graphId), Unowned(s, graph, graphId));
      WavesOwnAll(env, s', graph, graphId, rounds[1..]);
    }
  }

  lemma {:induction false} FewIds(nodes: seq<WorkNode>)
    ensures |set i | 0 <= i < |nodes| :: nodes[i].id| <= |nodes|
  {
    var ids := set i | 0 <= i < |nodes| :: nodes[i].id;
    if nodes == [] {
      assert ids == {};
    } else {
      var last := |nodes| - 1;
      FewIds(nodes[..last]);
      var before := set i | 0 <= i < last :: nodes[..last][i].id;
      assert ids == before + {nodes[last].id};
    }
  }

  /** As many waves as the graph has nodes make it shippable. */
  lemma ShipsWithinWaves(env: Env, s: Control, graph: WorkGraph, graphId: string, rounds: seq<Round>)
    requires Between(s, graph, graphId) && GoodRounds(env, s, graph, graphId, rounds) && |rounds| >= |graph.nodes|
    ensures MayShip(AfterWaves(env, s, graph, graphId, rounds), graph, graphId)
  {
    FewIds(graph.nodes);
    assert Unowned(s, graph, graphId) <= graph.Ids();
    ProperSubsetSmaller(Unowned(s, graph, graphId), graph.Ids());
    WavesOwnAll(env, s, graph, graphId, rounds);
    ShipsWhenAllOwned(AfterWaves(env, s, graph, graphId, rounds), graph, graphId);
  }
}
