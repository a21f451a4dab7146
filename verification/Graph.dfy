/** Validating a work graph (schema.py: WorkGraph.validate and its two loops). */
module Graph {
  import opened Basics
  import opened LogText
  import opened Schema

  /** Node id to the set of its dependencies. */
  function Dependencies(g: WorkGraph): map<string, set<string>>
    requires g.UniqueIds()
  {
    map i | 0 <= i < |g.nodes| :: g.nodes[i].id := set d | d in g.nodes[i].dependsOn
  }

  /** The same rank condition on the dependency sets. */
  ghost predicate Ranks(deps: map<string, set<string>>, rank: map<string, nat>) {
    && deps.Keys <= rank.Keys
    && forall n, d :: n in deps && d in deps[n] ==> d in rank && rank[d] < rank[n]
  }

  lemma DependenciesAt(g: WorkGraph, i: nat)
    requires g.UniqueIds() && i < |g.nodes|
    ensures g.nodes[i].id in Dependencies(g)
    ensures Dependencies(g)[g.nodes[i].id] == set d | d in g.nodes[i].dependsOn
  {}

  lemma RankedIffRanks(g: WorkGraph, rank: map<string, nat>)
    requires g.UniqueIds()
    ensures g.RankedBy(rank) <==> Ranks(Dependencies(g), rank)
  {
    var deps := Dependencies(g);
    if g.RankedBy(rank) {
      forall n, d | n in deps && d in deps[n] ensures d in rank && rank[d] < rank[n] {
        var i :| 0 <= i < |g.nodes| && g.nodes[i].id == n;
        DependenciesAt(g, i);
        var k :| 0 <= k < |g.nodes[i].dependsOn| && g.nodes[i].dependsOn[k] == d;
      }
    }
    if Ranks(deps, rank) {
      forall i | 0 <= i < |g.nodes| ensures g.nodes[i].id in rank {
        DependenciesAt(g, i);
      }
      forall i, k | 0 <= i < |g.nodes| && 0 <= k < |g.nodes[i].dependsOn|
        ensures g.nodes[i].dependsOn[k] in rank && rank[g.nodes[i].dependsOn[k]] < rank[g.nodes[i].id]
      {
        DependenciesAt(g, i);
        assert g.nodes[i].dependsOn[k] in deps[g.nodes[i].id];
      }
    }
  }

  // ---------- dependency cycles ----------

  /** A walk along dependencies that comes back to where it started. */
  predicate IsCycle(deps: map<string, set<string>>, walk: seq<string>) {
    |walk| >= 2 && walk[0] == walk[|walk| - 1] && IsWalk(deps, walk)
  }

  predicate IsWalk(deps: map<string, set<string>>, walk: seq<string>) {
    forall i :: 0 <= i < |walk| - 1 ==> walk[i] in deps && walk[i + 1] in deps[walk[i]]
  }

  lemma {:induction false} RankFallsAlong(deps: map<string, set<string>>, rank: map<string, nat>, walk: seq<string>, i: nat)
    requires Ranks(deps, rank) && IsWalk(deps, walk) && 0 < i < |walk|
    ensures walk[0] in rank && walk[i] in rank && rank[walk[i]] < rank[walk[0]]
  {
    if i > 1 { RankFallsAlong(deps, rank, walk, i - 1); }
    assert walk[i - 1] in deps && walk[i - 1 + 1] in deps[walk[i - 1]];
  }

  /** A ranked graph has no cycle. */
  lemma RankedHasNoCycle(deps: map<string, set<string>>, rank: map<string, nat>, walk: seq<string>)
    requires Ranks(deps, rank)
    ensures !IsCycle(deps, walk)
  {
    if IsCycle(deps, walk) { RankFallsAlong(deps, rank, walk, |walk| - 1); }
  }

  /** A walk of any length inside a set where every node has a dependency in the set. */
  lemma {:induction false} LongWalk(deps: map<string, set<string>>, s: set<string>, n: nat) returns (walk: seq<string>)
    requires s != {} && s <= deps.Keys
    requires forall x :: x in s ==> deps[x] * s != {}
    ensures |walk| == n + 1 && IsWalk(deps, walk) && forall i :: 0 <= i <= n ==> walk[i] in s
  {
    if n == 0 {
      var x :| x in s;
      walk := [x];
    } else {
      var shorter := LongWalk(deps, s, n - 1);
      var x :| x in deps[shorter[n - 1]] * s;
      walk := shorter + [x];
    }
  }

  /** More places than values: some value repeats. */
  lemma {:induction false} Pigeonhole(walk: seq<string>, s: set<string>) returns (i: nat, j: nat)
    requires |walk| > |s| && forall k :: 0 <= k < |walk| ==> walk[k] in s
    ensures i < j < |walk| && walk[i] == walk[j]
  {
    var last := |walk| - 1;
    if k :| 0 <= k < last && walk[k] == walk[last] {
      i, j := k, last;
    } else {
      var rest := s - {walk[last]};
      assert forall k :: 0 <= k < last ==> walk[..last][k] in rest;
      i, j := Pigeonhole(walk[..last], rest);
    }
  }

  lemma CycleInside(deps: map<string, set<string>>, s: set<string>) returns (cycle: seq<string>)
    requires s != {} && s <= deps.Keys
    requires forall x :: x in s ==> deps[x] * s != {}
    ensures IsCycle(deps, cycle) && forall i :: 0 <= i < |cycle| ==> cycle[i] in s
  {
    var walk := LongWalk(deps, s, |s|);
    var i, j := Pigeonhole(walk, s);
    cycle := walk[i..j + 1];
    assert forall k :: 0 <= k < |cycle| ==> cycle[k] == walk[i + k];
    forall k | 0 <= k < |cycle| - 1 ensures cycle[k] in deps && cycle[k + 1] in deps[cycle[k]] {
      assert walk[i + k + 1] in deps[walk[i + k]];
    }
  }

  /** A concrete dependency cycle among the reported nodes. */
  ghost predicate CycleAmong(deps: map<string, set<string>>, stuck: set<string>) {
    exists cycle :: IsCycle(deps, cycle) && forall i :: 0 <= i < |cycle| ==> cycle[i] in stuck
  }

  // ---------- the loops ----------

  /** After some waves: the nodes still pending keep exactly their pending dependencies,
      and the nodes already peeled off are ranked by their wave. */
  ghost predicate Peeled(deps: map<string, set<string>>, pending: map<string, set<string>>,
                         rank: map<string, nat>, wave: nat) {
    && pending.Keys <= deps.Keys && rank.Keys == deps.Keys - pending.Keys
    && (forall n :: n in pending ==> pending[n] == deps[n] * pending.Keys)
    && (forall n :: n in rank ==> rank[n] < wave)
    && (forall n, d :: n in rank && d in deps[n] ==> d in rank && rank[d] < rank[n])
  }

  function Ready(pending: map<string, set<string>>): set<string> {
    set n | n in pending && pending[n] == {}
  }

  function Peel(pending: map<string, set<string>>): map<string, set<string>> {
    map n | n in pending && pending[n] != {} :: pending[n] - Ready(pending)
  }

  lemma PeelRanks(deps: map<string, set<string>>, pending: map<string, set<string>>, rank: map<string, nat>, wave: nat)
    requires Peeled(deps, pending, rank, wave)
    requires forall n :: n in deps ==> deps[n] <= deps.Keys
    ensures var rank' := rank + map n | n in Ready(pending) :: wave;
      forall n, d :: n in rank' && d in deps[n] ==> d in rank' && rank'[d] < rank'[n]
  {
    var ready := Ready(pending);
    var rank' := rank + map n | n in ready :: wave;
    forall n, d | n in rank' && d in deps[n] ensures d in rank' && rank'[d] < rank'[n] {
      if n in ready {
        assert d !in deps[n] * pending.Keys;
      }
    }
  }

  lemma PeelKeeps(deps: map<string, set<string>>, pending: map<string, set<string>>, rank: map<string, nat>, wave: nat)
    requires Peeled(deps, pending, rank, wave)
    requires forall n :: n in deps ==> deps[n] <= deps.Keys
    ensures Peel(pending).Keys == pending.Keys - Ready(pending)
    ensures Peeled(deps, Peel(pending), rank + map n | n in Ready(pending) :: wave, wave + 1)
  {
    var left := Peel(pending);
    PeelRanks(deps, pending, rank, wave);
    forall n | n in left ensures left[n] == deps[n] * left.Keys {
      assert pending[n] == deps[n] * pending.Keys;
    }
  }

  lemma StuckCycle(deps: map<string, set<string>>, pending: map<string, set<string>>, rank: map<string, nat>, wave: nat)
    returns (cycle: seq<string>)
    requires Peeled(deps, pending, rank, wave) && pending.Keys != {} && Ready(pending) == {}
    ensures IsCycle(deps, cycle) && forall i :: 0 <= i < |cycle| ==> cycle[i] in pending.Keys
  {
    forall x | x in pending.Keys ensures deps[x] * pending.Keys != {} {
      assert x !in Ready(pending) && pending[x] == deps[x] * pending.Keys;
    }
    cycle := CycleInside(deps, pending.Keys);
  }

  lemma StuckHasCycle(g: WorkGraph, pending: map<string, set<string>>, rank: map<string, nat>, wave: nat)
    requires g.UniqueIds() && Peeled(Dependencies(g), pending, rank, wave)
    requires pending.Keys != {} && Ready(pending) == {}
    ensures !g.Acyclic() && CycleAmong(Dependencies(g), pending.Keys)
  {
    var cycle := StuckCycle(Dependencies(g), pending, rank, wave);
    CycleIsNotAcyclic(g, cycle);
  }

  lemma CycleIsNotAcyclic(g: WorkGraph, cycle: seq<string>)
    requires g.UniqueIds() && IsCycle(Dependencies(g), cycle)
    ensures !g.Acyclic()
  {
    forall rank ensures !g.RankedBy(rank) {
      RankedIffRanks(g, rank);
      if Ranks(Dependencies(g), rank) { RankedHasNoCycle(Dependencies(g), rank, cycle); }
    }
  }

  /** `_reject_cycles`: peel off the nodes without open dependencies, wave by wave. It
      accepts exactly the graphs that a rank orders, and what it reports when it refuses
      contains a concrete cycle. */
  method RejectCycles(g: WorkGraph) returns (r: Result<()>, stuck: set<string>)
    requires g.UniqueIds() && g.KnownDependencies()
    ensures r.Ok? <==> g.Acyclic()
    ensures r.Ok? || r == Err(SchemaError)
    ensures r.Err? ==> stuck <= g.Ids() && CycleAmong(Dependencies(g), stuck)
  {
    ghost var deps := Dependencies(g);
    var pending := Dependencies(g);
    ghost var rank: map<string, nat> := map[];
    ghost var wave: nat := 0;
    DependenciesClosed(g);
    while pending.Keys != {}
      invariant Peeled(deps, pending, rank, wave)
      decreases pending.Keys
    {
      if Ready(pending) == {} {
        StuckHasCycle(g, pending, rank, wave);
        return Err(SchemaError), pending.Keys;
      }
      PeelKeeps(deps, pending, rank, wave);
      rank := rank + map n | n in Ready(pending) :: wave;
      wave := wave + 1;
      pending := Peel(pending);
    }
    assert Ranks(deps, rank);
    RankedIffRanks(g, rank);
    return Ok(()), {};
  }

  lemma DependenciesClosed(g: WorkGraph)
    requires g.UniqueIds() && g.KnownDependencies()
    ensures Dependencies(g).Keys == g.Ids()
    ensures forall n :: n in Dependencies(g) ==> Dependencies(g)[n] <= g.Ids()
  {
    var deps := Dependencies(g);
    forall n, d | n in deps && d in deps[n] ensures d in g.Ids() {
      var i :| 0 <= i < |g.nodes| && g.nodes[i].id == n;
      DependenciesAt(g, i);
      var k :| 0 <= k < |g.nodes[i].dependsOn| && g.nodes[i].dependsOn[k] == d;
    }
  }

  /** The artifact claims of the nodes before n and the first refs of node n. */
  ghost predicate Claims(g: WorkGraph, n: nat, refs: nat, i: int, a: int) {
    0 <= i < |g.nodes| && 0 <= a < |g.nodes[i].deliverables| && (i < n || (i == n && a < refs))
  }

  /** What `owners` records: every claimed path with the team that claimed it. */
  ghost predicate OwnersSoFar(g: WorkGraph, n: nat, refs: nat, owners: map<string, string>) {
    && (forall i, a | Claims(g, n, refs, i, a) ::
          g.nodes[i].deliverables[a].path in owners && owners[g.nodes[i].deliverables[a].path] == g.nodes[i].team)
    && (forall p :: p in owners ==> exists i, a :: Claims(g, n, refs, i, a) && g.nodes[i].deliverables[a].path == p)
  }

  /** `_reject_shared_deliverables` accepts exactly the graphs where one team claims each
      artifact. The node id kept beside the team only words the message. */
  method RejectSharedDeliverables(g: WorkGraph) returns (r: Result<()>)
    ensures r.Ok? <==> g.OneTeamPerArtifact()
    ensures r.Ok? || r == Err(SchemaError)
  {
    var owners: map<string, string> := map[];
    var n := 0;
    while n < |g.nodes|
      invariant 0 <= n <= |g.nodes|
      invariant OwnersSoFar(g, n, 0, owners)
    {
      var node := g.nodes[n];
      var k := 0;
      while k < |node.deliverables|
        invariant 0 <= k <= |node.deliverables|
        invariant OwnersSoFar(g, n, k, owners)
      {
        var path := node.deliverables[k].path;
        if path in owners && owners[path] != node.team {
          ghost var i, a :| Claims(g, n, k, i, a) && g.nodes[i].deliverables[a].path == path;
          assert g.nodes[i].team != g.nodes[n].team;
          return Err(SchemaError);
        }
        OwnersStep(g, n, k, owners);
        owners := owners[path := node.team];
        k := k + 1;
      }
      OwnersNextNode(g, n, owners);
      n := n + 1;
    }
    OwnersAgree(g, owners);
    r := Ok(());
  }

  lemma OwnersStep(g: WorkGraph, n: nat, k: nat, owners: map<string, string>)
    requires n < |g.nodes| && k < |g.nodes[n].deliverables| && OwnersSoFar(g, n, k, owners)
    requires var p := g.nodes[n].deliverables[k].path; p in owners ==> owners[p] == g.nodes[n].team
    ensures OwnersSoFar(g, n, k + 1, owners[g.nodes[n].deliverables[k].path := g.nodes[n].team])
  {
    var p := g.nodes[n].deliverables[k].path;
    var owners' := owners[p := g.nodes[n].team];
    assert Claims(g, n, k + 1, n, k);
    forall i, a | Claims(g, n, k + 1, i, a)
      ensures g.nodes[i].deliverables[a].path in owners' && owners'[g.nodes[i].deliverables[a].path] == g.nodes[i].team
    {
      assert Claims(g, n, k, i, a) || (i == n && a == k);
    }
    forall q | q in owners'
      ensures exists i, a :: Claims(g, n, k + 1, i, a) && g.nodes[i].deliverables[a].path == q
    {
      if q != p {
        var i, a :| Claims(g, n, k, i, a) && g.nodes[i].deliverables[a].path == q;
        assert Claims(g, n, k + 1, i, a);
      }
    }
  }

  lemma OwnersNextNode(g: WorkGraph, n: nat, owners: map<string, string>)
    requires n < |g.nodes| && OwnersSoFar(g, n, |g.nodes[n].deliverables|, owners)
    ensures OwnersSoFar(g, n + 1, 0, owners)
  {
    assert forall i, a :: Claims(g, n, |g.nodes[n].deliverables|, i, a) <==> Claims(g, n + 1, 0, i, a);
  }

  lemma OwnersAgree(g: WorkGraph, owners: map<string, string>)
    requires OwnersSoFar(g, |g.nodes|, 0, owners)
    ensures g.OneTeamPerArtifact()
  {
    assert forall i, a :: 0 <= i < |g.nodes| && 0 <= a < |g.nodes[i].deliverables| ==> Claims(g, |g.nodes|, 0, i, a);
  }

  /** `WorkGraph.validate` accepts exactly the valid graphs. */
  method Validate(g: WorkGraph) returns (r: Result<()>)
    ensures r.Ok? <==> g.Valid()
    ensures r.Ok? || r == Err(SchemaError)
  {
    if Blank(g.goal) || g.nodes == []
       || exists i :: 0 <= i < |g.invariantsTouched| && g.invariantsTouched[i] !in INVARIANTS {
      return Err(SchemaError);
    }
    var seen: set<string> := {};
    var n := 0;
    while n < |g.nodes|
      invariant 0 <= n <= |g.nodes|
      invariant seen == set i | 0 <= i < n :: g.nodes[i].id
      invariant forall i :: 0 <= i < n ==> g.nodes[i].Valid()
      invariant forall i, j :: 0 <= i < j < n ==> g.nodes[i].id != g.nodes[j].id
    {
      if !g.nodes[n].Valid() || g.nodes[n].id in seen {
        return Err(SchemaError);
      }
      seen := seen + {g.nodes[n].id};
      n := n + 1;
    }
    assert seen == g.Ids();
    if exists i :: 0 <= i < |g.nodes| && exists k :: 0 <= k < |g.nodes[i].dependsOn| && g.nodes[i].dependsOn[k] !in seen {
      return Err(SchemaError);
    }
    var acyclic, _ := RejectCycles(g);
    if acyclic.Err? {
      return acyclic;
    }
    r := RejectSharedDeliverables(g);
  }
}
