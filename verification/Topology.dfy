/** Teams, leads, rosters and gate ownership (topology.py). */
module Topology {
  import opened Basics
  import opened LogText
  import Gates

  const MIN_CHARTER_CHARS := 40

  datatype Team = Team(name: string, lead: string, charter: string, gatesOwned: seq<string>,
                       subagents: seq<string>, tools: seq<string>)
  {
    predicate Valid() {
      && |Strip(charter)| >= MIN_CHARTER_CHARS
      && lead != ""
      && subagents != []
      && (forall i :: 0 <= i < |gatesOwned| ==>
            Gates.Known(gatesOwned[i]) && Gates.Lookup(gatesOwned[i]).value.ownerTeam == name)
    }
  }

  /** str.strip. */
  function Strip(s: string): string {
    if s != "" && IsSpace(s[0]) then Strip(s[1..])
    else if s != "" && IsSpace(s[|s| - 1]) then Strip(s[..|s| - 1])
    else s
  }

  datatype Topology = Topology(version: int, teams: seq<Team>)
  {
    predicate DistinctTeams() {
      forall i, j :: 0 <= i < j < |teams| ==> teams[i].name != teams[j].name && teams[i].lead != teams[j].lead
    }

    function Rosters(): seq<seq<string>> {
      seq(|teams|, i requires 0 <= i < |teams| => teams[i].subagents)
    }

    function GateClaims(): seq<seq<string>> {
      seq(|teams|, i requires 0 <= i < |teams| => teams[i].gatesOwned)
    }

    /** Every registered gate is claimed at exactly one place. */
    predicate OneOwnerPerGate() {
      && ListedOnce(GateClaims())
      && (forall k :: 0 <= k < |Gates.GATES| ==> ClaimedBySome(this, Gates.GATES[k].name))
    }

    predicate Valid() {
      && version == 1
      && teams != []
      && (forall i :: 0 <= i < |teams| ==> teams[i].Valid())
      && DistinctTeams()
      && ListedOnce(Rosters())
      && OneOwnerPerGate()
    }

    function TeamNamed(name: string): Option<Team> {
      FindTeam(teams, name)
    }

    function TeamForGate(gate: string): Option<Team> {
      FindOwner(teams, gate)
    }

    predicate Declares(name: string) {
      TeamNamed(name).Some?
    }

    function Names(): set<string> {
      set i | 0 <= i < |teams| :: teams[i].name
    }
  }

  /** No name occurs twice, in one list or in two. */
  predicate ListedOnce(lists: seq<seq<string>>) {
    forall i, a, j, b |
      && 0 <= i < |lists| && 0 <= a < |lists[i]| && 0 <= j < |lists| && 0 <= b < |lists[j]|
      && lists[i][a] == lists[j][b]
      :: i == j && a == b
  }

  function FindTeam(teams: seq<Team>, name: string): (r: Option<Team>)
    ensures r.Some? ==> r.value.name == name
  {
    if teams == [] then None
    else if teams[0].name == name then Some(teams[0])
    else FindTeam(teams[1..], name)
  }

  lemma {:induction false} FindTeamIff(teams: seq<Team>, name: string)
    ensures FindTeam(teams, name).Some? <==> exists i :: 0 <= i < |teams| && teams[i].name == name
  {
    if teams != [] {
      FindTeamIff(teams[1..], name);
      assert forall i :: 1 <= i < |teams| ==> teams[i] == teams[1..][i - 1];
    }
  }

  lemma DeclaresIff(t: Topology, name: string)
    ensures t.Declares(name) <==> name in t.Names()
  {
    FindTeamIff(t.teams, name);
  }

  function FindOwner(teams: seq<Team>, gate: string): Option<Team> {
    if teams == [] then None
    else if gate in teams[0].gatesOwned then Some(teams[0])
    else FindOwner(teams[1..], gate)
  }

  lemma {:induction false} FindOwnerIff(teams: seq<Team>, gate: string)
    ensures FindOwner(teams, gate).Some? <==> exists i :: 0 <= i < |teams| && gate in teams[i].gatesOwned
    ensures FindOwner(teams, gate).Some? ==>
      exists i :: 0 <= i < |teams| && teams[i] == FindOwner(teams, gate).value && gate in teams[i].gatesOwned
  {
    if teams != [] {
      FindOwnerIff(teams[1..], gate);
      assert forall i :: 1 <= i < |teams| ==> teams[i] == teams[1..][i - 1];
      if gate !in teams[0].gatesOwned && FindOwner(teams, gate).Some? {
        var i :| 0 <= i < |teams[1..]| && teams[1..][i] == FindOwner(teams, gate).value && gate in teams[1..][i].gatesOwned;
        assert teams[i + 1] == FindOwner(teams, gate).value;
      }
    }
  }

  /** In a valid topology a registered gate is looked up to its only owner, and that owner
      is the team the registry names. */
  lemma GateOwnerIsUnique(t: Topology, gate: string)
    requires t.Valid() && Gates.Known(gate)
    ensures t.TeamForGate(gate).Some?
    ensures t.TeamForGate(gate).value.name == Gates.Lookup(gate).value.ownerTeam
    ensures forall i :: 0 <= i < |t.teams| && gate in t.teams[i].gatesOwned ==> t.teams[i] == t.TeamForGate(gate).value
  {
    Gates.FindIff(Gates.GATES, gate);
    FindOwnerIff(t.teams, gate);
    var k :| 0 <= k < |Gates.GATES| && Gates.GATES[k].name == gate;
    assert ClaimedBySome(t, Gates.GATES[k].name);
    var o :| 0 <= o < |t.teams| && t.teams[o] == t.TeamForGate(gate).value && gate in t.teams[o].gatesOwned;
    var a :| 0 <= a < |t.teams[o].gatesOwned| && t.teams[o].gatesOwned[a] == gate;
    assert t.teams[o].Valid();
    forall i | 0 <= i < |t.teams| && gate in t.teams[i].gatesOwned ensures t.teams[i] == t.teams[o] {
      assert t.GateClaims()[i] == t.teams[i].gatesOwned && t.GateClaims()[o] == t.teams[o].gatesOwned;
      var b :| 0 <= b < |t.teams[i].gatesOwned| && t.teams[i].gatesOwned[b] == gate;
    }
  }

  // ---------- the validating loops ----------

  /** Position (i, a) of the lists comes before position (n, k) in reading order. */
  ghost predicate Read(lists: seq<seq<string>>, i: int, a: int, n: int, k: int) {
    0 <= i < |lists| && 0 <= a < |lists[i]| && (i < n || (i == n && a < k))
  }

  /** `seen` holds exactly the names read before (n, k), and none was read twice. */
  ghost predicate SeenSoFar(lists: seq<seq<string>>, n: int, k: int, seen: set<string>) {
    && (forall i, a :: Read(lists, i, a, n, k) ==> lists[i][a] in seen)
    && (forall s :: s in seen ==> exists i, a :: Read(lists, i, a, n, k) && lists[i][a] == s)
    && (forall i, a, j, b ::
          Read(lists, i, a, n, k) && Read(lists, j, b, n, k) && lists[i][a] == lists[j][b] ==> i == j && a == b)
  }

  lemma SeenStep(lists: seq<seq<string>>, n: int, k: int, seen: set<string>)
    requires SeenSoFar(lists, n, k, seen)
    requires 0 <= n < |lists| && 0 <= k < |lists[n]| && lists[n][k] !in seen
    ensures SeenSoFar(lists, n, k + 1, seen + {lists[n][k]})
  {
    assert forall i, a :: Read(lists, i, a, n, k + 1) <==> Read(lists, i, a, n, k) || (i == n && a == k);
    assert Read(lists, n, k, n, k + 1);
  }

  lemma SeenNextList(lists: seq<seq<string>>, n: int, seen: set<string>)
    requires 0 <= n < |lists| && SeenSoFar(lists, n, |lists[n]|, seen)
    ensures SeenSoFar(lists, n + 1, 0, seen)
  {
    assert forall i, a :: Read(lists, i, a, n, |lists[n]|) <==> Read(lists, i, a, n + 1, 0);
  }

  lemma SeenAll(lists: seq<seq<string>>, seen: set<string>)
    requires SeenSoFar(lists, |lists|, 0, seen)
    ensures ListedOnce(lists)
    ensures forall s :: s in seen <==> exists i :: 0 <= i < |lists| && s in lists[i]
  {
    assert forall i, a :: 0 <= i < |lists| && 0 <= a < |lists[i]| ==> Read(lists, i, a, |lists|, 0);
    forall s | s in seen ensures exists i :: 0 <= i < |lists| && s in lists[i] {
      var i, a :| Read(lists, i, a, |lists|, 0) && lists[i][a] == s;
    }
    forall s, i | 0 <= i < |lists| && s in lists[i] ensures s in seen {
      var a :| 0 <= a < |lists[i]| && lists[i][a] == s;
    }
  }

  /** The roster and claim loops: read every list, refusing the first repeated name. */
  method ReadOnce(lists: seq<seq<string>>) returns (ok: bool, seen: set<string>)
    ensures ok <==> ListedOnce(lists)
    ensures ok ==> forall s :: s in seen <==> exists i :: 0 <= i < |lists| && s in lists[i]
  {
    seen := {};
    var n := 0;
    while n < |lists|
      invariant 0 <= n <= |lists| && SeenSoFar(lists, n, 0, seen)
    {
      var k := 0;
      while k < |lists[n]|
        invariant 0 <= k <= |lists[n]| && SeenSoFar(lists, n, k, seen)
      {
        if lists[n][k] in seen {
          ghost var i, a :| Read(lists, i, a, n, k) && lists[i][a] == lists[n][k];
          return false, seen;
        }
        SeenStep(lists, n, k, seen);
        seen := seen + {lists[n][k]};
        k := k + 1;
      }
      SeenNextList(lists, n, seen);
      n := n + 1;
    }
    SeenAll(lists, seen);
    ok := true;
  }

  /** `_validate_gate_coverage` accepts exactly the topologies with one owner per gate. */
  method ValidateGateCoverage(t: Topology) returns (r: Result<()>)
    ensures r.Ok? <==> t.OneOwnerPerGate()
    ensures r.Ok? || r == Err(TopologyError)
  {
    var ok, claimed := ReadOnce(t.GateClaims());
    if !ok {
      return Err(TopologyError);
    }
    assert forall i :: 0 <= i < |t.teams| ==> t.GateClaims()[i] == t.teams[i].gatesOwned;
    var k := 0;
    while k < |Gates.GATES|
      invariant 0 <= k <= |Gates.GATES|
      invariant forall j :: 0 <= j < k ==> ClaimedBySome(t, Gates.GATES[j].name)
    {
      if Gates.GATES[k].name !in claimed {
        assert !ClaimedBySome(t, Gates.GATES[k].name);
        return Err(TopologyError);
      }
      k := k + 1;
    }
    r := Ok(());
  }

  /** Some team lists the gate. */
  predicate ClaimedBySome(t: Topology, gate: string) {
    exists i :: 0 <= i < |t.teams| && gate in t.teams[i].gatesOwned
  }

  /** `Topology.validate` accepts exactly the valid topologies. */
  method Validate(t: Topology) returns (r: Result<()>)
    ensures r.Ok? <==> t.Valid()
    ensures r.Ok? || r == Err(TopologyError)
  {
    if t.version != 1 || t.teams == [] {
      return Err(TopologyError);
    }
    var names, leads: set<string> := {}, {};
    var n := 0;
    while n < |t.teams|
      invariant 0 <= n <= |t.teams|
      invariant names == set i | 0 <= i < n :: t.teams[i].name
      invariant leads == set i | 0 <= i < n :: t.teams[i].lead
      invariant forall i :: 0 <= i < n ==> t.teams[i].Valid()
      invariant forall i, j :: 0 <= i < j < n ==> t.teams[i].name != t.teams[j].name && t.teams[i].lead != t.teams[j].lead
    {
      if !t.teams[n].Valid() || t.teams[n].name in names || t.teams[n].lead in leads {
        return Err(TopologyError);
      }
      names := names + {t.teams[n].name};
      leads := leads + {t.teams[n].lead};
      n := n + 1;
    }
    var once, _ := ReadOnce(t.Rosters());
    if !once {
      return Err(TopologyError);
    }
    r := ValidateGateCoverage(t);
  }
}
