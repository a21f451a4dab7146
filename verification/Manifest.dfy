/** The manifest the repository ships (orchestration/topology.toml): seven teams, of which
    one owns no gate. It is valid, and stays valid without that team. */
module Manifest {
  import opened Basics
  import opened Topology
  import Gates

  const NAMES: seq<string> := ["threat-research", "policy", "runtime", "verification", "platform", "docs", "release"]

  const GATES_OWNED: seq<seq<string>> := [
    [], ["POLICY_CLEAN"], ["RUNTIME_SOUND"], ["VERIFY_PASS", "FAIL_CLOSED_PASS"], ["PLATFORM_READY"],
    ["SPEC_COMPLETE"], ["RELEASE_SIGNED"]
  ]

  const SUBAGENTS: seq<seq<string>> := [
    ["threat-delta", "adversary-triage"], ["nft-policy-audit", "egress-authority-review"],
    ["unsafe-interpolation-scan", "systemd-order-audit"], ["leak-test-author", "fail-closed-redteam"],
    ["image-provision-audit", "overlay-amnesia-check"], ["invariant-scribe", "operator-runbook"],
    ["release-gate-runner", "rollback-registrar"]
  ]

  /** The manifest with these charters; what tools a team declares decides nothing. */
  function Shipped(charters: seq<string>): Topology
    requires |charters| == 7
  {
    Topology(1, seq(7, i requires 0 <= i < 7 =>
      Team(NAMES[i], NAMES[i] + "-lead", charters[i], GATES_OWNED[i], SUBAGENTS[i], [])))
  }

  predicate Chartered(charters: seq<string>) {
    |charters| == 7 && forall i :: 0 <= i < 7 ==> |Strip(charters[i])| >= MIN_CHARTER_CHARS
  }

  // ---------- names ----------

  lemma NamesDiffer()
    ensures forall i, j :: 0 <= i < j < 7 ==> NAMES[i] != NAMES[j]
  {
    assert |NAMES[0]| == 15 && |NAMES[1]| == 6 && |NAMES[2]| == 7 && |NAMES[3]| == 12 && |NAMES[4]| == 8 && |NAMES[5]| == 4;
    assert |NAMES[6]| == 7 && NAMES[2][1] == 'u' && NAMES[6][1] == 'e';
  }

  lemma LeadsDiffer(a: string, b: string)
    requires a + "-lead" == b + "-lead"
    ensures a == b
  {
    assert (a + "-lead")[..|a|] == a && (b + "-lead")[..|b|] == b;
  }

  lemma TeamsDistinct(charters: seq<string>)
    requires |charters| == 7
    ensures Shipped(charters).DistinctTeams()
  {
    var t := Shipped(charters);
    NamesDiffer();
    forall i, j | 0 <= i < j < |t.teams| ensures t.teams[i].name != t.teams[j].name && t.teams[i].lead != t.teams[j].lead {
      if t.teams[i].lead == t.teams[j].lead { LeadsDiffer(NAMES[i], NAMES[j]); }
    }
  }

  // ---------- gates ----------

  /** The position in the registry of the gate that is listed at (i, a). */
  function Listed(i: int, a: int): int {
    if i == 1 then 1 else if i == 2 then 2 else if i == 3 && a == 0 then 3 else if i == 3 then 4
    else if i == 4 then 5 else if i == 5 then 0 else 6
  }

  lemma GatesListed(i: int, a: int)
    requires 0 <= i < 7 && 0 <= a < |GATES_OWNED[i]|
    ensures 0 <= Listed(i, a) < |Gates.GATES| && GATES_OWNED[i][a] == Gates.GATES[Listed(i, a)].name
    ensures Gates.GATES[Listed(i, a)].ownerTeam == NAMES[i]
  {
    assert i == 1 || i == 2 || i == 3 || i == 4 || i == 5 || i == 6;
  }

  lemma RegistryDistinct()
    ensures forall i, j :: 0 <= i < j < |Gates.GATES| ==> Gates.GATES[i].name != Gates.GATES[j].name
  {
    assert Gates.GATES[0].name[0] == 'S' && Gates.GATES[1].name[1] == 'O' && Gates.GATES[2].name[1] == 'U';
    assert Gates.GATES[3].name[0] == 'V' && Gates.GATES[4].name[0] == 'F' && Gates.GATES[5].name[1] == 'L';
    assert Gates.GATES[6].name[1] == 'E' && Gates.GATES[3].name[1] == 'E' && Gates.GATES[6].name[0] == 'R';
    assert Gates.GATES[1].name[0] == 'P' && Gates.GATES[2].name[0] == 'R' && Gates.GATES[5].name[0] == 'P';
  }

  lemma {:induction false} FirstOfName(gates: seq<Gates.Gate>, k: nat)
    requires k < |gates| && forall j :: 0 <= j < k ==> gates[j].name != gates[k].name
    ensures Gates.Find(gates, gates[k].name) == Some(gates[k])
  {
    if k > 0 {
      assert gates[1..][k - 1] == gates[k] && forall j :: 0 <= j < k - 1 ==> gates[1..][j] == gates[j + 1];
      FirstOfName(gates[1..], k - 1);
    }
  }

  lemma LookedUp(k: nat)
    requires k < |Gates.GATES|
    ensures Gates.Lookup(Gates.GATES[k].name) == Some(Gates.GATES[k])
  {
    RegistryDistinct();
    FirstOfName(Gates.GATES, k);
  }

  lemma GatesOfOwner(i: int)
    requires 0 <= i < 7
    ensures forall a :: 0 <= a < |GATES_OWNED[i]| ==>
      Gates.Known(GATES_OWNED[i][a]) && Gates.Lookup(GATES_OWNED[i][a]).value.ownerTeam == NAMES[i]
  {
    forall a | 0 <= a < |GATES_OWNED[i]|
      ensures Gates.Known(GATES_OWNED[i][a]) && Gates.Lookup(GATES_OWNED[i][a]).value.ownerTeam == NAMES[i]
    {
      GatesListed(i, a);
      LookedUp(Listed(i, a));
    }
  }

  lemma ClaimsOnce()
    ensures ListedOnce(GATES_OWNED)
  {
    forall i, a, j, b |
      && 0 <= i < |GATES_OWNED| && 0 <= a < |GATES_OWNED[i]| && 0 <= j < |GATES_OWNED| && 0 <= b < |GATES_OWNED[j]|
      && GATES_OWNED[i][a] == GATES_OWNED[j][b]
      ensures i == j && a == b
    {
      GatesListed(i, a);
      GatesListed(j, b);
      RegistryDistinct();
      assert Listed(i, a) == Listed(j, b);
      assert |GATES_OWNED[3]| == 2;
    }
  }

  lemma AllClaimed(k: nat) returns (i: nat)
    requires k < |Gates.GATES|
    ensures i < 7 && Gates.GATES[k].name in GATES_OWNED[i]
  {
    i := if k == 0 then 5 else if k <= 3 then k else if k == 4 then 3 else if k == 5 then 4 else 6;
    var a := if k == 4 then 1 else 0;
    assert GATES_OWNED[i][a] == Gates.GATES[k].name;
  }

  // ---------- rosters ----------

  /** A sub-agent's place, told from the first two letters of its name. */
  function Place(s: string): int
    requires |s| >= 2
  {
    match s[0]
    case 't' => 0
    case 'a' => 1
    case 'n' => 2
    case 'e' => 3
    case 'u' => 4
    case 's' => 5
    case 'l' => 6
    case 'f' => 7
    case 'i' => if s[1] == 'm' then 8 else 10
    case 'o' => if s[1] == 'v' then 9 else 11
    case _ => if s[1] == 'e' then 12 else 13
  }

  lemma Placed(i: int)
    requires 0 <= i < 7
    ensures |SUBAGENTS[i]| == 2 && |SUBAGENTS[i][0]| >= 2 && |SUBAGENTS[i][1]| >= 2
    ensures Place(SUBAGENTS[i][0]) == 2 * i && Place(SUBAGENTS[i][1]) == 2 * i + 1
  {
    assert i == 0 || i == 1 || i == 2 || i == 3 || i == 4 || i == 5 || i == 6;
  }

  lemma RostersOnce()
    ensures ListedOnce(SUBAGENTS)
  {
    forall i, a, j, b |
      && 0 <= i < |SUBAGENTS| && 0 <= a < |SUBAGENTS[i]| && 0 <= j < |SUBAGENTS| && 0 <= b < |SUBAGENTS[j]|
      && SUBAGENTS[i][a] == SUBAGENTS[j][b]
      ensures i == j && a == b
    {
      Placed(i);
      Placed(j);
      assert Place(SUBAGENTS[i][a]) == 2 * i + a && Place(SUBAGENTS[j][b]) == 2 * j + b;
    }
  }

  // ---------- the whole manifest ----------

  lemma GatesCovered(charters: seq<string>)
    requires |charters| == 7
    ensures Shipped(charters).OneOwnerPerGate()
  {
    var t := Shipped(charters);
    assert t.GateClaims() == GATES_OWNED;
    ClaimsOnce();
    forall k | 0 <= k < |Gates.GATES| ensures ClaimedBySome(t, Gates.GATES[k].name) {
      var i := AllClaimed(k);
      assert t.teams[i].gatesOwned == GATES_OWNED[i];
    }
  }

  lemma TeamsValid(charters: seq<string>)
    requires Chartered(charters)
    ensures forall i :: 0 <= i < 7 ==> Shipped(charters).teams[i].Valid()
  {
    forall i | 0 <= i < 7 ensures Shipped(charters).teams[i].Valid() {
      GatesOfOwner(i);
      Placed(i);
    }
  }

  /** With any charters that are long enough the shipped manifest is valid. */
  lemma ShippedIsValid(charters: seq<string>)
    requires Chartered(charters)
    ensures Shipped(charters).Valid()
  {
    TeamsValid(charters);
    TeamsDistinct(charters);
    assert Shipped(charters).Rosters() == SUBAGENTS;
    RostersOnce();
    GatesCovered(charters);
  }

  function Without(t: Topology, i: nat): Topology
    requires i < |t.teams|
  {
    t.(teams := t.teams[..i] + t.teams[i + 1..])
  }

  /** The position before the removal of team i. */
  function Before(i: nat, k: nat): nat {
    if k < i then k else k + 1
  }

  lemma OnceWithout(lists: seq<seq<string>>, fewer: seq<seq<string>>, i: nat)
    requires ListedOnce(lists) && i < |lists| && |fewer| == |lists| - 1
    requires forall k :: 0 <= k < |fewer| ==> fewer[k] == lists[Before(i, k)]
    ensures ListedOnce(fewer)
  {
    forall k, a, l, b |
      && 0 <= k < |fewer| && 0 <= a < |fewer[k]| && 0 <= l < |fewer| && 0 <= b < |fewer[l]| && fewer[k][a] == fewer[l][b]
      ensures k == l && a == b
    {
      assert fewer[k] == lists[Before(i, k)] && fewer[l] == lists[Before(i, l)];
      assert lists[Before(i, k)][a] == lists[Before(i, l)][b];
    }
  }

  /** A valid manifest stays valid without a team that owns no gate, if another team is left. */
  lemma GatelessTeamCanGo(t: Topology, i: nat)
    requires t.Valid() && i < |t.teams| && |t.teams| > 1 && t.teams[i].gatesOwned == []
    ensures Without(t, i).Valid() && !Without(t, i).Declares(t.teams[i].name)
  {
    var u := Without(t, i);
    assert forall k :: 0 <= k < |u.teams| ==> u.teams[k] == t.teams[Before(i, k)];
    OnceWithout(t.Rosters(), u.Rosters(), i);
    OnceWithout(t.GateClaims(), u.GateClaims(), i);
    StillClaimed(t, u, i);
    FindTeamIff(u.teams, t.teams[i].name);
  }

  lemma StillClaimed(t: Topology, u: Topology, i: nat)
    requires i < |t.teams| && t.teams[i].gatesOwned == [] && t.OneOwnerPerGate() && u == Without(t, i)
    ensures forall k :: 0 <= k < |Gates.GATES| ==> ClaimedBySome(u, Gates.GATES[k].name)
  {
    forall k | 0 <= k < |Gates.GATES| ensures ClaimedBySome(u, Gates.GATES[k].name) {
      assert ClaimedBySome(t, Gates.GATES[k].name);
      var j :| 0 <= j < |t.teams| && Gates.GATES[k].name in t.teams[j].gatesOwned;
      assert u.teams[if j < i then j else j - 1] == t.teams[j];
    }
  }

  /** So the team threat-research, which owns no gate, can be taken out of the manifest. */
  lemma ThreatResearchCanGo(charters: seq<string>)
    requires Chartered(charters)
    ensures Shipped(charters).Valid() && Shipped(charters).Declares("threat-research")
    ensures Without(Shipped(charters), 0).Valid() && !Without(Shipped(charters), 0).Declares("threat-research")
  {
    ShippedIsValid(charters);
    GatelessTeamCanGo(Shipped(charters), 0);
  }

  /** There are such charters. */
  lemma SomeChartersDo()
    ensures Chartered(seq(7, _ => seq(MIN_CHARTER_CHARS, _ => 'x')))
  {
    var charter := seq(MIN_CHARTER_CHARS, _ => 'x');
    assert charter[0] == 'x' && charter[|charter| - 1] == 'x';
    assert Strip(charter) == charter;
  }
}
