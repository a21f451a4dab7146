/** What the validators refuse, defect by defect (schema.py, gates.py, topology.py, config.py:
    the validate methods). Every bound and every list of names is written out here. */
module Validators {
  import opened Basics
  import opened LogText
  import opened Schema
  import Firewall
  import Gates
  import Lex
  import Tokens
  import Topology

  // ---------- characters ----------

  predicate Lower(c: char) { 'a' <= c <= 'z' }

  predicate Digit(c: char) { '0' <= c <= '9' }

  /** One small letter, then one to 63 small letters, digits or dashes. */
  lemma IdIff(s: string)
    ensures IsId(s) <==>
      s != "" && Lower(s[0]) && 1 <= |s[1..]| <= 63 && forall c :: c in s[1..] ==> Lower(c) || Digit(c) || c == '-'
  {
    if s != "" {
      assert forall i :: 1 <= i < |s| ==> s[i] == s[1..][i - 1];
      assert forall i :: 1 <= i < |s| ==> s[i] in s[1..];
    }
  }

  /** 26 digits or capital letters other than I, L, O and U. */
  lemma TaskIdIff(s: string)
    ensures IsTaskId(s) <==>
      |s| == 26 && forall c :: c in s ==> Digit(c) || ('A' <= c <= 'Z' && c != 'I' && c != 'L' && c != 'O' && c != 'U')
  {
    assert forall i :: 0 <= i < |s| ==> s[i] in s;
  }

  /** Python's strip takes off exactly the white space at both ends. */
  lemma {:induction false} StripIs(s: string) returns (i: nat, j: nat)
    ensures i <= j <= |s| && Topology.Strip(s) == s[i..j] && Blank(s[..i]) && Blank(s[j..])
    ensures i < j ==> !IsSpace(s[i]) && !IsSpace(s[j - 1])
    decreases |s|
  {
    if s != "" && IsSpace(s[0]) {
      var a, b := StripIs(s[1..]);
      i, j := a + 1, b + 1;
      FrontGoes(s, a, b);
    } else if s != "" && IsSpace(s[|s| - 1]) {
      i, j := StripIs(s[..|s| - 1]);
      BackGoes(s, i, j);
    } else {
      i, j := 0, |s|;
      assert s[0..|s|] == s;
    }
  }

  lemma FrontGoes(s: string, a: nat, b: nat)
    requires s != "" && IsSpace(s[0]) && a <= b < |s| && Blank(s[1..][..a]) && Blank(s[1..][b..])
    ensures s[a + 1..b + 1] == s[1..][a..b] && Blank(s[..a + 1]) && Blank(s[b + 1..])
  {
    Shifted(s, a, b);
    assert s[..a + 1] == [s[0]] + s[1..][..a];
    assert s[b + 1..] == s[1..][b..];
  }

  lemma Shifted(s: string, a: nat, b: nat)
    requires a <= b < |s|
    ensures s[a + 1..b + 1] == s[1..][a..b]
  {
    var x, y := s[a + 1..b + 1], s[1..][a..b];
    forall i | 0 <= i < b - a ensures x[i] == y[i] {
      assert x[i] == s[a + 1 + i] && y[i] == s[1..][a + i];
    }
    assert |x| == |y|;
  }

  lemma BackGoes(s: string, i: nat, j: nat)
    requires s != "" && IsSpace(s[|s| - 1]) && i <= j < |s| && Blank(s[..|s| - 1][..i]) && Blank(s[..|s| - 1][j..])
    ensures s[i..j] == s[..|s| - 1][i..j] && Blank(s[..i]) && Blank(s[j..])
  {
    assert s[..i] == s[..|s| - 1][..i];
    assert s[j..] == s[..|s| - 1][j..] + [s[|s| - 1]];
  }

  /** Text is blank exactly when strip leaves nothing of it. */
  lemma BlankIff(s: string)
    ensures Blank(s) <==> Topology.Strip(s) == ""
  {
    var i, j := StripIs(s);
    if i == j {
      assert forall k :: 0 <= k < i ==> s[k] == s[..i][k];
      assert forall k :: j <= k < |s| ==> s[k] == s[j..][k - j];
    }
  }

  /** Text is unpadded exactly when strip leaves it as it is. */
  lemma UnpaddedIff(s: string)
    ensures Unpadded(s) <==> Topology.Strip(s) == s
  {
    var i, j := StripIs(s);
    if i > 0 { assert s[..i][0] == s[0]; }
    if j < |s| { assert s[j..][|s| - 1 - j] == s[|s| - 1]; }
    if Topology.Strip(s) == s { assert |s[i..j]| == j - i; }
  }

  // ---------- paths ----------

  /** str.split at slashes. */
  function Parts(path: string): (r: seq<string>)
    ensures r != []
  {
    if path == "" then [""]
    else
      var rest := Parts(path[1..]);
      if path[0] == '/' then [""] + rest else [[path[0]] + rest[0]] + rest[1..]
  }

  /** ".." stands at i, up to a slash or the end. */
  predicate DotsAt(path: string, i: int) {
    0 <= i <= |path| - 2 && path[i] == '.' && path[i + 1] == '.' && (i + 2 == |path| || path[i + 2] == '/')
  }

  ghost predicate DotDotIn(path: string, fromStart: bool) {
    exists i :: DotsAt(path, i) && ((i == 0 && fromStart) || (i > 0 && path[i - 1] == '/'))
  }

  lemma {:induction false} FirstPart(path: string)
    ensures |Parts(path)[0]| <= |path| && Parts(path)[0] == path[..|Parts(path)[0]|]
    ensures |Parts(path)[0]| < |path| ==> path[|Parts(path)[0]|] == '/'
    ensures '/' !in Parts(path)[0]
  {
    if path != "" { FirstPart(path[1..]); }
  }

  lemma FirstPartDots(path: string)
    ensures Parts(path)[0] == ".." <==> DotsAt(path, 0)
  {
    FirstPart(path);
    var n := |Parts(path)[0]|;
    assert n > 2 ==> path[2] == Parts(path)[0][2] && Parts(path)[0][2] in Parts(path)[0];
  }

  /** The parts after the first one. */
  lemma {:induction false} LaterParts(path: string)
    ensures ".." in Parts(path)[1..] <==> DotDotIn(path, false)
  {
    if path != "" {
      var rest := path[1..];
      LaterParts(rest);
      FirstPartDots(rest);
      LaterStep(path);
    }
  }

  lemma LaterStep(path: string)
    requires path != ""
    requires ".." in Parts(path[1..])[1..] <==> DotDotIn(path[1..], false)
    requires Parts(path[1..])[0] == ".." <==> DotsAt(path[1..], 0)
    ensures ".." in Parts(path)[1..] <==> DotDotIn(path, false)
  {
    var rest := path[1..];
    if i :| DotsAt(rest, i) && i > 0 && rest[i - 1] == '/' {
      assert DotsAt(path, i + 1) && path[i] == '/';
    }
    if path[0] == '/' && DotsAt(rest, 0) { assert DotsAt(path, 1); }
    if i :| DotsAt(path, i) && i > 0 && path[i - 1] == '/' {
      assert DotsAt(rest, i - 1);
      assert i > 1 ==> rest[i - 2] == '/';
    }
    if path[0] == '/' {
      assert Parts(path)[1..] == Parts(rest) == [Parts(rest)[0]] + Parts(rest)[1..];
    } else {
      assert Parts(path)[1..] == Parts(rest)[1..];
    }
  }

  /** A path climbs exactly when one of its parts between slashes is "..". */
  lemma DotDotIff(path: string)
    ensures HasDotDot(path) <==> ".." in Parts(path)
  {
    FirstPartDots(path);
    LaterParts(path);
    assert Parts(path) == [Parts(path)[0]] + Parts(path)[1..];
    DotsSomewhere(path);
  }

  lemma DotsSomewhere(path: string)
    ensures HasDotDot(path) <==> DotsAt(path, 0) || DotDotIn(path, false)
  {
    if HasDotDot(path) {
      var i :| 0 <= i <= |path| - 2 && path[i] == '.' && path[i + 1] == '.'
        && (i == 0 || path[i - 1] == '/') && (i + 2 == |path| || path[i + 2] == '/');
      assert DotsAt(path, i);
      assert i > 0 ==> DotDotIn(path, false);
    }
    if DotDotIn(path, false) {
      var i :| DotsAt(path, i) && i > 0 && path[i - 1] == '/';
      DotsClimb(path, i);
    }
    if DotsAt(path, 0) { DotsClimb(path, 0); }
  }

  lemma DotsClimb(path: string, i: int)
    requires 0 <= i <= |path| - 2 && path[i] == '.' && path[i + 1] == '.'
    requires (i == 0 || path[i - 1] == '/') && (i + 2 == |path| || path[i + 2] == '/')
    ensures HasDotDot(path)
  {}

  // ---------- the dispatch contract ----------

  /** An artifact is refused exactly for an unknown kind, a path that is empty, padded,
      absolute or climbing, or a digest that is not 64 small hexadecimal digits. */
  lemma ArtifactRefusedIff(a: ArtifactRef)
    ensures !a.Valid() <==>
      || a.kind !in {"file", "report", "ruleset", "image", "test", "decision"}
      || a.path == "" || Topology.Strip(a.path) != a.path || a.path[0] == '/' || ".." in Parts(a.path)
      || (a.sha256.Some? && (|a.sha256.value| != 64 || exists c :: c in a.sha256.value && !Digit(c) && !('a' <= c <= 'f')))
  {
    UnpaddedIff(a.path);
    DotDotIff(a.path);
    KindIff(a.kind);
    if a.sha256.Some? { assert forall i :: 0 <= i < |a.sha256.value| ==> a.sha256.value[i] in a.sha256.value; }
  }

  lemma KindIff(kind: string)
    ensures kind in ARTIFACT_KINDS <==> kind in {"file", "report", "ruleset", "image", "test", "decision"}
  {
    var k := ARTIFACT_KINDS;
    assert k[0] == "file" && k[1] == "report" && k[2] == "ruleset" && k[3] == "image" && k[4] == "test" && k[5] == "decision";
  }

  lemma TierIff(tier: string)
    ensures tier in Tokens.TIERS <==> tier == "T2" || tier == "T3"
    ensures tier in ALL_TIERS <==> tier == "T1" || tier == "T2" || tier == "T3" || tier == "T4"
  {
    assert Tokens.TIERS[0] == "T2" && Tokens.TIERS[1] == "T3";
    assert ALL_TIERS[0] == "T1" && ALL_TIERS[1] == "T2" && ALL_TIERS[2] == "T3" && ALL_TIERS[3] == "T4";
  }

  /** A node is refused exactly for a malformed id or team name, a blank title, no criterion,
      more than three or a blank one, a tier other than T2 and T3, no deliverable, an invalid
      artifact, or a dependency that is repeated or the node itself. */
  lemma NodeRefusedIff(n: WorkNode)
    ensures !n.Valid() <==>
      || !IsId(n.id) || !IsId(n.team) || Topology.Strip(n.title) == ""
      || |n.acceptance| == 0 || |n.acceptance| > 3 || (exists c :: c in n.acceptance && Topology.Strip(c) == "")
      || (n.tierMax != "T2" && n.tierMax != "T3")
      || |n.deliverables| == 0 || (exists a :: (a in n.inputs || a in n.deliverables) && !a.Valid())
      || n.id in n.dependsOn || |set d | d in n.dependsOn| != |n.dependsOn|
  {
    BlankIff(n.title);
    forall c ensures Blank(c) <==> Topology.Strip(c) == "" { BlankIff(c); }
    TierIff(n.tierMax);
    DistinctIff(n.dependsOn);
    assert forall i :: 0 <= i < |n.acceptance| ==> n.acceptance[i] in n.acceptance;
    assert forall i :: 0 <= i < |n.inputs| ==> n.inputs[i] in n.inputs;
    assert forall i :: 0 <= i < |n.deliverables| ==> n.deliverables[i] in n.deliverables;
  }

  /** A list has no repetition exactly when its set is as large. */
  lemma {:induction false} DistinctIff(xs: seq<string>)
    ensures |set x | x in xs| <= |xs|
    ensures Distinct(xs) <==> |set x | x in xs| == |xs|
  {
    if xs == [] {
      assert (set x | x in xs) == {};
    } else {
      var n := |xs| - 1;
      var before, last := xs[..n], xs[n];
      DistinctIff(before);
      assert xs == before + [last];
      assert (set x | x in xs) == (set x | x in before) + {last};
      if last in before {
        var i :| 0 <= i < n && before[i] == last;
        assert xs[i] == xs[n];
        assert (set x | x in xs) == (set x | x in before);
      } else {
        assert forall i :: 0 <= i < n ==> xs[i] == before[i] && before[i] in before;
      }
    }
  }

  lemma InvariantIff(name: string)
    ensures name in INVARIANTS <==> name in {"I1", "I2", "I3", "I4", "I5", "I6", "I7"}
  {
    var k := INVARIANTS;
    assert k[0] == "I1" && k[1] == "I2" && k[2] == "I3" && k[3] == "I4" && k[4] == "I5" && k[5] == "I6" && k[6] == "I7";
  }

  /** A graph is refused exactly for a blank goal, no node, an unknown invariant, an invalid
      node, a repeated id, an unknown dependency, a cycle, or an artifact of two teams. */
  lemma GraphRefusedIff(g: WorkGraph)
    ensures !g.Valid() <==>
      || Topology.Strip(g.goal) == "" || |g.nodes| == 0
      || (exists name :: name in g.invariantsTouched && name !in {"I1", "I2", "I3", "I4", "I5", "I6", "I7"})
      || (exists n :: n in g.nodes && !n.Valid())
      || (exists i, j :: 0 <= i < j < |g.nodes| && g.nodes[i].id == g.nodes[j].id)
      || (exists n, d :: n in g.nodes && d in n.dependsOn && d !in g.Ids())
      || !g.Acyclic()
      || !g.OneTeamPerArtifact()
  {
    BlankIff(g.goal);
    forall name ensures name in INVARIANTS <==> name in {"I1", "I2", "I3", "I4", "I5", "I6", "I7"} { InvariantIff(name); }
    assert forall i :: 0 <= i < |g.nodes| ==> g.nodes[i] in g.nodes;
    assert forall i :: 0 <= i < |g.invariantsTouched| ==> g.invariantsTouched[i] in g.invariantsTouched;
    KnownIff(g);
  }

  lemma KnownIff(g: WorkGraph)
    ensures g.KnownDependencies() <==> !(exists n, d :: n in g.nodes && d in n.dependsOn && d !in g.Ids())
  {
    if !g.KnownDependencies() {
      var i, k :| 0 <= i < |g.nodes| && 0 <= k < |g.nodes[i].dependsOn| && g.nodes[i].dependsOn[k] !in g.Ids();
      assert g.nodes[i] in g.nodes && g.nodes[i].dependsOn[k] in g.nodes[i].dependsOn;
    }
  }

  lemma StateIff(state: string)
    ensures state in STATUS_STATES <==>
      state in {"accepted", "running", "blocked", "gate_pending", "gate_pass", "gate_fail", "abandoned"}
  {
    var k := STATUS_STATES;
    assert k[0] == "accepted" && k[1] == "running" && k[2] == "blocked" && k[3] == "gate_pending" && k[4] == "gate_pass";
    assert k[5] == "gate_fail" && k[6] == "abandoned";
  }

  /** A report is refused exactly for a malformed task id, an unknown state, a percentage
      outside 0 to 100, "blocked" without a blocker, an invalid artifact, or a blocker with a
      blank reason or an unknown tier. */
  lemma StatusRefusedIff(u: StatusUpdate)
    ensures !u.Valid() <==>
      || !IsTaskId(u.taskId)
      || u.state !in {"accepted", "running", "blocked", "gate_pending", "gate_pass", "gate_fail", "abandoned"}
      || (u.pctComplete.Some? && (u.pctComplete.value < 0 || u.pctComplete.value > 100))
      || (u.state == "blocked" && u.blocker.None?)
      || (exists a :: a in u.artifactsProduced && !a.Valid())
      || (u.blocker.Some? && (Topology.Strip(u.blocker.value.reason) == ""
                              || (u.blocker.value.needsTier.Some? && u.blocker.value.needsTier.value !in {"T1", "T2", "T3", "T4"})))
  {
    StateIff(u.state);
    assert forall i :: 0 <= i < |u.artifactsProduced| ==> u.artifactsProduced[i] in u.artifactsProduced;
    if u.blocker.Some? {
      BlankIff(u.blocker.value.reason);
      if u.blocker.value.needsTier.Some? { TierIff(u.blocker.value.needsTier.value); }
    }
  }

  // ---------- gates and teams ----------

  const GATE_NAMES: seq<string> := ["SPEC_COMPLETE", "POLICY_CLEAN", "RUNTIME_SOUND", "VERIFY_PASS", "FAIL_CLOSED_PASS",
                                    "PLATFORM_READY", "RELEASE_SIGNED"]

  const GATE_OWNERS: seq<string> := ["docs", "policy", "runtime", "verification", "verification", "platform", "release"]

  /** The owner of a gate among the gates from position i on. */
  function OwnerFrom(i: nat, gate: string): Option<string>
    requires i <= 7
    decreases 7 - i
  {
    if i == 7 then None else if GATE_NAMES[i] == gate then Some(GATE_OWNERS[i]) else OwnerFrom(i + 1, gate)
  }

  function OwnerOf(gate: string): Option<string> {
    OwnerFrom(0, gate)
  }

  lemma RegistryIs(i: nat)
    requires i < 7
    ensures |Gates.GATES| == 7 && Gates.GATES[i].name == GATE_NAMES[i] && Gates.GATES[i].ownerTeam == GATE_OWNERS[i]
    ensures Gates.GATES[i].waivable <==> GATE_NAMES[i] != "FAIL_CLOSED_PASS"
  {
    assert i == 0 || i == 1 || i == 2 || i == 3 || i == 4 || i == 5 || i == 6;
    assert |GATE_NAMES[4]| == 16 && |GATE_NAMES[i]| == 16 ==> i == 4;
  }

  lemma {:induction false} FoundFrom(i: nat, name: string)
    requires i <= 7
    ensures |Gates.GATES| == 7
    ensures var found := Gates.Find(Gates.GATES[i..], name);
      if found.Some? then OwnerFrom(i, name) == Some(found.value.ownerTeam) else OwnerFrom(i, name).None?
    decreases 7 - i
  {
    var g := Gates.GATES;
    assert |g| == 7;
    if i < 7 {
      RegistryIs(i);
      FoundFrom(i + 1, name);
      assert g[i..][0] == g[i] && g[i..][1..] == g[i + 1..];
    }
  }

  lemma LookedUp(name: string)
    ensures Gates.Known(name) <==> OwnerOf(name).Some?
    ensures Gates.Known(name) ==> Gates.Lookup(name).value.ownerTeam == OwnerOf(name).value
  {
    FoundFrom(0, name);
    assert Gates.GATES[0..] == Gates.GATES;
  }

  /** A gate result is refused exactly for an unknown gate, no evidence, or another checker
      than the gate's owner. */
  lemma ResultRefusedIff(r: Gates.GateResult)
    ensures !r.Valid() <==> OwnerOf(r.gate).None? || |r.evidence| == 0 || OwnerOf(r.gate) != Some(r.checkedBy)
  {
    LookedUp(r.gate);
  }

  /** A team is refused exactly for a charter of less than 40 characters, no lead, no
      sub-agents, or a gate that it does not own. */
  lemma TeamRefusedIff(t: Topology.Team)
    ensures !t.Valid() <==>
      || |Topology.Strip(t.charter)| < 40 || t.lead == "" || |t.subagents| == 0
      || exists gate :: gate in t.gatesOwned && OwnerOf(gate) != Some(t.name)
  {
    forall gate ensures Gates.Known(gate) && Gates.Lookup(gate).value.ownerTeam == t.name <==> OwnerOf(gate) == Some(t.name) {
      LookedUp(gate);
    }
    assert forall i :: 0 <= i < |t.gatesOwned| ==> t.gatesOwned[i] in t.gatesOwned;
  }

  // ---------- the firewall's configuration ----------

  predicate InterfaceChar(c: char) {
    ('A' <= c <= 'Z') || Lower(c) || Digit(c) || c == '_' || c == '.' || c == ':' || c == '-'
  }

  predicate IsInterface(s: string) {
    1 <= |s| <= 15 && forall c :: c in s ==> InterfaceChar(c)
  }

  predicate IsPort(n: int) { 0 < n < 0x1_0000 }

  lemma InterfaceIff(s: string)
    ensures IsInterface(s) <==> Firewall.IsName(s) && |s| <= 15
  {
    assert forall i :: 0 <= i < |s| ==> s[i] in s;
  }

  /** A configuration is refused exactly for a malformed interface name, the same interface
      twice, a port that is none, the same port twice, or a malformed user name. */
  lemma ConfigRefusedIff(c: Firewall.Config)
    ensures !c.Valid() <==>
      || !IsInterface(c.uplinkIf) || !IsInterface(c.clientIf) || c.uplinkIf == c.clientIf
      || !IsPort(c.transPort) || !IsPort(c.dnsPort) || !IsPort(c.socksPort)
      || |{c.transPort, c.dnsPort, c.socksPort}| != 3
      || c.torUser == "" || |c.torUser| > 32 || !(Lower(c.torUser[0]) || c.torUser[0] == '_')
      || exists x :: x in c.torUser[1..] && !(Lower(x) || Digit(x) || x == '_' || x == '-')
  {
    InterfaceIff(c.uplinkIf);
    InterfaceIff(c.clientIf);
    ThreePorts(c.transPort, c.dnsPort, c.socksPort);
    if c.torUser != "" {
      assert forall i :: 1 <= i < |c.torUser| ==> c.torUser[i] == c.torUser[1..][i - 1];
      assert forall i :: 1 <= i < |c.torUser| ==> c.torUser[i] in c.torUser[1..];
    }
  }

  lemma ThreePorts(a: int, b: int, c: int)
    ensures |{a, b, c}| == 3 <==> a != b && a != c && b != c
  {
    assert a == b ==> {a, b, c} == {a, c};
    assert a == c ==> {a, b, c} == {a, b};
    assert b == c ==> {a, b, c} == {a, b};
  }
}
