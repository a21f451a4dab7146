/** The dispatch contract's data shapes and their validators (schema.py). Every validator
    refuses with SchemaError, so each is a predicate here. Instants are integers. */
module Schema {
  import opened Basics
  import opened LogText
  import Tokens
  import Ulid

  const ARTIFACT_KINDS := ["file", "report", "ruleset", "image", "test", "decision"]

  const ALL_TIERS := ["T1", "T2", "T3", "T4"]

  const STATUS_STATES := ["accepted", "running", "blocked", "gate_pending", "gate_pass", "gate_fail", "abandoned"]

  const INVARIANTS := ["I1", "I2", "I3", "I4", "I5", "I6", "I7"]

  predicate IsId(s: string) {
    2 <= |s| <= 64 && 'a' <= s[0] <= 'z'
    && forall i :: 1 <= i < |s| ==> 'a' <= s[i] <= 'z' || '0' <= s[i] <= '9' || s[i] == '-'
  }

  predicate TaskIdChar(c: char) {
    '0' <= c <= '9' || 'A' <= c <= 'H' || 'J' <= c <= 'K' || 'M' <= c <= 'N' || 'P' <= c <= 'T' || 'V' <= c <= 'Z'
  }

  predicate IsTaskId(s: string) {
    |s| == 26 && forall i :: 0 <= i < |s| ==> TaskIdChar(s[i])
  }

  /** Every id the generator makes is a well-formed task id. */
  lemma GeneratedIdsAreTaskIds(v: int)
    ensures IsTaskId(Ulid.Encode(v, 26))
  {
    Ulid.EncodeInRange(v, 26);
  }

  /** The text does not change under str.strip. */
  predicate Unpadded(s: string) {
    s == "" || (!IsSpace(s[0]) && !IsSpace(s[|s| - 1]))
  }

  /** ".." occurs among the parts of the text between slashes. */
  predicate HasDotDot(path: string) {
    exists i {:trigger path[i]} :: 0 <= i <= |path| - 2 && path[i] == '.' && path[i + 1] == '.'
      && (i == 0 || path[i - 1] == '/') && (i + 2 == |path| || path[i + 2] == '/')
  }

  predicate IsHexDigest(s: string) {
    |s| == 64 && forall i :: 0 <= i < |s| ==> '0' <= s[i] <= '9' || 'a' <= s[i] <= 'f'
  }

  datatype ArtifactRef = ArtifactRef(kind: string, path: string, sha256: Option<string>)
  {
    predicate Valid() {
      && kind in ARTIFACT_KINDS
      && path != "" && Unpadded(path)
      && path[0] != '/' && !HasDotDot(path)
      && (sha256.Some? ==> IsHexDigest(sha256.value))
    }
  }

  predicate AllValid(refs: seq<ArtifactRef>) {
    forall i :: 0 <= i < |refs| ==> refs[i].Valid()
  }

  predicate Distinct(s: seq<string>) {
    forall i, j :: 0 <= i < j < |s| ==> s[i] != s[j]
  }

  datatype WorkNode = WorkNode(id: string, title: string, team: string, exitGate: string,
                               acceptance: seq<string>, tierMax: string, inputs: seq<ArtifactRef>,
                               deliverables: seq<ArtifactRef>, dependsOn: seq<string>, deadline: Option<int>)
  {
    predicate Valid() {
      && IsId(id)
      && !Blank(title)
      && IsId(team)
      && 1 <= |acceptance| <= 3
      && (forall i :: 0 <= i < |acceptance| ==> !Blank(acceptance[i]))
      && tierMax in Tokens.TIERS
      && deliverables != []
      && AllValid(inputs) && AllValid(deliverables)
      && Distinct(dependsOn)
      && id !in dependsOn
    }
  }

  datatype WorkGraph = WorkGraph(goal: string, nodes: seq<WorkNode>, invariantsTouched: seq<string>)
  {
    predicate UniqueIds() {
      forall i, j :: 0 <= i < j < |nodes| ==> nodes[i].id != nodes[j].id
    }

    function Ids(): set<string> {
      set i | 0 <= i < |nodes| :: nodes[i].id
    }

    predicate KnownDependencies() {
      forall i, k :: 0 <= i < |nodes| && 0 <= k < |nodes[i].dependsOn| ==> nodes[i].dependsOn[k] in Ids()
    }

    /** A rank that falls along every dependency. */
    ghost predicate RankedBy(rank: map<string, nat>) {
      && (forall i :: 0 <= i < |nodes| ==> nodes[i].id in rank)
      && (forall i, k :: 0 <= i < |nodes| && 0 <= k < |nodes[i].dependsOn| ==>
            nodes[i].dependsOn[k] in rank && rank[nodes[i].dependsOn[k]] < rank[nodes[i].id])
    }

    ghost predicate Acyclic() {
      exists rank :: RankedBy(rank)
    }

    /** No two teams claim one artifact path. */
    predicate OneTeamPerArtifact() {
      forall i, a, j, b |
        && 0 <= i < |nodes| && 0 <= a < |nodes[i].deliverables|
        && 0 <= j < |nodes| && 0 <= b < |nodes[j].deliverables|
        && nodes[i].deliverables[a].path == nodes[j].deliverables[b].path
        :: nodes[i].team == nodes[j].team
    }

    ghost predicate Valid() {
      && !Blank(goal)
      && nodes != []
      && (forall i :: 0 <= i < |invariantsTouched| ==> invariantsTouched[i] in INVARIANTS)
      && (forall i :: 0 <= i < |nodes| ==> nodes[i].Valid())
      && UniqueIds()
      && KnownDependencies()
      && Acyclic()
      && OneTeamPerArtifact()
    }

    /** `node`: the first node with this id. */
    function Node(id: string): (r: Result<WorkNode>)
      ensures r.Ok? <==> id in Ids()
      ensures r.Ok? ==> r.value in nodes && r.value.id == id
      ensures r.Err? ==> r == Err(SchemaError)
    {
      FindNode(nodes, id)
    }
  }

  function FindNode(nodes: seq<WorkNode>, id: string): (r: Result<WorkNode>)
    ensures r.Ok? <==> exists i :: 0 <= i < |nodes| && nodes[i].id == id
    ensures r.Ok? ==> r.value in nodes && r.value.id == id
    ensures r.Err? ==> r == Err(SchemaError)
  {
    if nodes == [] then Err(SchemaError)
    else if nodes[0].id == id then Ok(nodes[0])
    else
      assert forall i :: 1 <= i < |nodes| ==> nodes[i] == nodes[1..][i - 1];
      FindNode(nodes[1..], id)
  }

  datatype BlockerRef = BlockerRef(reason: string, needsTeam: Option<string>, needsTier: Option<string>)
  {
    predicate Valid() {
      !Blank(reason) && (needsTier.Some? ==> needsTier.value in ALL_TIERS)
    }
  }

  datatype StatusUpdate = StatusUpdate(taskId: string, state: string, nextUpdateBy: int, pctComplete: Option<int>,
                                       artifactsProduced: seq<ArtifactRef>, blocker: Option<BlockerRef>)
  {
    predicate Valid() {
      && IsTaskId(taskId)
      && state in STATUS_STATES
      && (pctComplete.Some? ==> 0 <= pctComplete.value <= 100)
      && (state == "blocked" ==> blocker.Some?)
      && AllValid(artifactsProduced)
      && (blocker.Some? ==> blocker.value.Valid())
    }
  }
}
