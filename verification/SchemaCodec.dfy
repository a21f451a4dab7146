/** Dictionaries in and out of the schema types (schema.py, gates.py: parse and to_dict).
    Parsing refuses unknown and missing keys. An instant is a JSON number here; a value of
    the wrong JSON type is refused with SchemaError. */
module SchemaCodec {
  import opened Basics
  import opened JsonText
  import opened Schema
  import Gates

  // ---------- pieces ----------

  predicate StrictKeys(fields: map<string, Json>, allowed: set<string>, required: set<string>) {
    required <= fields.Keys <= allowed
  }

  function ReadStr(j: Json): Result<string> {
    if j.Str? then Ok(j.s) else Err(SchemaError)
  }

  function ReadInstant(j: Json): Result<int> {
    if j.Num? then Ok(j.n) else Err(SchemaError)
  }

  /** dict.get: a missing key and a null are both None. */
  function Optional<T>(fields: map<string, Json>, key: string, read: Json -> Result<T>): Result<Option<T>> {
    if key !in fields || fields[key].Null? then Ok(None)
    else match read(fields[key]) case Ok(v) => Ok(Some(v)) case Err(e) => Err(e)
  }

  function ReadAll<T>(items: seq<Json>, read: Json -> Result<T>): Result<seq<T>> {
    if items == [] then Ok([])
    else
      match read(items[0])
      case Err(e) => Err(e)
      case Ok(v) =>
        match ReadAll(items[1..], read)
        case Err(e) => Err(e)
        case Ok(vs) => Ok([v] + vs)
  }

  function ReadArray<T>(j: Json, read: Json -> Result<T>): Result<seq<T>> {
    if j.Arr? then ReadAll(j.items, read) else Err(SchemaError)
  }

  /** A missing list is the empty list. */
  function ListOrEmpty<T>(fields: map<string, Json>, key: string, read: Json -> Result<T>): Result<seq<T>> {
    if key in fields then ReadArray(fields[key], read) else Ok([])
  }

  function WriteAll<T>(xs: seq<T>, write: T -> Json): seq<Json> {
    if xs == [] then [] else [write(xs[0])] + WriteAll(xs[1..], write)
  }

  function Field<T>(key: string, x: Option<T>, write: T -> Json): map<string, Json> {
    match x
    case None => map[]
    case Some(v) => map[key := write(v)]
  }

  const WriteStr: string -> Json := (s: string) => Str(s)

  const WriteInt: int -> Json := (n: int) => Num(n)

  lemma {:induction false} ReadAllWritten<T>(xs: seq<T>, write: T -> Json, read: Json -> Result<T>)
    requires forall i :: 0 <= i < |xs| ==> read(write(xs[i])) == Ok(xs[i])
    ensures ReadAll(WriteAll(xs, write), read) == Ok(xs)
  {
    if xs != [] {
      ReadAllWritten(xs[1..], write, read);
      assert read(write(xs[0])) == Ok(xs[0]);
      assert WriteAll(xs, write)[1..] == WriteAll(xs[1..], write);
      assert xs == [xs[0]] + xs[1..];
    }
  }

  /** An optional field is read back as it was written. */
  lemma OptionalWritten<T>(f: map<string, Json>, key: string, x: Option<T>, write: T -> Json, read: Json -> Result<T>)
    requires x.None? ==> key !in f
    requires x.Some? ==> key in f && f[key] == write(x.value) && !write(x.value).Null? && read(write(x.value)) == Ok(x.value)
    ensures Optional(f, key, read) == Ok(x)
  {}

  // ---------- artifacts ----------

  function ArtifactJson(a: ArtifactRef): Json {
    Obj(map["kind" := Str(a.kind), "path" := Str(a.path)] + Field("sha256", a.sha256, WriteStr))
  }

  function ParseArtifact(j: Json): (r: Result<ArtifactRef>)
    ensures r.Ok? ==> r.value.Valid()
  {
    if !j.Obj? || !StrictKeys(j.fields, {"kind", "path", "sha256"}, {"kind", "path"}) then Err(SchemaError)
    else
      match (ReadStr(j.fields["kind"]), ReadStr(j.fields["path"]), Optional(j.fields, "sha256", ReadStr))
      case (Ok(kind), Ok(path), Ok(sha)) =>
        var a := ArtifactRef(kind, path, sha);
        if a.Valid() then Ok(a) else Err(SchemaError)
      case _ => Err(SchemaError)
  }

  lemma ArtifactKeysDiffer()
    ensures "kind" != "path"
  {
    assert "kind"[0] != "path"[0];
  }

  lemma ArtifactRoundTrip(a: ArtifactRef)
    ensures ParseArtifact(ArtifactJson(a)) == (if a.Valid() then Ok(a) else Err(SchemaError))
  {
    ArtifactKeysDiffer();
    var f := ArtifactJson(a).fields;
    assert f.Keys == {"kind", "path"} + (if a.sha256.Some? then {"sha256"} else {});
  }

  lemma ArtifactsRoundTrip(refs: seq<ArtifactRef>)
    requires AllValid(refs)
    ensures ReadAll(WriteAll(refs, ArtifactJson), ParseArtifact) == Ok(refs)
  {
    forall i | 0 <= i < |refs| ensures ParseArtifact(ArtifactJson(refs[i])) == Ok(refs[i]) {
      ArtifactRoundTrip(refs[i]);
    }
    ReadAllWritten(refs, ArtifactJson, ParseArtifact);
  }

  lemma {:induction false} ParsedArtifactsValid(items: seq<Json>)
    ensures var r := ReadAll(items, ParseArtifact); r.Ok? ==> AllValid(r.value) && |r.value| == |items|
  {
    if items != [] { ParsedArtifactsValid(items[1..]); }
  }

  lemma StringsRoundTrip(xs: seq<string>)
    ensures ReadAll(WriteAll(xs, WriteStr), ReadStr) == Ok(xs)
  {
    ReadAllWritten(xs, WriteStr, ReadStr);
  }

  // ---------- work nodes and graphs ----------

  const NODE_KEYS := {"id", "title", "team", "exit_gate", "acceptance", "tier_max", "inputs", "deliverables",
                      "depends_on", "deadline"}

  const NODE_REQUIRED := {"id", "title", "team", "exit_gate", "acceptance", "tier_max", "deliverables"}

  function NodeJson(n: WorkNode): Json {
    Obj(map["id" := Str(n.id), "title" := Str(n.title), "team" := Str(n.team), "exit_gate" := Str(n.exitGate),
            "acceptance" := Arr(WriteAll(n.acceptance, WriteStr)), "tier_max" := Str(n.tierMax),
            "inputs" := Arr(WriteAll(n.inputs, ArtifactJson)),
            "deliverables" := Arr(WriteAll(n.deliverables, ArtifactJson)),
            "depends_on" := Arr(WriteAll(n.dependsOn, WriteStr))]
        + Field("deadline", n.deadline, WriteInt))
  }

  /** The fields of a node before validation. */
  function NodeFields(f: map<string, Json>): Result<WorkNode>
    requires NODE_REQUIRED <= f.Keys
  {
    match (ReadStr(f["id"]), ReadStr(f["title"]), ReadStr(f["team"]), ReadStr(f["exit_gate"]), ReadStr(f["tier_max"]))
    case (Ok(id), Ok(title), Ok(team), Ok(gate), Ok(tier)) =>
      (match (ReadArray(f["acceptance"], ReadStr), ListOrEmpty(f, "inputs", ParseArtifact),
              ReadArray(f["deliverables"], ParseArtifact), ListOrEmpty(f, "depends_on", ReadStr),
              Optional(f, "deadline", ReadInstant))
       case (Ok(acceptance), Ok(inputs), Ok(deliverables), Ok(deps), Ok(deadline)) =>
         Ok(WorkNode(id, title, team, gate, acceptance, tier, inputs, deliverables, deps, deadline))
       case _ => Err(SchemaError))
    case _ => Err(SchemaError)
  }

  function ParseNode(j: Json): (r: Result<WorkNode>)
    ensures r.Ok? ==> r.value.Valid()
  {
    if !j.Obj? || !StrictKeys(j.fields, NODE_KEYS, NODE_REQUIRED) then Err(SchemaError)
    else
      match NodeFields(j.fields)
      case Ok(n) => if n.Valid() then Ok(n) else Err(SchemaError)
      case Err(e) => Err(e)
  }

  lemma NodeKeysDiffer()
    ensures "acceptance" != "depends_on" && "tier_max" != "deadline"
  {
    assert "acceptance"[0] != "depends_on"[0] && "tier_max"[0] != "deadline"[0];
  }

  lemma NodeTexts(n: WorkNode)
    ensures var f := NodeJson(n).fields;
      && NODE_REQUIRED <= f.Keys <= NODE_KEYS
      && f["id"] == Str(n.id) && f["title"] == Str(n.title) && f["team"] == Str(n.team)
      && f["exit_gate"] == Str(n.exitGate) && f["tier_max"] == Str(n.tierMax)
      && Optional(f, "deadline", ReadInstant) == Ok(n.deadline)
  {
    NodeKeysDiffer();
  }

  lemma NodeLists(n: WorkNode)
    ensures var f := NodeJson(n).fields;
      && {"acceptance", "inputs", "deliverables", "depends_on"} <= f.Keys
      && f["acceptance"] == Arr(WriteAll(n.acceptance, WriteStr))
      && f["inputs"] == Arr(WriteAll(n.inputs, ArtifactJson))
      && f["deliverables"] == Arr(WriteAll(n.deliverables, ArtifactJson))
      && f["depends_on"] == Arr(WriteAll(n.dependsOn, WriteStr))
  {
    NodeKeysDiffer();
  }

  lemma NodeFieldsWritten(n: WorkNode, f: map<string, Json>)
    requires AllValid(n.inputs) && AllValid(n.deliverables)
    requires NODE_REQUIRED <= f.Keys && {"inputs", "depends_on"} <= f.Keys
    requires f["id"] == Str(n.id) && f["title"] == Str(n.title) && f["team"] == Str(n.team)
    requires f["exit_gate"] == Str(n.exitGate) && f["tier_max"] == Str(n.tierMax)
    requires f["acceptance"] == Arr(WriteAll(n.acceptance, WriteStr))
    requires f["inputs"] == Arr(WriteAll(n.inputs, ArtifactJson))
    requires f["deliverables"] == Arr(WriteAll(n.deliverables, ArtifactJson))
    requires f["depends_on"] == Arr(WriteAll(n.dependsOn, WriteStr))
    requires Optional(f, "deadline", ReadInstant) == Ok(n.deadline)
    ensures NodeFields(f) == Ok(n)
  {
    StringsRoundTrip(n.acceptance);
    StringsRoundTrip(n.dependsOn);
    ArtifactsRoundTrip(n.inputs);
    ArtifactsRoundTrip(n.deliverables);
  }

  /** Parsing undoes to_dict on every valid node. */
  lemma NodeRoundTrip(n: WorkNode)
    requires n.Valid()
    ensures ParseNode(NodeJson(n)) == Ok(n)
  {
    NodeTexts(n);
    NodeLists(n);
    NodeFieldsWritten(n, NodeJson(n).fields);
  }

  function GraphJson(g: WorkGraph): Json {
    Obj(map["goal" := Str(g.goal), "nodes" := Arr(WriteAll(g.nodes, NodeJson)),
            "invariants_touched" := Arr(WriteAll(g.invariantsTouched, WriteStr))])
  }

  ghost function ParseGraph(j: Json): (r: Result<WorkGraph>)
    ensures r.Ok? ==> r.value.Valid()
  {
    if !j.Obj? || !StrictKeys(j.fields, {"goal", "nodes", "invariants_touched"}, {"goal", "nodes"}) then Err(SchemaError)
    else
      match (ReadStr(j.fields["goal"]), ReadArray(j.fields["nodes"], ParseNode),
             ListOrEmpty(j.fields, "invariants_touched", ReadStr))
      case (Ok(goal), Ok(nodes), Ok(touched)) =>
        var g := WorkGraph(goal, nodes, touched);
        if g.Valid() then Ok(g) else Err(SchemaError)
      case _ => Err(SchemaError)
  }

  lemma GraphEntries(g: WorkGraph)
    ensures var f := GraphJson(g).fields;
      && f.Keys == {"goal", "nodes", "invariants_touched"} && f["goal"] == Str(g.goal)
      && f["nodes"] == Arr(WriteAll(g.nodes, NodeJson))
      && f["invariants_touched"] == Arr(WriteAll(g.invariantsTouched, WriteStr))
  {}

  lemma GraphFieldsWritten(g: WorkGraph, f: map<string, Json>)
    requires g.Valid() && f.Keys == {"goal", "nodes", "invariants_touched"}
    requires f["goal"] == Str(g.goal)
    requires ReadArray(f["nodes"], ParseNode) == Ok(g.nodes)
    requires ReadArray(f["invariants_touched"], ReadStr) == Ok(g.invariantsTouched)
    ensures ParseGraph(Obj(f)) == Ok(g)
  {}

  /** Parsing undoes to_dict on every valid graph. */
  lemma GraphRoundTrip(g: WorkGraph)
    requires g.Valid()
    ensures ParseGraph(GraphJson(g)) == Ok(g)
  {
    forall i | 0 <= i < |g.nodes| ensures ParseNode(NodeJson(g.nodes[i])) == Ok(g.nodes[i]) {
      NodeRoundTrip(g.nodes[i]);
    }
    ReadAllWritten(g.nodes, NodeJson, ParseNode);
    StringsRoundTrip(g.invariantsTouched);
    GraphEntries(g);
    GraphFieldsWritten(g, GraphJson(g).fields);
  }

  // ---------- status reports ----------

  function BlockerJson(b: BlockerRef): Json {
    Obj(map["reason" := Str(b.reason)] + Field("needs_team", b.needsTeam, WriteStr) + Field("needs_tier", b.needsTier, WriteStr))
  }

  function ParseBlocker(j: Json): (r: Result<BlockerRef>)
    ensures r.Ok? ==> r.value.Valid()
  {
    if !j.Obj? || !StrictKeys(j.fields, {"reason", "needs_team", "needs_tier"}, {"reason"}) then Err(SchemaError)
    else
      match (ReadStr(j.fields["reason"]), Optional(j.fields, "needs_team", ReadStr), Optional(j.fields, "needs_tier", ReadStr))
      case (Ok(reason), Ok(team), Ok(tier)) =>
        var b := BlockerRef(reason, team, tier);
        if b.Valid() then Ok(b) else Err(SchemaError)
      case _ => Err(SchemaError)
  }

  lemma BlockerRoundTrip(b: BlockerRef)
    requires b.Valid()
    ensures ParseBlocker(BlockerJson(b)) == Ok(b)
  {
    assert "needs_team"[9] != "needs_tier"[9];
    var f := BlockerJson(b).fields;
    assert Optional(f, "needs_team", ReadStr) == Ok(b.needsTeam);
    assert Optional(f, "needs_tier", ReadStr) == Ok(b.needsTier);
  }

  const STATUS_REQUIRED := {"task_id", "state", "next_update_by"}

  const STATUS_KEYS := {"task_id", "state", "next_update_by", "pct_complete", "artifacts_produced", "blocker"}

  function StatusJson(u: StatusUpdate): Json {
    Obj(map["task_id" := Str(u.taskId), "state" := Str(u.state), "next_update_by" := Num(u.nextUpdateBy),
            "artifacts_produced" := Arr(WriteAll(u.artifactsProduced, ArtifactJson))]
        + Field("pct_complete", u.pctComplete, WriteInt) + Field("blocker", u.blocker, BlockerJson))
  }

  function StatusFields(f: map<string, Json>): Result<StatusUpdate>
    requires STATUS_REQUIRED <= f.Keys
  {
    match (ReadStr(f["task_id"]), ReadStr(f["state"]), ReadInstant(f["next_update_by"]),
           Optional(f, "pct_complete", ReadInstant), ListOrEmpty(f, "artifacts_produced", ParseArtifact),
           Optional(f, "blocker", ParseBlocker))
    case (Ok(id), Ok(state), Ok(next), Ok(pct), Ok(artifacts), Ok(blocker)) =>
      Ok(StatusUpdate(id, state, next, pct, artifacts, blocker))
    case _ => Err(SchemaError)
  }

  function ParseStatus(j: Json): (r: Result<StatusUpdate>)
    ensures r.Ok? ==> r.value.Valid()
  {
    if !j.Obj? || !StrictKeys(j.fields, STATUS_KEYS, STATUS_REQUIRED) then Err(SchemaError)
    else
      match StatusFields(j.fields)
      case Ok(u) => if u.Valid() then Ok(u) else Err(SchemaError)
      case Err(e) => Err(e)
  }

  lemma StatusEntries(u: StatusUpdate)
    ensures var f := StatusJson(u).fields;
      && STATUS_REQUIRED <= f.Keys <= STATUS_KEYS && "artifacts_produced" in f
      && f["task_id"] == Str(u.taskId) && f["state"] == Str(u.state) && f["next_update_by"] == Num(u.nextUpdateBy)
      && f["artifacts_produced"] == Arr(WriteAll(u.artifactsProduced, ArtifactJson))
  {
    assert "task_id"[0] != "blocker"[0];
  }

  lemma StatusOptions(u: StatusUpdate)
    requires u.blocker.Some? ==> u.blocker.value.Valid()
    ensures var f := StatusJson(u).fields;
      Optional(f, "pct_complete", ReadInstant) == Ok(u.pctComplete) && Optional(f, "blocker", ParseBlocker) == Ok(u.blocker)
  {
    assert "task_id"[0] != "blocker"[0];
    var f := StatusJson(u).fields;
    OptionalWritten(f, "pct_complete", u.pctComplete, WriteInt, ReadInstant);
    if u.blocker.Some? { BlockerRoundTrip(u.blocker.value); }
    OptionalWritten(f, "blocker", u.blocker, BlockerJson, ParseBlocker);
  }

  lemma StatusFieldsWritten(u: StatusUpdate, f: map<string, Json>)
    requires AllValid(u.artifactsProduced)
    requires STATUS_REQUIRED <= f.Keys && "artifacts_produced" in f
    requires f["task_id"] == Str(u.taskId) && f["state"] == Str(u.state) && f["next_update_by"] == Num(u.nextUpdateBy)
    requires f["artifacts_produced"] == Arr(WriteAll(u.artifactsProduced, ArtifactJson))
    requires Optional(f, "pct_complete", ReadInstant) == Ok(u.pctComplete)
    requires Optional(f, "blocker", ParseBlocker) == Ok(u.blocker)
    ensures StatusFields(f) == Ok(u)
  {
    ArtifactsRoundTrip(u.artifactsProduced);
  }

  /** Parsing undoes to_dict on every valid status report. */
  lemma StatusRoundTrip(u: StatusUpdate)
    requires u.Valid()
    ensures ParseStatus(StatusJson(u)) == Ok(u)
  {
    StatusEntries(u);
    StatusOptions(u);
    StatusFieldsWritten(u, StatusJson(u).fields);
  }

  // ---------- gate results ----------

  const RESULT_REQUIRED := {"gate", "passed", "evidence", "checked_by"}

  const RESULT_KEYS := {"gate", "passed", "evidence", "checked_by", "checked_at"}

  function ResultJson(r: Gates.GateResult): Json {
    Obj(map["gate" := Str(r.gate), "passed" := Bool(r.passed), "evidence" := Arr(WriteAll(r.evidence, WriteStr)),
            "checked_by" := Str(r.checkedBy), "checked_at" := Num(r.checkedAt)])
  }

  function ResultFields(f: map<string, Json>, now: int): Result<Gates.GateResult>
    requires RESULT_REQUIRED <= f.Keys
  {
    match (ReadStr(f["gate"]), ReadArray(f["evidence"], ReadStr), ReadStr(f["checked_by"]), Optional(f, "checked_at", ReadInstant))
    case (Ok(gate), Ok(evidence), Ok(checker), Ok(at)) =>
      if f["passed"].Bool? then
        Ok(Gates.GateResult(gate, f["passed"].b, evidence, checker, if at.Some? then at.value else now))
      else Err(SchemaError)
    case _ => Err(SchemaError)
  }

  /** GateResult.parse; `now` stamps a result that carries no time. */
  function ParseResult(j: Json, now: int): (r: Result<Gates.GateResult>)
    ensures r.Ok? ==> r.value.Valid()
  {
    if !j.Obj? || !StrictKeys(j.fields, RESULT_KEYS, RESULT_REQUIRED) then Err(SchemaError)
    else
      match ResultFields(j.fields, now)
      case Ok(r) => if r.Valid() then Ok(r) else Err(SchemaError)
      case Err(e) => Err(e)
  }

  /** Parsing undoes to_dict on every valid gate result. */
  lemma ResultRoundTrip(r: Gates.GateResult, now: int)
    requires r.Valid()
    ensures ParseResult(ResultJson(r), now) == Ok(r)
  {
    assert "checked_by"[8] != "checked_at"[8];
    StringsRoundTrip(r.evidence);
    var f := ResultJson(r).fields;
    assert f["gate"] == Str(r.gate) && f["checked_by"] == Str(r.checkedBy) && f["checked_at"] == Num(r.checkedAt);
    assert ResultFields(f, now) == Ok(r);
  }
}
