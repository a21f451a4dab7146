/** Exactly which dictionaries the parsers accept, and as what (schema.py, gates.py: parse):
    not only those that to_dict writes. */
module Parsers {
  import opened Basics
  import opened JsonText
  import opened Schema
  import opened SchemaCodec
  import Gates

  // ---------- what a key can hold ----------

  predicate TextAt(f: map<string, Json>, key: string, s: string) {
    key in f && f[key] == Str(s)
  }

  /** An absent value is a missing key or a null. */
  predicate TextOrNone(f: map<string, Json>, key: string, x: Option<string>) {
    match x
    case None => key !in f || f[key] == Null
    case Some(s) => key in f && f[key] == Str(s)
  }

  predicate NumberOrNone(f: map<string, Json>, key: string, x: Option<int>) {
    match x
    case None => key !in f || f[key] == Null
    case Some(n) => key in f && f[key] == Num(n)
  }

  predicate Texts(j: Json, xs: seq<string>) {
    j.Arr? && |j.items| == |xs| && forall i :: 0 <= i < |xs| ==> j.items[i] == Str(xs[i])
  }

  /** A list that may be left out when it is empty. */
  predicate TextsOrNone(f: map<string, Json>, key: string, xs: seq<string>) {
    if key in f then Texts(f[key], xs) else xs == []
  }

  // ---------- the dictionaries of each shape ----------

  predicate ArtifactText(j: Json, a: ArtifactRef) {
    && j.Obj? && j.fields.Keys <= {"kind", "path", "sha256"}
    && TextAt(j.fields, "kind", a.kind) && TextAt(j.fields, "path", a.path) && TextOrNone(j.fields, "sha256", a.sha256)
  }

  predicate Artifacts(j: Json, xs: seq<ArtifactRef>) {
    j.Arr? && |j.items| == |xs| && forall i :: 0 <= i < |xs| ==> ArtifactText(j.items[i], xs[i])
  }

  predicate ArtifactsOrNone(f: map<string, Json>, key: string, xs: seq<ArtifactRef>) {
    if key in f then Artifacts(f[key], xs) else xs == []
  }

  predicate NodeText(j: Json, n: WorkNode) {
    && j.Obj?
    && j.fields.Keys <= {"id", "title", "team", "exit_gate", "acceptance", "tier_max", "inputs", "deliverables",
                         "depends_on", "deadline"}
    && TextAt(j.fields, "id", n.id) && TextAt(j.fields, "title", n.title) && TextAt(j.fields, "team", n.team)
    && TextAt(j.fields, "exit_gate", n.exitGate) && TextAt(j.fields, "tier_max", n.tierMax)
    && "acceptance" in j.fields && Texts(j.fields["acceptance"], n.acceptance)
    && "deliverables" in j.fields && Artifacts(j.fields["deliverables"], n.deliverables)
    && ArtifactsOrNone(j.fields, "inputs", n.inputs) && TextsOrNone(j.fields, "depends_on", n.dependsOn)
    && NumberOrNone(j.fields, "deadline", n.deadline)
  }

  predicate Nodes(j: Json, xs: seq<WorkNode>) {
    j.Arr? && |j.items| == |xs| && forall i :: 0 <= i < |xs| ==> NodeText(j.items[i], xs[i])
  }

  predicate GraphText(j: Json, g: WorkGraph) {
    && j.Obj? && j.fields.Keys <= {"goal", "nodes", "invariants_touched"}
    && TextAt(j.fields, "goal", g.goal) && "nodes" in j.fields && Nodes(j.fields["nodes"], g.nodes)
    && TextsOrNone(j.fields, "invariants_touched", g.invariantsTouched)
  }

  predicate BlockerText(j: Json, b: BlockerRef) {
    && j.Obj? && j.fields.Keys <= {"reason", "needs_team", "needs_tier"}
    && TextAt(j.fields, "reason", b.reason)
    && TextOrNone(j.fields, "needs_team", b.needsTeam) && TextOrNone(j.fields, "needs_tier", b.needsTier)
  }

  predicate BlockerOrNone(f: map<string, Json>, key: string, x: Option<BlockerRef>) {
    match x
    case None => key !in f || f[key] == Null
    case Some(b) => key in f && BlockerText(f[key], b)
  }

  predicate StatusText(j: Json, u: StatusUpdate) {
    && j.Obj?
    && j.fields.Keys <= {"task_id", "state", "next_update_by", "pct_complete", "artifacts_produced", "blocker"}
    && TextAt(j.fields, "task_id", u.taskId) && TextAt(j.fields, "state", u.state)
    && "next_update_by" in j.fields && j.fields["next_update_by"] == Num(u.nextUpdateBy)
    && NumberOrNone(j.fields, "pct_complete", u.pctComplete)
    && ArtifactsOrNone(j.fields, "artifacts_produced", u.artifactsProduced)
    && BlockerOrNone(j.fields, "blocker", u.blocker)
  }

  /** A result without a time was checked now. */
  predicate ResultText(j: Json, r: Gates.GateResult, now: int) {
    && j.Obj? && j.fields.Keys <= {"gate", "passed", "evidence", "checked_by", "checked_at"}
    && TextAt(j.fields, "gate", r.gate) && TextAt(j.fields, "checked_by", r.checkedBy)
    && "passed" in j.fields && j.fields["passed"] == Bool(r.passed)
    && "evidence" in j.fields && Texts(j.fields["evidence"], r.evidence)
    && if "checked_at" in j.fields && j.fields["checked_at"] != Null then j.fields["checked_at"] == Num(r.checkedAt)
       else r.checkedAt == now
  }

  // ---------- pieces ----------

  lemma {:induction false} ReadAllIff<T>(items: seq<Json>, read: Json -> Result<T>, xs: seq<T>)
    ensures ReadAll(items, read) == Ok(xs) <==> |items| == |xs| && forall i :: 0 <= i < |xs| ==> read(items[i]) == Ok(xs[i])
  {
    if items != [] && xs != [] {
      ReadAllIff(items[1..], read, xs[1..]);
      ReadFirst(items, read, xs);
      assert forall i :: 1 <= i < |xs| ==> xs[i] == xs[1..][i - 1];
      assert forall i :: 1 <= i < |items| ==> items[i] == items[1..][i - 1];
    } else if items != [] {
      ReadSome(items, read);
    }
  }

  lemma ReadSome<T>(items: seq<Json>, read: Json -> Result<T>)
    requires items != []
    ensures ReadAll(items, read) != Ok([])
  {}

  lemma ReadFirst<T>(items: seq<Json>, read: Json -> Result<T>, xs: seq<T>)
    requires items != [] && xs != []
    ensures ReadAll(items, read) == Ok(xs) <==> read(items[0]) == Ok(xs[0]) && ReadAll(items[1..], read) == Ok(xs[1..])
  {
    assert xs == [xs[0]] + xs[1..];
    if read(items[0]).Ok? && ReadAll(items[1..], read).Ok? {
      var v, vs := read(items[0]).value, ReadAll(items[1..], read).value;
      assert ([v] + vs)[0] == v && ([v] + vs)[1..] == vs;
    }
  }

  lemma TextsIff(j: Json, xs: seq<string>)
    ensures SchemaCodec.ReadArray(j, ReadStr) == Ok(xs) <==> Texts(j, xs)
  {
    if j.Arr? { ReadAllIff(j.items, ReadStr, xs); }
  }

  lemma TextsOrNoneIff(f: map<string, Json>, key: string, xs: seq<string>)
    ensures ListOrEmpty(f, key, ReadStr) == Ok(xs) <==> TextsOrNone(f, key, xs)
  {
    if key in f { TextsIff(f[key], xs); }
  }

  lemma TextOrNoneIff(f: map<string, Json>, key: string, x: Option<string>)
    ensures Optional(f, key, ReadStr) == Ok(x) <==> TextOrNone(f, key, x)
  {}

  lemma NumberOrNoneIff(f: map<string, Json>, key: string, x: Option<int>)
    ensures Optional(f, key, ReadInstant) == Ok(x) <==> NumberOrNone(f, key, x)
  {}

  // ---------- artifacts ----------

  /** A dictionary parses as an artifact exactly when it says it and it is valid. */
  lemma ArtifactParsedIff(j: Json, a: ArtifactRef)
    ensures ParseArtifact(j) == Ok(a) <==> ArtifactText(j, a) && a.Valid()
    ensures ParseArtifact(j).Err? ==> ParseArtifact(j) == Err(SchemaError)
  {
    if j.Obj? { TextOrNoneIff(j.fields, "sha256", a.sha256); }
  }

  lemma ArtifactsIff(j: Json, xs: seq<ArtifactRef>)
    ensures SchemaCodec.ReadArray(j, ParseArtifact) == Ok(xs) <==> Artifacts(j, xs) && AllValid(xs)
  {
    if j.Arr? {
      ReadAllIff(j.items, ParseArtifact, xs);
      forall i | 0 <= i < |xs| && i < |j.items|
        ensures ParseArtifact(j.items[i]) == Ok(xs[i]) <==> ArtifactText(j.items[i], xs[i]) && xs[i].Valid()
      {
        ArtifactParsedIff(j.items[i], xs[i]);
      }
    }
  }

  lemma ArtifactsOrNoneIff(f: map<string, Json>, key: string, xs: seq<ArtifactRef>)
    ensures ListOrEmpty(f, key, ParseArtifact) == Ok(xs) <==> ArtifactsOrNone(f, key, xs) && AllValid(xs)
  {
    if key in f { ArtifactsIff(f[key], xs); }
  }

  // ---------- nodes ----------

  lemma NodeFieldsIff(f: map<string, Json>, n: WorkNode)
    requires NODE_REQUIRED <= f.Keys
    ensures NodeFields(f) == Ok(n) <==>
      && ReadStr(f["id"]) == Ok(n.id) && ReadStr(f["title"]) == Ok(n.title) && ReadStr(f["team"]) == Ok(n.team)
      && ReadStr(f["exit_gate"]) == Ok(n.exitGate) && ReadStr(f["tier_max"]) == Ok(n.tierMax)
      && SchemaCodec.ReadArray(f["acceptance"], ReadStr) == Ok(n.acceptance) && ListOrEmpty(f, "inputs", ParseArtifact) == Ok(n.inputs)
      && SchemaCodec.ReadArray(f["deliverables"], ParseArtifact) == Ok(n.deliverables)
      && ListOrEmpty(f, "depends_on", ReadStr) == Ok(n.dependsOn) && Optional(f, "deadline", ReadInstant) == Ok(n.deadline)
    ensures NodeFields(f).Err? ==> NodeFields(f) == Err(SchemaError)
  {}

  lemma NodeSays(f: map<string, Json>, n: WorkNode)
    requires NODE_REQUIRED <= f.Keys <= NODE_KEYS
    ensures NodeFields(f) == Ok(n) <==> NodeText(Obj(f), n) && AllValid(n.inputs) && AllValid(n.deliverables)
  {
    NodeFieldsIff(f, n);
    TextsIff(f["acceptance"], n.acceptance);
    ArtifactsOrNoneIff(f, "inputs", n.inputs);
    ArtifactsIff(f["deliverables"], n.deliverables);
    TextsOrNoneIff(f, "depends_on", n.dependsOn);
    NumberOrNoneIff(f, "deadline", n.deadline);
  }

  /** A dictionary parses as a node exactly when it has the required keys and no unknown one,
      each says the node's value, and the node is valid. */
  lemma NodeParsedIff(j: Json, n: WorkNode)
    ensures ParseNode(j) == Ok(n) <==> NodeText(j, n) && n.Valid()
    ensures ParseNode(j).Err? ==> ParseNode(j) == Err(SchemaError)
  {
    if j.Obj? && StrictKeys(j.fields, NODE_KEYS, NODE_REQUIRED) {
      NodeSays(j.fields, n);
      NodeFieldsIff(j.fields, n);
      if NodeFields(j.fields).Ok? { NodeFieldsIff(j.fields, NodeFields(j.fields).value); }
    }
  }

  lemma NodesIff(j: Json, xs: seq<WorkNode>)
    ensures SchemaCodec.ReadArray(j, ParseNode) == Ok(xs) <==> Nodes(j, xs) && forall i :: 0 <= i < |xs| ==> xs[i].Valid()
  {
    if j.Arr? {
      ReadAllIff(j.items, ParseNode, xs);
      forall i | 0 <= i < |xs| && i < |j.items|
        ensures ParseNode(j.items[i]) == Ok(xs[i]) <==> NodeText(j.items[i], xs[i]) && xs[i].Valid()
      {
        NodeParsedIff(j.items[i], xs[i]);
      }
    }
  }

  /** The same for graphs, down to their nodes and artifacts. */
  lemma GraphParsedIff(j: Json, g: WorkGraph)
    ensures ParseGraph(j) == Ok(g) <==> GraphText(j, g) && g.Valid()
    ensures ParseGraph(j).Err? ==> ParseGraph(j) == Err(SchemaError)
  {
    if j.Obj? && StrictKeys(j.fields, {"goal", "nodes", "invariants_touched"}, {"goal", "nodes"}) {
      NodesIff(j.fields["nodes"], g.nodes);
      TextsOrNoneIff(j.fields, "invariants_touched", g.invariantsTouched);
    }
  }

  // ---------- reports ----------

  /** The same for blockers. */
  lemma BlockerParsedIff(j: Json, b: BlockerRef)
    ensures ParseBlocker(j) == Ok(b) <==> BlockerText(j, b) && b.Valid()
    ensures ParseBlocker(j).Err? ==> ParseBlocker(j) == Err(SchemaError)
  {
    if j.Obj? {
      TextOrNoneIff(j.fields, "needs_team", b.needsTeam);
      TextOrNoneIff(j.fields, "needs_tier", b.needsTier);
    }
  }

  lemma BlockerOrNoneIff(f: map<string, Json>, key: string, x: Option<BlockerRef>)
    ensures Optional(f, key, ParseBlocker) == Ok(x) <==> BlockerOrNone(f, key, x) && (x.Some? ==> x.value.Valid())
  {
    if key in f && x.Some? {
      BlockerParsedIff(f[key], x.value);
    }
  }

  lemma StatusFieldsIff(f: map<string, Json>, u: StatusUpdate)
    requires STATUS_REQUIRED <= f.Keys
    ensures StatusFields(f) == Ok(u) <==>
      && ReadStr(f["task_id"]) == Ok(u.taskId) && ReadStr(f["state"]) == Ok(u.state)
      && ReadInstant(f["next_update_by"]) == Ok(u.nextUpdateBy) && Optional(f, "pct_complete", ReadInstant) == Ok(u.pctComplete)
      && ListOrEmpty(f, "artifacts_produced", ParseArtifact) == Ok(u.artifactsProduced)
      && Optional(f, "blocker", ParseBlocker) == Ok(u.blocker)
    ensures StatusFields(f).Err? ==> StatusFields(f) == Err(SchemaError)
  {}

  lemma StatusSays(f: map<string, Json>, u: StatusUpdate)
    requires STATUS_REQUIRED <= f.Keys <= STATUS_KEYS
    ensures StatusFields(f) == Ok(u) <==>
      StatusText(Obj(f), u) && AllValid(u.artifactsProduced) && (u.blocker.Some? ==> u.blocker.value.Valid())
  {
    StatusFieldsIff(f, u);
    NumberOrNoneIff(f, "pct_complete", u.pctComplete);
    ArtifactsOrNoneIff(f, "artifacts_produced", u.artifactsProduced);
    BlockerOrNoneIff(f, "blocker", u.blocker);
  }

  /** The same for status reports. */
  lemma StatusParsedIff(j: Json, u: StatusUpdate)
    ensures ParseStatus(j) == Ok(u) <==> StatusText(j, u) && u.Valid()
    ensures ParseStatus(j).Err? ==> ParseStatus(j) == Err(SchemaError)
  {
    if j.Obj? && StrictKeys(j.fields, STATUS_KEYS, STATUS_REQUIRED) {
      StatusSays(j.fields, u);
      StatusFieldsIff(j.fields, u);
      if StatusFields(j.fields).Ok? { StatusFieldsIff(j.fields, StatusFields(j.fields).value); }
    }
  }

  // ---------- gate results ----------

  lemma ResultFieldsIff(f: map<string, Json>, r: Gates.GateResult, now: int)
    requires RESULT_REQUIRED <= f.Keys <= RESULT_KEYS
    ensures ResultFields(f, now) == Ok(r) <==> ResultText(Obj(f), r, now)
    ensures ResultFields(f, now).Err? ==> ResultFields(f, now) == Err(SchemaError)
  {
    TextsIff(f["evidence"], r.evidence);
  }

  /** The same for gate results; one without a time is stamped with the clock. */
  lemma ResultParsedIff(j: Json, r: Gates.GateResult, now: int)
    ensures ParseResult(j, now) == Ok(r) <==> ResultText(j, r, now) && r.Valid()
    ensures ParseResult(j, now).Err? ==> ParseResult(j, now) == Err(SchemaError)
  {
    if j.Obj? && StrictKeys(j.fields, RESULT_KEYS, RESULT_REQUIRED) {
      ResultFieldsIff(j.fields, r, now);
    }
  }

  // ---------- dictionaries near those of to_dict ----------

  /** What to_dict writes, less some empty lists, and with some absent values as null. */
  ghost predicate Near(full: map<string, Json>, f: map<string, Json>, lists: set<string>, options: set<string>) {
    && full.Keys - lists <= f.Keys <= full.Keys + options
    && (forall k :: k in full && k !in f ==> full[k] == Arr([]))
    && (forall k :: k in f && k in full ==> f[k] == full[k])
    && (forall k :: k in f && k !in full ==> f[k] == Null)
  }

  lemma {:induction false} WrittenAt<T>(xs: seq<T>, write: T -> Json, i: nat)
    requires i < |xs|
    ensures |WriteAll(xs, write)| == |xs| && WriteAll(xs, write)[i] == write(xs[i])
  {
    if i > 0 { WrittenAt(xs[1..], write, i - 1); } else if |xs| > 1 { WrittenAt(xs[1..], write, 0); }
  }

  lemma TextsWritten(xs: seq<string>)
    ensures Texts(Arr(WriteAll(xs, WriteStr)), xs)
  {
    forall i | 0 <= i < |xs| ensures |WriteAll(xs, WriteStr)| == |xs| && WriteAll(xs, WriteStr)[i] == Str(xs[i]) {
      WrittenAt(xs, WriteStr, i);
    }
  }

  lemma ArtifactWritten(a: ArtifactRef)
    ensures ArtifactText(ArtifactJson(a), a)
  {
    ArtifactKeysDiffer();
  }

  lemma ArtifactsWritten(xs: seq<ArtifactRef>)
    ensures Artifacts(Arr(WriteAll(xs, ArtifactJson)), xs)
  {
    forall i | 0 <= i < |xs|
      ensures |WriteAll(xs, ArtifactJson)| == |xs| && ArtifactText(WriteAll(xs, ArtifactJson)[i], xs[i])
    {
      WrittenAt(xs, ArtifactJson, i);
      ArtifactWritten(xs[i]);
    }
  }

  /** Parsing gives back a valid node from its dictionary without any of its empty optional
      lists, and with or without a null for an absent deadline. */
  lemma NodeNearParses(n: WorkNode, f: map<string, Json>)
    requires n.Valid() && Near(NodeJson(n).fields, f, {"inputs", "depends_on"}, {"deadline"})
    ensures ParseNode(Obj(f)) == Ok(n)
  {
    NodeTexts(n);
    NodeLists(n);
    TextsWritten(n.acceptance);
    TextsWritten(n.dependsOn);
    ArtifactsWritten(n.inputs);
    ArtifactsWritten(n.deliverables);
    NodeNearSays(n, f);
    NodeParsedIff(Obj(f), n);
  }

  lemma NodeNearSays(n: WorkNode, f: map<string, Json>)
    requires Near(NodeJson(n).fields, f, {"inputs", "depends_on"}, {"deadline"})
    requires var full := NodeJson(n).fields;
      && NODE_REQUIRED <= full.Keys <= NODE_KEYS
      && NodeText(Obj(full), n)
    ensures NodeText(Obj(f), n)
  {}

  /** The shortest report: no percentage, no artifacts, no blocker, as missing keys or nulls. */
  lemma StatusNearParses(u: StatusUpdate, f: map<string, Json>)
    requires u.Valid() && Near(StatusJson(u).fields, f, {"artifacts_produced"}, {"pct_complete", "blocker"})
    ensures ParseStatus(Obj(f)) == Ok(u)
  {
    StatusParsedIff(StatusJson(u), u);
    StatusRoundTrip(u);
    StatusParsedIff(Obj(f), u);
  }

  /** Graphs without invariants may leave the key out. */
  lemma GraphNearParses(g: WorkGraph, f: map<string, Json>)
    requires g.Valid() && Near(GraphJson(g).fields, f, {"invariants_touched"}, {})
    ensures ParseGraph(Obj(f)) == Ok(g)
  {
    GraphParsedIff(GraphJson(g), g);
    GraphRoundTrip(g);
    GraphParsedIff(Obj(f), g);
  }

  /** A missing required key, or an unknown one, is refused. */
  lemma WrongKeysRefused(f: map<string, Json>, now: int)
    ensures !(NODE_REQUIRED <= f.Keys <= NODE_KEYS) ==> ParseNode(Obj(f)) == Err(SchemaError)
    ensures !({"goal", "nodes"} <= f.Keys <= {"goal", "nodes", "invariants_touched"}) ==> ParseGraph(Obj(f)) == Err(SchemaError)
    ensures !(STATUS_REQUIRED <= f.Keys <= STATUS_KEYS) ==> ParseStatus(Obj(f)) == Err(SchemaError)
    ensures !(RESULT_REQUIRED <= f.Keys <= RESULT_KEYS) ==> ParseResult(Obj(f), now) == Err(SchemaError)
    ensures !({"kind", "path"} <= f.Keys <= {"kind", "path", "sha256"}) ==> ParseArtifact(Obj(f)) == Err(SchemaError)
    ensures !({"reason"} <= f.Keys <= {"reason", "needs_team", "needs_tier"}) ==> ParseBlocker(Obj(f)) == Err(SchemaError)
  {}
}
