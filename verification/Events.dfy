/** What the dispatcher and a cold start write to the audit log, and how an entry is read
    back by field name (dispatch.py: the `append` calls; state.py: the `fields.get` calls). */
module Events {
  import opened Basics
  import opened JsonText
  import opened AuditChain
  import opened Schema
  import opened SchemaCodec

  datatype Event =
    | Dispatched(taskId: string, graphId: string, nodeId: string, team: string, lead: string, tierMax: string,
                 exitGate: string, tokenHash: string, payloadHash: string, deliverables: Option<seq<ArtifactRef>>)
    | IngressAccepted(taskId: string, team: string, lead: string)
    | Status(taskId: string, team: string, state: string, payloadHash: string)
    | GateOutcome(taskId: string, team: string, gate: string, passed: bool, evidenceHash: string)
    | Reclaimed(taskId: string, team: string, reason: string)
    | TeamPaused(team: string, reason: string)
    | TeamResumed(team: string)
    | ColdStart(entriesReplayed: int)
    | Memo
    | Other

  function Name(ev: Event): string {
    match ev
    case Dispatched(_, _, _, _, _, _, _, _, _, _) => "dispatch"
    case IngressAccepted(_, _, _) => "ingress_accepted"
    case Status(_, _, _, _) => "status"
    case GateOutcome(_, _, _, _, _) => "gate_result"
    case Reclaimed(_, _, _) => "reclaim"
    case TeamPaused(_, _) => "team_paused"
    case TeamResumed(_) => "team_resumed"
    case ColdStart(_) => "cold_start"
    case Memo => "decision_memo"
    case Other => "other"
  }

  function Fields(ev: Event): map<string, Json> {
    match ev
    case Dispatched(t, g, n, team, lead, tier, gate, token, payload, refs) =>
      map["task_id" := Str(t), "graph_id" := Str(g), "node_id" := Str(n), "team" := Str(team), "lead" := Str(lead),
          "tier_max" := Str(tier), "exit_gate" := Str(gate), "token_hash" := Str(token),
          "payload_hash" := Str(payload), "deliverables" := Listing(refs)]
    case IngressAccepted(t, team, lead) => map["task_id" := Str(t), "team" := Str(team), "lead" := Str(lead)]
    case Status(t, team, state, payload) =>
      map["task_id" := Str(t), "team" := Str(team), "state" := Str(state), "payload_hash" := Str(payload)]
    case GateOutcome(t, team, gate, passed, evidence) =>
      map["task_id" := Str(t), "team" := Str(team), "gate" := Str(gate), "passed" := Bool(passed),
          "evidence_hash" := Str(evidence)]
    case Reclaimed(t, team, reason) => map["task_id" := Str(t), "team" := Str(team), "reason" := Str(reason)]
    case TeamPaused(team, reason) => map["team" := Str(team), "reason" := Str(reason)]
    case TeamResumed(team) => map["team" := Str(team)]
    case ColdStart(n) => map["entries_replayed" := Num(n)]
    case _ => map[]
  }

  /** A field read as text; "" stands for a missing field. */
  function Text(f: map<string, Json>, key: string): string {
    if key in f && f[key].Str? then f[key].s else ""
  }

  /** Values that Python takes for false. */
  predicate Falsy(j: Json) {
    j == Null || j == Bool(false) || j == Num(0) || j == Str("") || j == Arr([]) || j == Obj(map[])
  }

  /** The deliverables of a dispatch entry: a missing or false value lists none, and a value
      that does not parse is None. */
  function Deliverables(f: map<string, Json>): Option<seq<ArtifactRef>> {
    if "deliverables" !in f || Falsy(f["deliverables"]) then Some([])
    else match SchemaCodec.ReadArray(f["deliverables"], ParseArtifact) case Ok(refs) => Some(refs) case Err(_) => None
  }

  function Listing(refs: Option<seq<ArtifactRef>>): Json {
    match refs case Some(list) => Arr(WriteAll(list, ArtifactJson)) case None => Null
  }

  /** How an entry with this name and these fields is read. */
  function View(name: string, f: map<string, Json>): Event {
    var t := Text(f, "task_id");
    if name == "dispatch" && t != "" then
      Dispatched(t, Text(f, "graph_id"), Text(f, "node_id"), Text(f, "team"), Text(f, "lead"), Text(f, "tier_max"),
                 Text(f, "exit_gate"), Text(f, "token_hash"), Text(f, "payload_hash"), Deliverables(f))
    else if name == "ingress_accepted" then IngressAccepted(t, Text(f, "team"), Text(f, "lead"))
    else if name == "status" then Status(t, Text(f, "team"), Text(f, "state"), Text(f, "payload_hash"))
    else if name == "gate_result" && t != "" then
      GateOutcome(t, Text(f, "team"), Text(f, "gate"), "passed" in f && !Falsy(f["passed"]), Text(f, "evidence_hash"))
    else if name == "reclaim" && t != "" then Reclaimed(t, Text(f, "team"), Text(f, "reason"))
    else if name == "team_paused" then TeamPaused(Text(f, "team"), Text(f, "reason"))
    else if name == "team_resumed" then TeamResumed(Text(f, "team"))
    else if name == "cold_start" then ColdStart(if "entries_replayed" in f && f["entries_replayed"].Num? then f["entries_replayed"].n else 0)
    else if name == "decision_memo" then Memo
    else Other
  }

  /** Events the orchestrator writes: the task ids that replay acts on are not empty, and
      deliverables are valid. */
  predicate Writable(ev: Event) {
    && (ev.Dispatched? || ev.GateOutcome? || ev.Reclaimed? ==> ev.taskId != "")
    && (ev.Dispatched? ==> ev.deliverables.Some? && AllValid(ev.deliverables.value))
    && !ev.Other?
  }

  lemma FieldNamesDiffer()
    ensures "team_paused" != "gate_result" && "node_id" != "task_id" && "tier_max" != "graph_id"
    ensures "exit_gate" != "task_id" && "team" != "lead" && "team" != "gate" && "lead" != "gate"
    ensures "token_hash" != "exit_gate" && "payload_hash" != "deliverables"
    ensures "reason" != "passed"
  {
    assert "team_paused"[0] != "gate_result"[0];
    assert "node_id"[0] != "task_id"[0];
    assert "tier_max"[0] != "graph_id"[0];
    assert "team"[0] != "lead"[0] && "team"[0] != "gate"[0] && "lead"[0] != "gate"[0];
    assert "payload_hash"[0] != "deliverables"[0];
    assert "reason"[0] != "passed"[0];
  }

  lemma DispatchFields(ev: Event)
    requires ev.Dispatched?
    ensures var f := Fields(ev);
      && Text(f, "task_id") == ev.taskId && Text(f, "graph_id") == ev.graphId && Text(f, "node_id") == ev.nodeId
      && Text(f, "team") == ev.team && Text(f, "lead") == ev.lead && Text(f, "tier_max") == ev.tierMax
      && Text(f, "exit_gate") == ev.exitGate && Text(f, "token_hash") == ev.tokenHash
      && Text(f, "payload_hash") == ev.payloadHash
      && "deliverables" in f && f["deliverables"] == Listing(ev.deliverables)
  {
    FieldNamesDiffer();
  }

  lemma ListingReadBack(refs: seq<ArtifactRef>, f: map<string, Json>)
    requires AllValid(refs) && "deliverables" in f && f["deliverables"] == Listing(Some(refs))
    ensures Deliverables(f) == Some(refs)
  {
    ArtifactsRoundTrip(refs);
    if refs != [] { assert WriteAll(refs, ArtifactJson) != []; }
  }

  lemma DispatchView(ev: Event)
    requires ev.Dispatched? && Writable(ev)
    ensures View("dispatch", Fields(ev)) == ev
  {
    DispatchFields(ev);
    ListingReadBack(ev.deliverables.value, Fields(ev));
  }

  lemma IngressView(ev: Event)
    requires ev.IngressAccepted? && Writable(ev)
    ensures View("ingress_accepted", Fields(ev)) == ev
  {
    FieldNamesDiffer();
  }

  lemma StatusView(ev: Event)
    requires ev.Status? && Writable(ev)
    ensures View("status", Fields(ev)) == ev
  {
    FieldNamesDiffer();
  }

  lemma GateView(ev: Event)
    requires ev.GateOutcome? && Writable(ev)
    ensures View("gate_result", Fields(ev)) == ev
  {
    FieldNamesDiffer();
  }

  lemma ReclaimView(ev: Event)
    requires ev.Reclaimed? && Writable(ev)
    ensures View("reclaim", Fields(ev)) == ev
  {
    FieldNamesDiffer();
  }

  lemma TeamView(ev: Event)
    requires ev.TeamPaused? || ev.TeamResumed? || ev.ColdStart? || ev.Memo?
    ensures View(Name(ev), Fields(ev)) == ev
  {
    FieldNamesDiffer();
  }

  /** Reading back what was written gives the event. */
  lemma ViewUndoesFields(ev: Event)
    requires Writable(ev)
    ensures View(Name(ev), Fields(ev)) == ev
  {
    match ev
    case Dispatched(_, _, _, _, _, _, _, _, _, _) => DispatchView(ev);
    case IngressAccepted(_, _, _) => IngressView(ev);
    case Status(_, _, _, _) => StatusView(ev);
    case GateOutcome(_, _, _, _, _) => GateView(ev);
    case Reclaimed(_, _, _) => ReclaimView(ev);
    case _ => TeamView(ev);
  }

  lemma CoreNotInFields(ev: Event)
    ensures Fields(ev).Keys !! CORE
  {
    assert "team"[0] != "event"[0];
    assert "lead"[0] != "seq"[0];
    assert "state"[0] != "actor"[0] && "state"[0] != "event"[0];
  }

  /** The events an audit file holds, in order. */
  function Views(es: seq<Entry>): (r: seq<Event>)
    ensures |r| == |es|
  {
    seq(|es|, i requires 0 <= i < |es| => View(es[i].event, es[i].fields))
  }

  lemma ViewsSnoc(es: seq<Entry>, e: Entry)
    ensures Views(es + [e]) == Views(es) + [View(e.event, e.fields)]
  {}
}
