/** How the texts that are hashed and signed are worded, and how entries that others wrote are
    read (schema.py: canonical_json and the to_dict methods; audit.py: _entry_from_dict;
    state.py: replay). A text that reads back is not enough here: the hashes are of the text. */
module Wording {
  import opened Basics
  import opened JsonText
  import opened AuditChain
  import opened LogText
  import opened Schema
  import opened SchemaCodec
  import opened Events
  import Control
  import Gates
  import Lex
  import Parsers

  // ---------- canonical text ----------

  /** Code-point order: a proper prefix comes first, and otherwise the first difference decides. */
  lemma {:induction false} LessIff(a: string, b: string)
    ensures Lex.Less(a, b) <==> (a <= b && a != b) || exists i :: Differ(a, b, i) && a[i] < b[i]
  {
    if a != "" && b != "" && a[0] == b[0] {
      LessIff(a[1..], b[1..]);
      DifferLater(a, b);
    } else if a != "" && b != "" {
      assert Differ(a, b, 0);
    }
  }

  /** i is the first place where both have a character and the characters differ. */
  predicate Differ(a: string, b: string, i: int) {
    0 <= i < |a| && i < |b| && a[..i] == b[..i] && a[i] != b[i]
  }

  lemma DifferLater(a: string, b: string)
    requires a != "" && b != "" && a[0] == b[0]
    ensures (exists i :: Differ(a, b, i) && a[i] < b[i]) <==> exists i :: Differ(a[1..], b[1..], i) && a[1..][i] < b[1..][i]
    ensures a <= b && a != b <==> a[1..] <= b[1..] && a[1..] != b[1..]
  {
    assert a == [a[0]] + a[1..] && b == [b[0]] + b[1..];
    if i :| Differ(a, b, i) && a[i] < b[i] {
      assert a[1..][..i - 1] == a[..i][1..] && b[1..][..i - 1] == b[..i][1..];
      assert Differ(a[1..], b[1..], i - 1) && a[1..][i - 1] < b[1..][i - 1];
    }
    if i :| Differ(a[1..], b[1..], i) && a[1..][i] < b[1..][i] {
      assert a[..i + 1] == [a[0]] + a[1..][..i] && b[..i + 1] == [b[0]] + b[1..][..i];
      assert Differ(a, b, i + 1) && a[i + 1] < b[i + 1];
    }
  }

  /** The seven characters with a short escape, the other controls by number, and every other
      character as it is. */
  lemma EscapeIs(c: char)
    ensures var e := Escape(c);
      if c == '\"' || c == '\\' then e == ['\\', c]
      else if c == '\n' then e == ['\\', 'n'] else if c == '\r' then e == ['\\', 'r'] else if c == '\t' then e == ['\\', 't']
      else if c as int == 8 then e == ['\\', 'b'] else if c as int == 12 then e == ['\\', 'f']
      else if c as int < 32 then
        && |e| == 6 && e[..4] == ['\\', 'u', '0', '0'] && e[4] == (if c as int < 16 then '0' else '1')
        && (if c as int % 16 < 10 then e[5] as int == '0' as int + c as int % 16 else e[5] as int == 'a' as int + c as int % 16 - 10)
      else e == [c]
  {
    assert forall i :: 0 <= i < 10 ==> HEX[i] as int == '0' as int + i;
    assert forall i :: 10 <= i < 16 ==> HEX[i] as int == 'a' as int + i - 10;
  }

  function Joined(parts: seq<string>): string {
    if parts == [] then "" else if |parts| == 1 then parts[0] else parts[0] + "," + Joined(parts[1..])
  }

  function Quoted(s: string): string {
    ['\"'] + EscapeAll(s) + ['\"']
  }

  function Items(items: seq<Json>): (r: seq<string>)
    ensures |r| == |items|
  {
    seq(|items|, i requires 0 <= i < |items| => Dumps(items[i]))
  }

  function Pairs(m: map<string, Json>, keys: seq<string>): (r: seq<string>)
    requires forall k :: k in keys ==> k in m
    ensures |r| == |keys|
  {
    seq(|keys|, i requires 0 <= i < |keys| => Quoted(keys[i]) + ":" + Dumps(m[keys[i]]))
  }

  lemma {:induction false} ItemsJoined(j: Json, items: seq<Json>)
    requires |items| > 0 && forall i :: 0 <= i < |items| ==> items[i] < j
    ensures DumpItems(j, items) == Joined(Items(items))
  {
    if |items| > 1 {
      ItemsJoined(j, items[1..]);
      assert Items(items)[1..] == Items(items[1..]);
    }
  }

  lemma {:induction false} PairsJoined(j: Json, keys: seq<string>)
    requires j.Obj? && |keys| > 0 && forall k :: k in keys ==> k in j.fields
    ensures DumpFields(j, keys) == Joined(Pairs(j.fields, keys))
  {
    if |keys| > 1 {
      PairsJoined(j, keys[1..]);
      assert Pairs(j.fields, keys)[1..] == Pairs(j.fields, keys[1..]);
    }
  }

  /** An array is its items between commas, without white space. */
  lemma ArrayText(items: seq<Json>)
    ensures Dumps(Arr(items)) == ['['] + Joined(Items(items)) + [']']
  {
    if items != [] { ItemsJoined(Arr(items), items); }
  }

  /** An object lists its keys in code-point order, each once, without white space. */
  lemma ObjectText(m: map<string, Json>) returns (keys: seq<string>)
    ensures (forall k :: k in keys <==> k in m) && forall i, j :: 0 <= i < j < |keys| ==> Lex.Less(keys[i], keys[j])
    ensures Dumps(Obj(m)) == ['{'] + Joined(Pairs(m, keys)) + ['}']
  {
    keys := Lex.Sorted(m.Keys);
    Lex.SortedIsStrict(m.Keys);
    if m == map[] {
      assert m.Keys == {} && keys == [];
    } else {
      var k :| k in m;
      assert k in keys;
      PairsJoined(Obj(m), keys);
    }
  }

  lemma LeafText(b: bool, s: string)
    ensures Dumps(Null) == ['n', 'u', 'l', 'l'] && Dumps(Str(s)) == Quoted(s)
    ensures Dumps(Bool(b)) == if b then ['t', 'r', 'u', 'e'] else ['f', 'a', 'l', 's', 'e']
  {}

  /** Nothing may follow the value. */
  lemma TrailingRefused(j: Json, rest: string)
    requires rest != "" && NoDigitFirst(rest)
    ensures Loads(Dumps(j) + rest).None?
  {
    ReadDumps(j, rest);
  }

  // ---------- white space ----------

  /** The white space that strip takes off, by code point. */
  lemma SpaceIs(c: char)
    ensures IsSpace(c) <==>
      || c as int in {9, 10, 11, 12, 13, 28, 29, 30, 31, 32, 0x85, 0xA0, 0x1680, 0x2028, 0x2029, 0x202F, 0x205F, 0x3000}
      || 0x2000 <= c as int <= 0x200A
  {}

  /** The characters at which splitlines ends a line, by code point. */
  lemma BreakIs(c: char)
    ensures IsBreak(c) <==> c as int in {10, 11, 12, 13, 28, 29, 30, 0x85, 0x2028, 0x2029}
  {}

  // ---------- dictionaries ----------

  function IfSome<T>(x: Option<T>, key: string): set<string> {
    if x.Some? then {key} else {}
  }

  /** What to_dict writes: absent values are left out, and empty lists are not. */
  lemma WrittenKeys(a: ArtifactRef, n: WorkNode, g: WorkGraph)
    ensures ArtifactJson(a).fields.Keys == {"kind", "path"} + IfSome(a.sha256, "sha256")
    ensures NodeJson(n).fields.Keys == {"id", "title", "team", "exit_gate", "acceptance", "tier_max", "inputs", "deliverables",
                                        "depends_on"} + IfSome(n.deadline, "deadline")
    ensures GraphJson(g).fields.Keys == {"goal", "nodes", "invariants_touched"}
  {}

  lemma BlockerKeys(b: BlockerRef)
    ensures BlockerJson(b).fields.Keys == {"reason"} + IfSome(b.needsTeam, "needs_team") + IfSome(b.needsTier, "needs_tier")
  {}

  lemma StatusKeys(u: StatusUpdate)
    ensures StatusJson(u).fields.Keys == {"task_id", "state", "next_update_by", "artifacts_produced"}
                                         + IfSome(u.pctComplete, "pct_complete") + IfSome(u.blocker, "blocker")
  {}

  lemma ResultKeys(r: Gates.GateResult)
    ensures ResultJson(r).fields.Keys == {"gate", "passed", "evidence", "checked_by", "checked_at"}
  {}

  /** What a token commits to, key by key. */
  lemma ScopeIs(e: Control.Envelope)
    ensures var j := Control.EnvelopeScope(e);
      && j.Obj? && j.fields.Keys == {"graph_id", "node_id", "exit_gate", "payload", "deliverables"}
      && j.fields["graph_id"] == Str(e.graphId) && j.fields["node_id"] == Str(e.nodeId) && j.fields["exit_gate"] == Str(e.exitGate)
      && j.fields["payload"] == Obj(e.payload) && Parsers.Artifacts(j.fields["deliverables"], e.deliverables)
  {
    Parsers.ArtifactsWritten(e.deliverables);
    assert "graph_id"[0] != "deliverables"[0];
  }

  // ---------- entries of others ----------

  /** The back link of the first entry. */
  lemma GenesisIs()
    ensures |GENESIS| == 64 && GENESIS == "0000000000000000000000000000000000000000000000000000000000000000"
  {}

  /** A dictionary reads as an entry exactly when it is what that entry writes. */
  lemma EntryIff(j: Json, e: Entry)
    ensures FromJson(j) == Ok(e) <==> j == ToJson(e) && Plain(e)
    ensures FromJson(j).Err? ==> FromJson(j) == Err(AuditChainError)
  {
    if FromJson(j) == Ok(e) { ReadIsWritten(j, e); }
    if j == ToJson(e) && Plain(e) { EntryRoundTrip(e); }
  }

  lemma ReadIsWritten(j: Json, e: Entry)
    requires FromJson(j) == Ok(e)
    ensures j == ToJson(e) && Plain(e)
  {
    CoreNamesDiffer();
    assert Plain(e);
    var f, w := j.fields, ToJson(e).fields;
    CoreWritten(e);
    assert f.Keys == CORE + (f.Keys - CORE) && w.Keys == CORE + e.fields.Keys;
    assert f["ts"] == w["ts"] && f["seq"] == w["seq"] && f["actor"] == w["actor"];
    assert f["event"] == w["event"] && f["prev_hash"] == w["prev_hash"];
    assert forall k :: k in e.fields ==> w[k] == f[k];
    assert forall k :: k in CORE ==> w[k] == f[k];
    assert f == w;
  }

  lemma CoreWritten(e: Entry)
    requires Plain(e)
    ensures var w := ToJson(e).fields;
      && CORE <= w.Keys && w["ts"] == Num(e.ts) && w["seq"] == Num(e.seqNo) && w["actor"] == Str(e.actor)
      && w["event"] == Str(e.event) && w["prev_hash"] == Str(e.prevHash)
  {
    CoreNamesDiffer();
    assert forall k :: k in CORE ==> k !in e.fields;
  }

  /** What Python takes for false. */
  predicate Empty(j: Json) {
    j in {Null, Bool(false), Num(0), Str(""), Arr([]), Obj(map[])}
  }

  /** A verdict without "passed", or with an empty value there, is a failure; any other value
      is a pass. */
  lemma VerdictRead(f: map<string, Json>, t: string)
    requires t != "" && Parsers.TextAt(f, "task_id", t)
    ensures var ev := View("gate_result", f);
      ev.GateOutcome? && ev.taskId == t && (ev.passed <==> "passed" in f && !Empty(f["passed"]))
  {
    FieldNamesDiffer();
  }

  lemma ReclaimRead(f: map<string, Json>, t: string)
    requires t != "" && Parsers.TextAt(f, "task_id", t)
    ensures View("reclaim", f).Reclaimed? && View("reclaim", f).taskId == t
  {}

  const NAMES := {"dispatch", "ingress_accepted", "status", "gate_result", "reclaim", "team_paused", "team_resumed",
                  "cold_start", "decision_memo"}

  /** Verdicts, reclaims and dispatches without a task id are passed over, as is every entry of
      another name. */
  lemma PassedOver(name: string, f: map<string, Json>)
    ensures ("task_id" !in f || f["task_id"] == Str("")) && name in {"dispatch", "gate_result", "reclaim"} ==> View(name, f) == Other
    ensures name !in NAMES ==> View(name, f) == Other
  {
    FieldNamesDiffer();
  }

  /** A dispatch whose deliverables are missing or empty lists none, and otherwise they are
      read as artifacts are. */
  lemma DispatchRead(f: map<string, Json>, t: string)
    requires t != "" && Parsers.TextAt(f, "task_id", t)
    ensures var ev := View("dispatch", f);
      && ev.Dispatched? && ev.taskId == t
      && ("deliverables" !in f || Empty(f["deliverables"]) ==> ev.deliverables == Some([]))
      && ("deliverables" in f && !Empty(f["deliverables"]) ==>
            forall refs :: ev.deliverables == Some(refs) <==> Parsers.Artifacts(f["deliverables"], refs) && AllValid(refs))
  {
    if "deliverables" in f {
      forall refs ensures SchemaCodec.ReadArray(f["deliverables"], ParseArtifact) == Ok(refs)
        <==> Parsers.Artifacts(f["deliverables"], refs) && AllValid(refs)
      {
        Parsers.ArtifactsIff(f["deliverables"], refs);
      }
    }
  }

  /** The names of a dispatch and of a pause are their texts. */
  lemma NamesRead(f: map<string, Json>, t: string, graphId: string, nodeId: string, team: string, gate: string, tier: string)
    requires t != "" && Parsers.TextAt(f, "task_id", t) && Parsers.TextAt(f, "graph_id", graphId)
    requires Parsers.TextAt(f, "node_id", nodeId) && Parsers.TextAt(f, "team", team)
    requires Parsers.TextAt(f, "exit_gate", gate) && Parsers.TextAt(f, "tier_max", tier)
    ensures var ev := View("dispatch", f);
      && ev.Dispatched? && ev.graphId == graphId && ev.nodeId == nodeId && ev.team == team
      && ev.exitGate == gate && ev.tierMax == tier
    ensures View("team_paused", f).TeamPaused? && View("team_paused", f).team == team
    ensures View("team_resumed", f) == TeamResumed(team)
  {}
}
