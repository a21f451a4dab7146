/** Entries of the audit log, the hash chain over them, and what the chain does and does
    not bind (audit.py). The hash is a parameter: results that rest on it name the two
    entries whose texts would have to collide. */
module AuditChain {
  import opened Basics
  import opened JsonText
  import opened LogText

  const GENESIS: string := "0000000000000000000000000000000000000000000000000000000000000000"

  const CORE := {"ts", "seq", "actor", "event", "prev_hash"}

  /** `ts` is an instant. */
  datatype Entry = Entry(seqNo: int, ts: int, actor: string, event: string, prevHash: string,
                         fields: map<string, Json>)

  /** AuditEntry.to_dict: the extra fields are applied last and win. */
  function ToJson(e: Entry): Json {
    Obj(map["ts" := Num(e.ts), "seq" := Num(e.seqNo), "actor" := Str(e.actor),
            "event" := Str(e.event), "prev_hash" := Str(e.prevHash)] + e.fields)
  }

  /** _entry_from_dict. */
  function FromJson(j: Json): Result<Entry> {
    if j.Obj? && CORE <= j.fields.Keys
       && j.fields["ts"].Num? && j.fields["seq"].Num? && j.fields["actor"].Str?
       && j.fields["event"].Str? && j.fields["prev_hash"].Str?
    then
      Ok(Entry(j.fields["seq"].n, j.fields["ts"].n, j.fields["actor"].s, j.fields["event"].s,
               j.fields["prev_hash"].s, j.fields - CORE))
    else Err(AuditChainError)
  }

  /** How entries become lines and lines become entries, and the hash of a line. */
  datatype Codec = Codec(write: Entry -> string, read: string -> Result<Entry>, sha: string -> string)
  {
    function Hash(e: Entry): string {
      sha(write(e))
    }

    /** Reading undoes writing, and every refusal is a broken log. */
    ghost predicate Lawful() {
      && (forall e :: Plain(e) ==> read(write(e)) == Ok(e))
      && (forall line :: read(line).Err? ==> read(line) == Err(AuditChainError))
    }
  }

  /** Canonical JSON lines. */
  function Canonical(sha: string -> string): Codec {
    Codec((e: Entry) => Dumps(ToJson(e)), ReadCanonical, sha)
  }

  function ReadCanonical(line: string): Result<Entry> {
    match Loads(line)
    case None => Err(AuditChainError)
    case Some(j) => FromJson(j)
  }

  /** AuditLog.entries, which stops at the first line it cannot read. */
  function ReadEntries(c: Codec, lines: seq<string>): (r: Result<seq<Entry>>)
    ensures r.Ok? ==> |r.value| == |lines|
  {
    if lines == [] then Ok([])
    else
      match ReadEntries(c, lines[..|lines| - 1])
      case Err(x) => Err(x)
      case Ok(es) =>
        match c.read(lines[|lines| - 1])
        case Err(x) => Err(x)
        case Ok(e) => Ok(es + [e])
  }

  predicate Plain(e: Entry) {
    e.fields.Keys !! CORE
  }

  lemma CoreNamesDiffer()
    ensures "actor" != "event"
  {
    assert "actor"[0] != "event"[0];
  }

  /** An entry is read back from its own dictionary exactly when its extra fields stay
      clear of the core names, which is what `append` checks. */
  lemma EntryRoundTrip(e: Entry)
    ensures FromJson(ToJson(e)) == Ok(e) <==> Plain(e)
  {
    CoreNamesDiffer();
    var core := map["ts" := Num(e.ts), "seq" := Num(e.seqNo), "actor" := Str(e.actor),
                    "event" := Str(e.event), "prev_hash" := Str(e.prevHash)];
    assert core.Keys == CORE;
    var all := ToJson(e).fields;
    assert all.Keys == CORE + e.fields.Keys;
    if Plain(e) {
      assert all - CORE == e.fields;
    } else {
      assert (all - CORE).Keys !! CORE;
    }
  }

  lemma CanonicalLawful(sha: string -> string)
    ensures Canonical(sha).Lawful()
  {
    var c := Canonical(sha);
    forall e | Plain(e) ensures c.read(c.write(e)) == Ok(e) {
      LoadsDumps(ToJson(e));
      EntryRoundTrip(e);
    }
  }

  lemma WriteInjective(c: Codec, a: Entry, b: Entry)
    requires c.Lawful() && Plain(a) && Plain(b) && c.write(a) == c.write(b)
    ensures a == b
  {
    assert c.read(c.write(a)) == Ok(a) && c.read(c.write(b)) == Ok(b);
  }

  // ---------- the chain ----------

  /** The back link of position i. */
  function Link(c: Codec, es: seq<Entry>, i: nat): string
    requires i <= |es|
  {
    if i == 0 then GENESIS else c.Hash(es[i - 1])
  }

  /** What verify_chain accepts. */
  predicate Chained(c: Codec, es: seq<Entry>) {
    forall i :: 0 <= i < |es| ==> es[i].seqNo == i && es[i].prevHash == Link(c, es, i)
  }

  lemma ChainedSnoc(c: Codec, es: seq<Entry>, e: Entry)
    ensures Chained(c, es + [e])
       <==> Chained(c, es) && e.seqNo == |es| && e.prevHash == Link(c, es, |es|)
  {
    var all := es + [e];
    assert forall i :: 0 <= i <= |es| ==> Link(c, all, i) == Link(c, es, i);
    assert all[|es|] == e;
    assert forall i :: 0 <= i < |es| ==> all[i] == es[i];
  }

  /** The last position below k, if any, where two logs differ. */
  function LastDifference(a: seq<Entry>, b: seq<Entry>, k: nat): (r: Option<nat>)
    requires k <= |a| && k <= |b|
    ensures r.None? ==> a[..k] == b[..k]
    ensures r.Some? ==> r.value < k && a[r.value] != b[r.value]
    ensures r.Some? ==> a[r.value + 1..k] == b[r.value + 1..k]
  {
    if k == 0 then None
    else if a[k - 1] != b[k - 1] then Some(k - 1)
    else
      assert a[..k] == a[..k - 1] + [a[k - 1]] && b[..k] == b[..k - 1] + [b[k - 1]];
      LastDifference(a, b, k - 1)
  }

  lemma DifferenceClashes(c: Codec, a: seq<Entry>, b: seq<Entry>, k: nat)
    requires Chained(c, a) && Chained(c, b) && k < |a| && k < |b| && a[k] == b[k]
    ensures var d := LastDifference(a, b, k);
      d.Some? ==> c.Hash(a[d.value]) == c.Hash(b[d.value])
  {
    var d := LastDifference(a, b, k);
    if d.Some? {
      var i := d.value;
      assert a[i + 1] == b[i + 1] by {
        if i + 1 < k {
          assert a[i + 1..k][0] == a[i + 1] && b[i + 1..k][0] == b[i + 1];
        }
      }
      assert Link(c, a, i + 1) == Link(c, b, i + 1);
    }
  }

  /** Two verified logs that agree on entry k agree on every entry before it, or the last
      entry where they differ gives two different texts with one hash. */
  lemma TamperEvident(c: Codec, a: seq<Entry>, b: seq<Entry>, k: nat)
    requires c.Lawful() && Chained(c, a) && Chained(c, b)
    requires k < |a| && k < |b| && a[k] == b[k]
    requires forall i :: 0 <= i < k ==> Plain(a[i]) && Plain(b[i])
    ensures var d := LastDifference(a, b, k);
      if d.None? then a[..k] == b[..k]
      else c.write(a[d.value]) != c.write(b[d.value]) && c.sha(c.write(a[d.value])) == c.sha(c.write(b[d.value]))
  {
    var d := LastDifference(a, b, k);
    DifferenceClashes(c, a, b, k);
    if d.Some? && c.write(a[d.value]) == c.write(b[d.value]) {
      WriteInjective(c, a[d.value], b[d.value]);
    }
  }

  /** Rewriting one entry of a verified log. The result verifies again exactly when the
      new entry keeps its sequence number and back link and is either the tail, which
      nothing commits to, or has the hash its successor recorded. */
  lemma RewriteVerifies(c: Codec, es: seq<Entry>, k: nat, e: Entry)
    requires Chained(c, es) && k < |es|
    ensures Chained(c, es[k := e])
       <==> e.seqNo == es[k].seqNo && e.prevHash == es[k].prevHash
            && (k == |es| - 1 || c.Hash(e) == c.Hash(es[k]))
  {
    var b := es[k := e];
    assert forall i :: 0 <= i <= |es| && i != k + 1 ==> Link(c, b, i) == Link(c, es, i);
    assert b[k] == e && Link(c, b, k + 1) == c.Hash(e);
    if k + 1 < |es| {
      assert b[k + 1] == es[k + 1];
    }
  }

  // ---------- reading lines back ----------

  function Lines(c: Codec, es: seq<Entry>): (r: seq<string>)
    ensures |r| == |es|
    ensures forall i :: 0 <= i < |es| ==> r[i] == c.write(es[i])
  {
    seq(|es|, i requires 0 <= i < |es| => c.write(es[i]))
  }

  lemma {:induction false} ReadEntriesLines(c: Codec, es: seq<Entry>)
    requires c.Lawful() && forall i :: 0 <= i < |es| ==> Plain(es[i])
    ensures ReadEntries(c, Lines(c, es)) == Ok(es)
  {
    if es != [] {
      var n := |es| - 1;
      ReadEntriesLines(c, es[..n]);
      assert Lines(c, es)[..n] == Lines(c, es[..n]);
      assert c.read(c.write(es[n])) == Ok(es[n]);
      assert es == es[..n] + [es[n]];
    }
  }

  lemma ReadEntriesSnoc(c: Codec, lines: seq<string>, line: string)
    ensures ReadEntries(c, lines + [line]) ==
      match ReadEntries(c, lines)
      case Err(x) => Err(x)
      case Ok(es) => match c.read(line) case Err(x) => Err(x) case Ok(e) => Ok(es + [e])
  {
    var all := lines + [line];
    assert all[..|all| - 1] == lines;
  }

  lemma {:induction false} ReadEntriesPrefix(c: Codec, lines: seq<string>, n: nat)
    requires ReadEntries(c, lines).Ok? && n <= |lines|
    ensures ReadEntries(c, lines[..n]) == Ok(ReadEntries(c, lines).value[..n])
  {
    if n == |lines| {
      assert lines[..n] == lines;
      assert ReadEntries(c, lines).value[..n] == ReadEntries(c, lines).value;
    } else {
      var m := |lines| - 1;
      ReadEntriesPrefix(c, lines[..m], n);
      assert lines[..m][..n] == lines[..n];
      assert ReadEntries(c, lines).value[..m] == ReadEntries(c, lines[..m]).value;
      assert ReadEntries(c, lines).value[..n] == ReadEntries(c, lines).value[..m][..n];
    }
  }

  lemma {:induction false} ReadErrorsAreChainErrors(c: Codec, lines: seq<string>)
    requires c.Lawful()
    ensures ReadEntries(c, lines).Err? ==> ReadEntries(c, lines) == Err(AuditChainError)
  {
    if lines != [] { ReadErrorsAreChainErrors(c, lines[..|lines| - 1]); }
  }

  predicate AllDurable(lines: seq<string>) {
    forall i :: 0 <= i < |lines| ==> Durable(lines[i])
  }

  predicate NoWideBreaks(es: seq<Entry>) {
    forall i :: 0 <= i < |es| ==> !HoldsWideBreak(ToJson(es[i]))
  }

  lemma LinesDurable(sha: string -> string, es: seq<Entry>)
    ensures AllDurable(Lines(Canonical(sha), es)) <==> NoWideBreaks(es)
  {
    var lines := Lines(Canonical(sha), es);
    forall i | 0 <= i < |es| ensures Durable(lines[i]) <==> !HoldsWideBreak(ToJson(es[i])) {
      DumpedObjectDurable(ToJson(es[i]));
    }
  }

  /** Writing entries to the file and reading the file back, through line splitting and
      the JSON reader, returns the same entries exactly when no entry holds a wide line
      break: canonical JSON leaves those characters unescaped and splitlines breaks there. */
  lemma FileRoundTrip(sha: string -> string, es: seq<Entry>)
    requires forall i :: 0 <= i < |es| ==> Plain(es[i])
    ensures var c := Canonical(sha);
      ReadEntries(c, ReadLines(WriteLines(Lines(c, es)))) == Ok(es) <==> NoWideBreaks(es)
  {
    var lines := Lines(Canonical(sha), es);
    LinesDurable(sha, es);
    ReadBackExactly(lines);
    CanonicalLawful(sha);
    ReadEntriesLines(Canonical(sha), es);
    forall i | 0 <= i < |lines| ensures Trimmed(lines[i]) {
      DumpedObjectTrimmed(ToJson(es[i]));
    }
    ReadBackCount(lines);
  }
}
