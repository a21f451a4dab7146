/** Which rewritings of a line of the audit file verify_chain accepts (audit.py): the chain
    hashes the entries that the lines parse to, written again, and not the lines. */
module Rewrites {
  import opened Basics
  import opened JsonText
  import opened AuditChain
  import Lex

  /** What verify_chain accepts, of the lines of a file (Audit.AuditLog.VerifyChain). */
  predicate Accepts(c: Codec, lines: seq<string>) {
    ReadEntries(c, lines).Ok? && Chained(c, ReadEntries(c, lines).value)
  }

  lemma {:induction false} ReadReplaced(c: Codec, lines: seq<string>, k: nat, line: string)
    requires ReadEntries(c, lines).Ok? && k < |lines|
    ensures match c.read(line)
      case Ok(e) => ReadEntries(c, lines[k := line]) == Ok(ReadEntries(c, lines).value[k := e])
      case Err(_) => ReadEntries(c, lines[k := line]).Err?
  {
    var n := |lines| - 1;
    var other := lines[k := line];
    ReadEntriesSnoc(c, lines[..n], lines[n]);
    ReadEntriesSnoc(c, other[..n], other[n]);
    assert lines == lines[..n] + [lines[n]] && other == other[..n] + [other[n]];
    var es, last := ReadEntries(c, lines[..n]).value, c.read(lines[n]).value;
    if k == n {
      assert other[..n] == lines[..n] && other[n] == line;
      if c.read(line).Ok? { assert (es + [last])[k := c.read(line).value] == es + [c.read(line).value]; }
    } else {
      ReadReplaced(c, lines[..n], k, line);
      assert other[..n] == lines[..n][k := line] && other[n] == lines[n];
      if c.read(line).Ok? { assert (es + [last])[k := c.read(line).value] == es[k := c.read(line).value] + [last]; }
    }
  }

  /** Rewriting one line of an accepted file. The result is accepted exactly when the new line
      parses to an entry with the same sequence number and back link that is the last one or,
      written again, has the hash of the old entry. */
  lemma LineRewriteVerifies(c: Codec, lines: seq<string>, k: nat, line: string)
    requires Accepts(c, lines) && k < |lines|
    ensures var entry := ReadEntries(c, lines).value[k];
      Accepts(c, lines[k := line]) <==>
        c.read(line).Ok? && c.read(line).value.seqNo == entry.seqNo && c.read(line).value.prevHash == entry.prevHash
        && (k == |lines| - 1 || c.Hash(c.read(line).value) == c.Hash(entry))
  {
    ReadReplaced(c, lines, k, line);
    if c.read(line).Ok? { RewriteVerifies(c, ReadEntries(c, lines).value, k, c.read(line).value); }
  }

  /** So before the last line an accepted rewriting says the same, or two different texts have
      one hash; and whatever says the same is accepted, with the same entries. */
  lemma RewordingVerifies(c: Codec, lines: seq<string>, k: nat, line: string)
    requires Accepts(c, lines) && k < |lines|
    ensures var entry := ReadEntries(c, lines).value[k];
      && (c.read(line) == Ok(entry) ==> Accepts(c, lines[k := line]) && ReadEntries(c, lines[k := line]) == ReadEntries(c, lines))
      && (Accepts(c, lines[k := line]) && k < |lines| - 1 && c.read(line) != Ok(entry) ==>
            c.read(line).Ok? && c.sha(c.write(c.read(line).value)) == c.sha(c.write(entry)))
  {
    LineRewriteVerifies(c, lines, k, line);
    ReadReplaced(c, lines, k, line);
    var es := ReadEntries(c, lines).value;
    assert es[k := es[k]] == es;
  }

  // ---------- a line has other texts ----------

  /** The keys of an object in any order. */
  ghost predicate Listing(j: Json, keys: seq<string>) {
    && j.Obj? && (forall k :: k in keys <==> k in j.fields)
    && forall i, i' :: 0 <= i < i' < |keys| ==> keys[i] != keys[i']
  }

  function ObjectText(j: Json, keys: seq<string>): string
    requires j.Obj? && keys != [] && forall k :: k in keys ==> k in j.fields
  {
    "{" + (DumpFields(j, keys) + ("}" + ""))
  }

  /** An object reads the same with its keys in any order. */
  lemma AnyOrderReads(j: Json, keys: seq<string>)
    requires Listing(j, keys) && keys != []
    ensures Loads(ObjectText(j, keys)) == Some(j)
  {
    var body := DumpFields(j, keys) + ("}" + "");
    ReadDumpFields(j, keys, "");
    assert Entries(j, keys) == j.fields;
    FirstKey(j, keys);
    ReadObject(body, j.fields, "");
  }

  /** The text begins with its first key. */
  lemma FirstKey(j: Json, keys: seq<string>)
    requires Listing(j, keys) && keys != []
    ensures var body := DumpFields(j, keys) + ("}" + "");
      body != "" && body[0] == '\"' && ReadBody(body[1..]).Some? && ReadBody(body[1..]).value.0 == keys[0]
  {
    DumpFieldsStep(j, keys, "");
    ReadDumpedKey(keys[0], ":" + (Dumps(j.fields[keys[0]])
                    + (if |keys| == 1 then "}" + "" else "," + (DumpFields(j, keys[1..]) + ("}" + "")))));
  }

  lemma OrdersDiffer(j: Json, a: seq<string>, b: seq<string>)
    requires Listing(j, a) && Listing(j, b) && a != [] && b != [] && a[0] != b[0]
    ensures ObjectText(j, a) != ObjectText(j, b)
  {
    FirstKey(j, a);
    FirstKey(j, b);
    assert ObjectText(j, a)[1..] == DumpFields(j, a) + ("}" + "");
    assert ObjectText(j, b)[1..] == DumpFields(j, b) + ("}" + "");
  }

  /** The keys in sorted order, and with the first one last. */
  lemma TwoOrders(j: Json) returns (a: seq<string>, b: seq<string>)
    requires j.Obj? && |j.fields.Keys| >= 2
    ensures Listing(j, a) && Listing(j, b) && a != [] && b != [] && a[0] != b[0]
  {
    a := Lex.Sorted(j.fields.Keys);
    Lex.SortedNoDuplicates(j.fields.Keys);
    b := a[1..] + [a[0]];
    assert a == [a[0]] + a[1..];
    assert forall i :: 0 <= i < |a| - 1 ==> b[i] == a[i + 1];
  }

  lemma EntryHasKeys(e: Entry)
    ensures ToJson(e).Obj? && |ToJson(e).fields.Keys| >= 2
  {
    CoreNamesDiffer();
    var keys := ToJson(e).fields.Keys;
    assert {"actor", "event"} <= keys;
    assert keys == {"actor", "event"} + (keys - {"actor", "event"});
  }

  /** Every entry that can be read can be written in two ways that read the same. */
  lemma TwoTexts(sha: string -> string, e: Entry) returns (x: string, y: string)
    requires Plain(e)
    ensures x != y && Canonical(sha).read(x) == Ok(e) && Canonical(sha).read(y) == Ok(e)
  {
    var j := ToJson(e);
    EntryHasKeys(e);
    var a, b := TwoOrders(j);
    AnyOrderReads(j, a);
    AnyOrderReads(j, b);
    OrdersDiffer(j, a, b);
    EntryRoundTrip(e);
    x, y := ObjectText(j, a), ObjectText(j, b);
  }

  lemma ReadIsPlain(sha: string -> string, line: string)
    ensures Canonical(sha).read(line).Ok? ==> Plain(Canonical(sha).read(line).value)
  {}

  lemma {:induction false} EntryOfLine(c: Codec, lines: seq<string>, k: nat)
    requires ReadEntries(c, lines).Ok? && k < |lines|
    ensures c.read(lines[k]) == Ok(ReadEntries(c, lines).value[k])
  {
    var n := |lines| - 1;
    if k < n { EntryOfLine(c, lines[..n], k); }
  }

  /** The chain does not bind the text of the file: every line of every accepted file has
      another text with which the file is accepted and says the same. A mirror that agreed
      with the file before does not agree with it then. */
  lemma EveryLineCanBeReworded(sha: string -> string, lines: seq<string>, k: nat) returns (line: string)
    requires Accepts(Canonical(sha), lines) && k < |lines|
    ensures line != lines[k] && lines[k := line] != lines
    ensures Accepts(Canonical(sha), lines[k := line])
    ensures ReadEntries(Canonical(sha), lines[k := line]) == ReadEntries(Canonical(sha), lines)
  {
    var c := Canonical(sha);
    var e := ReadEntries(c, lines).value[k];
    EntryOfLine(c, lines, k);
    ReadIsPlain(sha, lines[k]);
    var x, y := TwoTexts(sha, e);
    line := if x != lines[k] then x else y;
    RewordingVerifies(c, lines, k, line);
    assert lines[k := line][k] == line;
  }
}
