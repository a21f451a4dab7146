/** The audit file as text: one canonical JSON line per entry, read back with
    str.splitlines and a blank-line filter (audit.py: _read_lines, _write). */
module LogText {
  import opened JsonText
  import Lex

  /** str.splitlines breaks at more characters than the newline the log writes. */
  predicate IsBreak(c: char) {
    c == '\n' || c == '\r' || c == '\U{0B}' || c == '\U{0C}' || c == '\U{1C}' || c == '\U{1D}'
    || c == '\U{1E}' || IsWideBreak(c)
  }

  /** The line breaks that canonical JSON leaves unescaped. */
  predicate IsWideBreak(c: char) {
    c == '\U{85}' || c == '\U{2028}' || c == '\U{2029}'
  }

  /** str.isspace on one character. */
  predicate IsSpace(c: char) {
    '\t' <= c <= '\r' || '\U{1C}' <= c <= ' ' || c == '\U{85}' || c == '\U{A0}' || c == '\U{1680}'
    || '\U{2000}' <= c <= '\U{200A}' || c == '\U{2028}' || c == '\U{2029}' || c == '\U{202F}'
    || c == '\U{205F}' || c == '\U{3000}'
  }

  predicate Blank(s: string) {
    forall i :: 0 <= i < |s| ==> IsSpace(s[i])
  }

  predicate HasBreak(s: string) {
    exists i :: 0 <= i < |s| && IsBreak(s[i])
  }

  function FirstBreak(t: string): (n: nat)
    ensures n <= |t|
    ensures !HasBreak(t[..n])
    ensures n < |t| ==> IsBreak(t[n])
  {
    if |t| == 0 || IsBreak(t[0]) then 0
    else
      var m := FirstBreak(t[1..]);
      assert t[..m + 1] == [t[0]] + t[1..][..m];
      m + 1
  }

  /** The text after the first break. */
  function AfterBreak(t: string): string
    requires FirstBreak(t) < |t|
  {
    var n := FirstBreak(t);
    t[n + (if t[n] == '\r' && n + 1 < |t| && t[n + 1] == '\n' then 2 else 1)..]
  }

  /** str.splitlines: a carriage return followed by a newline is one break. */
  function SplitLines(t: string): seq<string>
    decreases |t|
  {
    if |t| == 0 then []
    else
      var n := FirstBreak(t);
      if n == |t| then [t] else [t[..n]] + SplitLines(AfterBreak(t))
  }

  function DropBlank(lines: seq<string>): seq<string> {
    if lines == [] then []
    else if Blank(lines[0]) then DropBlank(lines[1..])
    else [lines[0]] + DropBlank(lines[1..])
  }

  function ReadLines(t: string): seq<string> {
    DropBlank(SplitLines(t))
  }

  function WriteLines(lines: seq<string>): string {
    if lines == [] then "" else lines[0] + "\n" + WriteLines(lines[1..])
  }

  /** A line that comes back as it was written. */
  predicate Durable(line: string) {
    !HasBreak(line) && !Blank(line)
  }

  lemma {:induction false} SplitLinesUnbroken(t: string)
    ensures forall i :: 0 <= i < |SplitLines(t)| ==> !HasBreak(SplitLines(t)[i])
    decreases |t|
  {
    if |t| > 0 {
      var n := FirstBreak(t);
      assert n == |t| ==> t[..n] == t;
      if n < |t| {
        SplitLinesUnbroken(AfterBreak(t));
      }
    }
  }

  lemma {:induction false} DropBlankKeeps(lines: seq<string>)
    requires forall i :: 0 <= i < |lines| ==> !HasBreak(lines[i])
    ensures forall i :: 0 <= i < |DropBlank(lines)| ==> Durable(DropBlank(lines)[i])
  {
    if lines != [] { DropBlankKeeps(lines[1..]); }
  }

  lemma FirstBreakAfter(line: string, rest: string)
    requires !HasBreak(line)
    ensures FirstBreak(line + "\n" + rest) == |line|
  {
    var t := line + "\n" + rest;
    var n := FirstBreak(t);
    assert t[|line|] == '\n';
    assert forall i :: 0 <= i < |line| ==> t[i] == line[i];
    assert forall i :: 0 <= i < n ==> t[..n][i] == t[i];
  }

  lemma {:induction false} ReadWritten(lines: seq<string>)
    requires forall i :: 0 <= i < |lines| ==> Durable(lines[i])
    ensures ReadLines(WriteLines(lines)) == lines
  {
    if lines != [] {
      var rest := WriteLines(lines[1..]);
      var t := lines[0] + "\n" + rest;
      FirstBreakAfter(lines[0], rest);
      assert t[..|lines[0]|] == lines[0] && t[|lines[0]| + 1..] == rest;
      assert t[|lines[0]|] == '\n';
      assert SplitLines(t) == [lines[0]] + SplitLines(rest);
      ReadWritten(lines[1..]);
    }
  }

  /** The file gives back the lines written to it exactly when every line is durable. */
  lemma ReadBackExactly(lines: seq<string>)
    ensures ReadLines(WriteLines(lines)) == lines
       <==> forall i :: 0 <= i < |lines| ==> Durable(lines[i])
  {
    if ReadLines(WriteLines(lines)) == lines {
      SplitLinesUnbroken(WriteLines(lines));
      DropBlankKeeps(SplitLines(WriteLines(lines)));
    }
    if forall i :: 0 <= i < |lines| ==> Durable(lines[i]) {
      ReadWritten(lines);
    }
  }

  // ---------- a broken line never hides behind the count ----------

  /** Neither end of the line is white space, as in the text of a JSON object. */
  predicate Trimmed(s: string) {
    |s| > 0 && !IsSpace(s[0]) && !IsSpace(s[|s| - 1])
  }

  lemma {:induction false} DropBlankConcat(a: seq<string>, b: seq<string>)
    ensures DropBlank(a + b) == DropBlank(a) + DropBlank(b)
  {
    if a == [] {
      assert a + b == b;
    } else {
      DropBlankConcat(a[1..], b);
      assert (a + b)[1..] == a[1..] + b;
    }
  }

  lemma FirstBreakPrefix(t: string, rest: string)
    requires FirstBreak(t) < |t|
    ensures FirstBreak(t + rest) == FirstBreak(t)
  {
    var n, m := FirstBreak(t), FirstBreak(t + rest);
    assert (t + rest)[n] == t[n];
    assert forall i :: 0 <= i < n ==> t[..n][i] == (t + rest)[i];
    assert forall i :: 0 <= i < m ==> (t + rest)[..m][i] == (t + rest)[i];
  }

  lemma AfterBreakPrefix(t: string, rest: string)
    requires FirstBreak(t) < |t| - 1
    ensures FirstBreak(t + rest) == FirstBreak(t)
    ensures AfterBreak(t + rest) == AfterBreak(t) + rest
  {
    FirstBreakPrefix(t, rest);
    var n := FirstBreak(t);
    assert (t + rest)[n] == t[n] && (t + rest)[n + 1] == t[n + 1];
  }

  /** A text that ends in a plain character splits on its own when a newline follows. */
  lemma {:induction false} SplitAppend(t: string, rest: string)
    requires |t| > 0 && !IsBreak(t[|t| - 1])
    ensures SplitLines(t + ("\n" + rest)) == SplitLines(t) + SplitLines(rest)
    decreases |t|
  {
    var tail := "\n" + rest;
    var n := FirstBreak(t);
    if n == |t| {
      FirstBreakAfter(t, rest);
      assert t + tail == t + "\n" + rest;
      assert (t + tail)[..n] == t && (t + tail)[n + 1..] == rest;
    } else {
      AfterBreakPrefix(t, tail);
      assert (t + tail)[..n] == t[..n];
      SplitAppend(AfterBreak(t), rest);
    }
  }

  lemma {:induction false} KeepsAPiece(t: string)
    requires |t| > 0 && !IsSpace(t[|t| - 1])
    ensures |DropBlank(SplitLines(t))| >= 1
    decreases |t|
  {
    var n := FirstBreak(t);
    if n < |t| {
      KeepsAPiece(AfterBreak(t));
    }
  }

  lemma BrokenLineSplits(t: string)
    requires Trimmed(t) && HasBreak(t)
    ensures |DropBlank(SplitLines(t))| >= 2
  {
    var n := FirstBreak(t);
    assert n < |t| by {
      assert t[..|t|] == t;
    }
    KeepsAPiece(AfterBreak(t));
    assert t[..n][0] == t[0];
  }

  /** Reading back yields at least as many lines as were written, and strictly more as
      soon as one written line contains a break. */
  lemma {:induction false} ReadBackCount(lines: seq<string>)
    requires forall i :: 0 <= i < |lines| ==> Trimmed(lines[i])
    ensures |ReadLines(WriteLines(lines))| >= |lines|
    ensures (exists i :: 0 <= i < |lines| && HasBreak(lines[i]))
        ==> |ReadLines(WriteLines(lines))| > |lines|
  {
    if lines != [] {
      var rest := WriteLines(lines[1..]);
      SplitAppend(lines[0], rest);
      assert WriteLines(lines) == lines[0] + ("\n" + rest);
      DropBlankConcat(SplitLines(lines[0]), SplitLines(rest));
      KeepsAPiece(lines[0]);
      ReadBackCount(lines[1..]);
      if HasBreak(lines[0]) {
        BrokenLineSplits(lines[0]);
      }
      assert forall i :: 1 <= i < |lines| ==> lines[i] == lines[1..][i - 1];
    }
  }

  // ---------- which canonical texts are durable ----------

  /** Some string or key inside the value holds a wide line break. */
  predicate HoldsWideBreak(j: Json)
    decreases j
  {
    match j
    case Str(s) => HasWide(s)
    case Arr(items) => exists i :: 0 <= i < |items| && HoldsWideBreak(items[i])
    case Obj(fields) => exists k :: k in fields && (HasWide(k) || HoldsWideBreak(fields[k]))
    case _ => false
  }

  predicate HasWide(s: string) {
    exists i :: 0 <= i < |s| && IsWideBreak(s[i])
  }

  lemma HasBreakConcat(a: string, b: string)
    ensures HasBreak(a + b) <==> HasBreak(a) || HasBreak(b)
  {
    var t := a + b;
    assert forall i :: 0 <= i < |a| ==> t[i] == a[i];
    assert forall i :: 0 <= i < |b| ==> t[|a| + i] == b[i];
    if HasBreak(t) {
      var i :| 0 <= i < |t| && IsBreak(t[i]);
      if i >= |a| { assert b[i - |a|] == t[i]; }
    }
  }

  lemma EscapeBreak(c: char)
    ensures HasBreak(Escape(c)) <==> IsWideBreak(c)
  {
    if IsWideBreak(c) {
      assert IsBreak(Escape(c)[0]);
    }
    if c < ' ' {
      assert forall i :: 0 <= i < |HEX| ==> !IsBreak(HEX[i]);
    }
  }

  lemma {:induction false} EscapeAllBreak(s: string)
    ensures HasBreak(EscapeAll(s)) <==> HasWide(s)
  {
    if s != "" {
      EscapeBreak(s[0]);
      EscapeAllBreak(s[1..]);
      HasBreakConcat(Escape(s[0]), EscapeAll(s[1..]));
      assert HasWide(s) <==> IsWideBreak(s[0]) || HasWide(s[1..]) by {
        assert s == [s[0]] + s[1..];
        assert forall i :: 0 <= i < |s[1..]| ==> s[1..][i] == s[i + 1];
      }
    }
  }

  lemma DumpStringBreak(s: string)
    ensures HasBreak(DumpString(s)) <==> HasWide(s)
  {
    EscapeAllBreak(s);
    HasBreakConcat("\"" + EscapeAll(s), "\"");
    HasBreakConcat("\"", EscapeAll(s));
  }

  lemma {:induction false} DecimalUnbroken(n: nat)
    ensures !HasBreak(Decimal(n))
  {
    assert forall i :: 0 <= i < |DIGITS| ==> !IsBreak(DIGITS[i]);
    if n >= 10 {
      DecimalUnbroken(n / 10);
      HasBreakConcat(Decimal(n / 10), [DIGITS[n % 10]]);
    }
  }

  lemma WrapBreak(l: string, body: string, r: string)
    requires !HasBreak(l) && !HasBreak(r)
    ensures HasBreak(l + body + r) <==> HasBreak(body)
  {
    HasBreakConcat(l, body);
    HasBreakConcat(l + body, r);
  }

  lemma NumberUnbroken(n: int)
    ensures !HasBreak(Dumps(Num(n)))
  {
    if n < 0 {
      DecimalUnbroken(-n);
      HasBreakConcat("-", Decimal(-n));
    } else {
      DecimalUnbroken(n);
    }
  }

  lemma LeafBreak(j: Json)
    requires !j.Arr? && !j.Obj?
    ensures HasBreak(Dumps(j)) <==> HoldsWideBreak(j)
  {
    match j
    case Num(n) => NumberUnbroken(n);
    case Str(s) => DumpStringBreak(s);
    case _ =>
  }

  /** A canonical text breaks across lines exactly when the value holds a wide break. */
  lemma {:induction false} DumpsBreak(j: Json)
    ensures HasBreak(Dumps(j)) <==> HoldsWideBreak(j)
    decreases j, 1, 0
  {
    if j.Arr? && j.items != [] {
      DumpItemsBreak(j, j.items);
      WrapBreak("[", DumpItems(j, j.items), "]");
    } else if j.Obj? && j.fields != map[] {
      var keys := Lex.Sorted(j.fields.Keys);
      DumpFieldsBreak(j, keys);
      WrapBreak("{", DumpFields(j, keys), "}");
    } else if !j.Arr? && !j.Obj? {
      LeafBreak(j);
    }
  }

  lemma {:induction false} DumpItemsBreak(j: Json, items: seq<Json>)
    requires |items| > 0
    requires forall i :: 0 <= i < |items| ==> items[i] < j
    ensures HasBreak(DumpItems(j, items)) <==> exists i :: 0 <= i < |items| && HoldsWideBreak(items[i])
    decreases j, 0, |items|
  {
    DumpsBreak(items[0]);
    if |items| > 1 {
      DumpItemsBreak(j, items[1..]);
      HasBreakConcat(Dumps(items[0]) + ",", DumpItems(j, items[1..]));
      HasBreakConcat(Dumps(items[0]), ",");
      assert forall i :: 0 <= i < |items[1..]| ==> items[1..][i] == items[i + 1];
    }
  }

  lemma {:induction false} DumpFieldsBreak(j: Json, keys: seq<string>)
    requires j.Obj? && |keys| > 0
    requires forall k :: k in keys ==> k in j.fields
    ensures HasBreak(DumpFields(j, keys))
       <==> exists k :: k in keys && (HasWide(k) || HoldsWideBreak(j.fields[k]))
    decreases j, 0, |keys|
  {
    var k, v := keys[0], j.fields[keys[0]];
    var one := DumpString(k) + ":" + Dumps(v);
    DumpStringBreak(k);
    DumpsBreak(v);
    HasBreakConcat(DumpString(k) + ":", Dumps(v));
    HasBreakConcat(DumpString(k), ":");
    assert keys == [k] + keys[1..];
    if |keys| > 1 {
      DumpFieldsBreak(j, keys[1..]);
      HasBreakConcat(one + ",", DumpFields(j, keys[1..]));
      HasBreakConcat(one, ",");
    }
  }

  lemma DumpedObjectTrimmed(j: Json)
    requires j.Obj?
    ensures Trimmed(Dumps(j))
  {
    var s := Dumps(j);
    assert s[0] == '{' && s[|s| - 1] == '}';
  }

  /** The canonical text of an object is a durable line exactly when the object holds
      no wide break. */
  lemma DumpedObjectDurable(j: Json)
    requires j.Obj?
    ensures Durable(Dumps(j)) <==> !HoldsWideBreak(j)
  {
    DumpsBreak(j);
    DumpedObjectTrimmed(j);
  }
}
