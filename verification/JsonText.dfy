/** Canonical JSON (schema.py: canonical_json) over the values the orchestrator writes,
    and a reader for texts of that shape. `LoadsDumps` says that reading undoes writing,
    so the canonical text determines the value: what the hash chain, the scope digest and
    the log round trip rest on. */
module JsonText {
  import opened Basics
  import Lex

  datatype Json =
    | Null
    | Bool(b: bool)
    | Num(n: int)
    | Str(s: string)
    | Arr(items: seq<Json>)
    | Obj(fields: map<string, Json>)

  // ---------- writing ----------

  const DIGITS := "0123456789"
  const HEX := "0123456789abcdef"

  function Decimal(n: nat): (r: string)
    ensures |r| > 0
  {
    if n < 10 then [DIGITS[n]] else Decimal(n / 10) + [DIGITS[n % 10]]
  }

  function DumpInt(n: int): string {
    if n < 0 then "-" + Decimal(-n) else Decimal(n)
  }

  /** ensure_ascii=False: only quote, backslash and the controls below U+0020 are escaped. */
  function Escape(c: char): string {
    if c == '\"' then "\\\""
    else if c == '\\' then "\\\\"
    else if c == '\n' then "\\n"
    else if c == '\r' then "\\r"
    else if c == '\t' then "\\t"
    else if c == '\U{08}' then "\\b"
    else if c == '\U{0C}' then "\\f"
    else if c < ' ' then "\\u00" + [HEX[c as int / 16]] + [HEX[c as int % 16]]
    else [c]
  }

  function EscapeAll(s: string): string {
    if |s| == 0 then "" else Escape(s[0]) + EscapeAll(s[1..])
  }

  function DumpString(s: string): string {
    "\"" + EscapeAll(s) + "\""
  }

  function Dumps(j: Json): string
    decreases j, 1, 0
  {
    match j
    case Null => "null"
    case Bool(b) => if b then "true" else "false"
    case Num(n) => DumpInt(n)
    case Str(s) => DumpString(s)
    case Arr(items) => if items == [] then "[]" else "[" + DumpItems(j, items) + "]"
    case Obj(fields) => if fields == map[] then "{}" else "{" + DumpFields(j, Lex.Sorted(fields.Keys)) + "}"
  }

  function DumpItems(j: Json, items: seq<Json>): string
    requires |items| > 0
    requires forall i :: 0 <= i < |items| ==> items[i] < j
    decreases j, 0, |items|
  {
    if |items| == 1 then Dumps(items[0])
    else Dumps(items[0]) + "," + DumpItems(j, items[1..])
  }

  function DumpFields(j: Json, keys: seq<string>): string
    requires j.Obj? && |keys| > 0
    requires forall k :: k in keys ==> k in j.fields
    decreases j, 0, |keys|
  {
    var one := DumpString(keys[0]) + ":" + Dumps(j.fields[keys[0]]);
    if |keys| == 1 then one else one + "," + DumpFields(j, keys[1..])
  }

  // ---------- reading ----------

  function DigitValue(c: char): Option<nat> {
    if '0' <= c <= '9' then Some(c as int - '0' as int) else None
  }

  function HexValue(c: char): Option<nat> {
    if '0' <= c <= '9' then Some(c as int - '0' as int)
    else if 'a' <= c <= 'f' then Some(c as int - 'a' as int + 10)
    else if 'A' <= c <= 'F' then Some(c as int - 'A' as int + 10)
    else None
  }

  /** The longest run of leading digits, read left to right onto `acc`. */
  function ReadDigits(t: string, acc: nat): (r: (nat, string))
    ensures |r.1| <= |t|
  {
    if |t| == 0 || DigitValue(t[0]).None? then (acc, t)
    else ReadDigits(t[1..], 10 * acc + DigitValue(t[0]).value)
  }

  /** A run of digits without a leading zero. */
  function ReadNat(t: string): (r: Option<(nat, string)>)
    ensures r.Some? ==> |r.value.1| < |t|
  {
    if |t| == 0 || DigitValue(t[0]).None? then None
    else if t[0] == '0' then
      if |t| > 1 && DigitValue(t[1]).Some? then None else Some((0, t[1..]))
    else Some(ReadDigits(t[1..], DigitValue(t[0]).value))
  }

  /** One character of a string body: an escape or a plain character. */
  function ReadChar(t: string): (r: Option<(char, string)>)
    ensures r.Some? ==> |r.value.1| < |t|
  {
    if |t| == 0 || t[0] < ' ' || t[0] == '\"' then None
    else if t[0] != '\\' then Some((t[0], t[1..]))
    else if |t| < 2 then None
    else if t[1] in "\"\\/" then Some((t[1], t[2..]))
    else if t[1] == 'n' then Some(('\n', t[2..]))
    else if t[1] == 'r' then Some(('\r', t[2..]))
    else if t[1] == 't' then Some(('\t', t[2..]))
    else if t[1] == 'b' then Some(('\U{08}', t[2..]))
    else if t[1] == 'f' then Some(('\U{0C}', t[2..]))
    else if t[1] == 'u' && |t| >= 6 then
      var h := [HexValue(t[2]), HexValue(t[3]), HexValue(t[4]), HexValue(t[5])];
      if None in h then None
      else
        var code := ((h[0].value * 16 + h[1].value) * 16 + h[2].value) * 16 + h[3].value;
        if code < 0xD800 || 0xE000 <= code < 0x10000 then Some((code as char, t[6..])) else None
    else None
  }

  /** A string body up to and including its closing quote. */
  function ReadBody(t: string): (r: Option<(string, string)>)
    ensures r.Some? ==> |r.value.1| < |t|
  {
    if |t| > 0 && t[0] == '\"' then Some(("", t[1..]))
    else
      match ReadChar(t)
      case None => None
      case Some((c, t')) =>
        match ReadBody(t')
        case None => None
        case Some((s, rest)) => Some(([c] + s, rest))
  }

  function ReadConstant(t: string): (r: Option<(Json, string)>)
    ensures r.Some? ==> |r.value.1| < |t|
  {
    if "null" <= t then Some((Null, t[4..]))
    else if "true" <= t then Some((Bool(true), t[4..]))
    else if "false" <= t then Some((Bool(false), t[5..]))
    else None
  }

  function ReadInt(t: string): (r: Option<(Json, string)>)
    ensures r.Some? ==> |r.value.1| < |t|
  {
    if |t| > 0 && t[0] == '-' then
      (match ReadNat(t[1..])
       case None => None
       case Some((n, rest)) => Some((Num(0 - n), rest)))
    else
      (match ReadNat(t)
       case None => None
       case Some((n, rest)) => Some((Num(n), rest)))
  }

  /** A value that holds no other value. */
  function ReadLeaf(t: string): (r: Option<(Json, string)>)
    ensures r.Some? ==> |r.value.1| < |t|
  {
    if |t| == 0 then None
    else if t[0] == '\"' then
      (match ReadBody(t[1..])
       case None => None
       case Some((s, rest)) => Some((Str(s), rest)))
    else if t[0] == 'n' || t[0] == 't' || t[0] == 'f' then ReadConstant(t)
    else ReadInt(t)
  }

  function ReadValue(t: string): (r: Option<(Json, string)>)
    ensures r.Some? ==> |r.value.1| < |t|
    decreases |t|, 0
  {
    if |t| > 0 && t[0] == '[' then
      if |t| > 1 && t[1] == ']' then Some((Arr([]), t[2..]))
      else
        (match ReadItems(t[1..])
         case None => None
         case Some((items, rest)) => Some((Arr(items), rest)))
    else if |t| > 0 && t[0] == '{' then
      if |t| > 1 && t[1] == '}' then Some((Obj(map[]), t[2..]))
      else
        (match ReadFields(t[1..])
         case None => None
         case Some((fields, rest)) => Some((Obj(fields), rest)))
    else ReadLeaf(t)
  }

  /** One or more values separated by commas, up to and including the bracket. */
  function ReadItems(t: string): (r: Option<(seq<Json>, string)>)
    ensures r.Some? ==> |r.value.1| < |t|
    decreases |t|, 1
  {
    match ReadValue(t)
    case None => None
    case Some((v, t')) =>
      if |t'| > 0 && t'[0] == ']' then Some(([v], t'[1..]))
      else if |t'| > 0 && t'[0] == ',' then
        (match ReadItems(t'[1..])
         case None => None
         case Some((vs, rest)) => Some(([v] + vs, rest)))
      else None
  }

  /** One or more key/value pairs, up to and including the brace; of two equal keys the
      later one wins. */
  function ReadFields(t: string): (r: Option<(map<string, Json>, string)>)
    ensures r.Some? ==> |r.value.1| < |t|
    decreases |t|, 1
  {
    if |t| == 0 || t[0] != '\"' then None
    else
      match ReadBody(t[1..])
      case None => None
      case Some((k, t1)) =>
        if |t1| == 0 || t1[0] != ':' then None
        else
          match ReadValue(t1[1..])
          case None => None
          case Some((v, t2)) =>
            if |t2| > 0 && t2[0] == '}' then Some((map[k := v], t2[1..]))
            else if |t2| > 0 && t2[0] == ',' then
              (match ReadFields(t2[1..])
               case None => None
               case Some((m, rest)) => Some((map[k := v] + m, rest)))
            else None
  }

  /** json.loads on texts of this grammar: exactly one value and nothing after it. */
  function Loads(t: string): Option<Json> {
    match ReadValue(t)
    case None => None
    case Some((v, rest)) => if rest == "" then Some(v) else None
  }

  // ---------- reading undoes writing ----------

  predicate NoDigitFirst(t: string) {
    |t| == 0 || DigitValue(t[0]).None?
  }

  /** `acc` followed by the decimal digits of `n`. */
  ghost function Shift(n: nat, acc: nat): nat {
    if n < 10 then 10 * acc + n else 10 * Shift(n / 10, acc) + n % 10
  }

  lemma {:induction false} ReadDigitsDecimal(n: nat, acc: nat, rest: string)
    ensures ReadDigits(Decimal(n) + rest, acc) == ReadDigits(rest, Shift(n, acc))
  {
    if n < 10 {
      assert (Decimal(n) + rest)[1..] == rest;
      assert DigitValue(DIGITS[n]) == Some(n);
    } else {
      var d := DIGITS[n % 10];
      assert DigitValue(d) == Some(n % 10);
      assert Decimal(n) + rest == Decimal(n / 10) + ([d] + rest);
      ReadDigitsDecimal(n / 10, acc, [d] + rest);
      assert ([d] + rest)[1..] == rest;
    }
  }

  lemma {:induction false} ShiftZero(n: nat)
    ensures Shift(n, 0) == n
  {
    if n >= 10 { ShiftZero(n / 10); }
  }

  lemma {:induction false} DecimalLead(n: nat)
    ensures DigitValue(Decimal(n)[0]).Some?
    ensures n > 0 ==> Decimal(n)[0] != '0'
    ensures n == 0 ==> Decimal(n) == "0"
  {
    if n < 10 {
      assert DigitValue(DIGITS[n]) == Some(n);
    } else {
      DecimalLead(n / 10);
    }
  }

  lemma ReadNatDecimal(n: nat, rest: string)
    requires NoDigitFirst(rest)
    ensures ReadNat(Decimal(n) + rest) == Some((n, rest))
  {
    var t := Decimal(n) + rest;
    DecimalLead(n);
    ReadDigitsDecimal(n, 0, rest);
    ShiftZero(n);
    assert ReadDigits(t, 0) == (n, rest);
    if n == 0 {
      assert t[1..] == rest;
    }
  }

  lemma ReadCharEscape(c: char, rest: string)
    ensures ReadChar(Escape(c) + rest) == Some((c, rest))
    ensures Escape(c)[0] != '\"'
  {
    var t := Escape(c) + rest;
    if |Escape(c)| == 1 {
      assert t[1..] == rest;
    } else if |Escape(c)| == 2 {
      assert t[2..] == rest;
    } else {
      assert t[6..] == rest;
      assert HexValue(HEX[c as int / 16]) == Some(c as int / 16);
      assert HexValue(HEX[c as int % 16]) == Some(c as int % 16);
      assert t[2] == '0' && t[3] == '0';
      assert HexValue(t[2]) == Some(0);
    }
  }

  lemma {:induction false} ReadBodyEscaped(s: string, rest: string)
    ensures ReadBody(EscapeAll(s) + ("\"" + rest)) == Some((s, rest))
  {
    var tail := "\"" + rest;
    if s == "" {
      assert EscapeAll(s) + tail == tail;
      assert tail[1..] == rest;
    } else {
      var after := EscapeAll(s[1..]) + tail;
      assert EscapeAll(s) + tail == Escape(s[0]) + after;
      assert (Escape(s[0]) + after)[0] == Escape(s[0])[0];
      ReadCharEscape(s[0], after);
      ReadBodyEscaped(s[1..], rest);
      assert s == [s[0]] + s[1..];
    }
  }

  lemma DumpsFirst(j: Json)
    ensures |Dumps(j)| > 0 && Dumps(j)[0] != ']'
    ensures j.Num? ==> Dumps(j)[0] == '-' || DigitValue(Dumps(j)[0]).Some?
  {
    if j.Num? && j.n >= 0 {
      DecimalLead(j.n);
    }
  }

  lemma DumpItemsFirst(j: Json, items: seq<Json>)
    requires |items| > 0
    requires forall i :: 0 <= i < |items| ==> items[i] < j
    ensures |DumpItems(j, items)| > 0 && DumpItems(j, items)[0] != ']'
  {
    DumpsFirst(items[0]);
  }

  lemma ReadDumpedConstant(j: Json, rest: string)
    requires j.Null? || j.Bool?
    ensures ReadLeaf(Dumps(j) + rest) == Some((j, rest))
  {
    var w := Dumps(j);
    var t := w + rest;
    assert t[|w|..] == rest && w <= t && t[0] == w[0];
  }

  lemma ReadDumpedNat(n: nat, rest: string)
    requires NoDigitFirst(rest)
    ensures ReadLeaf(Decimal(n) + rest) == Some((Num(n), rest))
  {
    ReadNatDecimal(n, rest);
    DecimalLead(n);
    assert (Decimal(n) + rest)[0] == Decimal(n)[0];
  }

  lemma ReadSigned(body: string, n: int, rest: string)
    requires n < 0 && ReadNat(body).Some? && ReadNat(body).value == (-n, rest)
    ensures ReadLeaf("-" + body) == Some((Num(n), rest))
  {
    assert ("-" + body)[1..] == body;
  }

  lemma ReadDumpedNegative(n: int, rest: string)
    requires n < 0 && NoDigitFirst(rest)
    ensures ReadLeaf("-" + Decimal(-n) + rest) == Some((Num(n), rest))
  {
    ReadNatDecimal(-n, rest);
    ReadSigned(Decimal(-n) + rest, n, rest);
    assert "-" + Decimal(-n) + rest == "-" + (Decimal(-n) + rest);
  }

  lemma ReadDumpedInt(n: int, rest: string)
    requires NoDigitFirst(rest)
    ensures ReadLeaf(DumpInt(n) + rest) == Some((Num(n), rest))
  {
    if n < 0 {
      ReadDumpedNegative(n, rest);
    } else {
      ReadDumpedNat(n, rest);
    }
  }

  lemma ReadDumpedString(s: string, rest: string)
    ensures ReadLeaf(DumpString(s) + rest) == Some((Str(s), rest))
  {
    var t := DumpString(s) + rest;
    assert t[1..] == EscapeAll(s) + ("\"" + rest);
    ReadBodyEscaped(s, rest);
  }

  lemma ReadDumpedLeaf(j: Json, rest: string)
    requires !j.Arr? && !j.Obj? && NoDigitFirst(rest)
    ensures ReadValue(Dumps(j) + rest) == Some((j, rest))
  {
    match j
    case Num(n) => ReadDumpedInt(n, rest); DumpsFirst(j);
    case Str(s) => ReadDumpedString(s, rest);
    case _ => ReadDumpedConstant(j, rest);
  }

  lemma ReadArray(body: string, items: seq<Json>, rest: string)
    requires |body| > 0 && body[0] != ']' && ReadItems(body) == Some((items, rest))
    ensures ReadValue("[" + body) == Some((Arr(items), rest))
  {
    assert ("[" + body)[1..] == body;
  }

  lemma ReadObject(body: string, fields: map<string, Json>, rest: string)
    requires |body| > 0 && body[0] == '\"' && ReadFields(body) == Some((fields, rest))
    ensures ReadValue("{" + body) == Some((Obj(fields), rest))
  {
    assert ("{" + body)[1..] == body;
  }

  /** One item, then a bracket or a comma and the remaining items. */
  lemma ReadOneItem(text: string, v: Json, tail: string, vs: seq<Json>, rest: string)
    requires ReadValue(text) == Some((v, tail)) && |tail| > 0
    requires (tail[0] == ']' && vs == [] && tail[1..] == rest)
          || (tail[0] == ',' && ReadItems(tail[1..]) == Some((vs, rest)))
    ensures ReadItems(text) == Some(([v] + vs, rest))
  {
    assert [v] + [] == [v];
  }

  lemma ReadDumpedKey(k: string, after: string)
    ensures var t := DumpString(k) + after;
      t[0] == '\"' && ReadBody(t[1..]) == Some((k, after))
  {
    var t := DumpString(k) + after;
    assert t[1..] == EscapeAll(k) + ("\"" + after);
    ReadBodyEscaped(k, after);
  }

  /** One pair, then a brace or a comma and the remaining pairs. */
  lemma ReadOneField(t: string, k: string, text: string, v: Json, tail: string, m: map<string, Json>, rest: string)
    requires |t| > 0 && t[0] == '\"' && ReadBody(t[1..]) == Some((k, ":" + text))
    requires ReadValue(text) == Some((v, tail)) && |tail| > 0
    requires (tail[0] == '}' && m == map[] && tail[1..] == rest)
          || (tail[0] == ',' && ReadFields(tail[1..]) == Some((m, rest)))
    ensures ReadFields(t) == Some((map[k := v] + m, rest))
  {
    assert (":" + text)[1..] == text;
    assert map[k := v] + map[] == map[k := v];
  }

  lemma ReadDumpedArray(j: Json, rest: string)
    requires j.Arr? && j.items != []
    requires ReadItems(DumpItems(j, j.items) + ("]" + rest)) == Some((j.items, rest))
    ensures ReadValue(Dumps(j) + rest) == Some((j, rest))
  {
    var body := DumpItems(j, j.items) + ("]" + rest);
    DumpItemsFirst(j, j.items);
    assert Dumps(j) + rest == "[" + body;
    ReadArray(body, j.items, rest);
  }

  lemma ReadDumpedObject(j: Json, rest: string)
    requires j.Obj? && j.fields != map[]
    requires var keys := Lex.Sorted(j.fields.Keys);
      ReadFields(DumpFields(j, keys) + ("}" + rest)) == Some((j.fields, rest))
    ensures ReadValue(Dumps(j) + rest) == Some((j, rest))
  {
    var body := DumpFields(j, Lex.Sorted(j.fields.Keys)) + ("}" + rest);
    assert Dumps(j) + rest == "{" + body;
    ReadObject(body, j.fields, rest);
  }

  lemma ReadDumpedEmpty(j: Json, rest: string)
    requires j == Arr([]) || j == Obj(map[])
    ensures ReadValue(Dumps(j) + rest) == Some((j, rest))
  {
    var t := Dumps(j) + rest;
    assert t[2..] == rest;
  }

  /** Every canonical text is read back, whatever non-digit text follows it. */
  lemma {:induction false} ReadDumps(j: Json, rest: string)
    requires NoDigitFirst(rest)
    ensures ReadValue(Dumps(j) + rest) == Some((j, rest))
    decreases j, 1, 0
  {
    if j == Arr([]) || j == Obj(map[]) {
      ReadDumpedEmpty(j, rest);
    } else if j.Arr? {
      ReadDumpItems(j, j.items, rest);
      ReadDumpedArray(j, rest);
    } else if j.Obj? {
      var keys := Lex.Sorted(j.fields.Keys);
      Lex.SortedNoDuplicates(j.fields.Keys);
      ReadDumpFields(j, keys, rest);
      assert j.fields == Entries(j, keys);
      ReadDumpedObject(j, rest);
    } else {
      ReadDumpedLeaf(j, rest);
    }
  }

  lemma {:induction false} ReadDumpItems(j: Json, items: seq<Json>, rest: string)
    requires |items| > 0
    requires forall i :: 0 <= i < |items| ==> items[i] < j
    ensures ReadItems(DumpItems(j, items) + ("]" + rest)) == Some((items, rest))
    decreases j, 0, |items|
  {
    var more := if |items| == 1 then "]" + rest else "," + (DumpItems(j, items[1..]) + ("]" + rest));
    if |items| > 1 { MoreThen(Dumps(items[0]), DumpItems(j, items[1..]), "]" + rest); }
    assert DumpItems(j, items) + ("]" + rest) == Dumps(items[0]) + more;
    ReadDumps(items[0], more);
    if |items| == 1 {
      assert more[1..] == rest;
    } else {
      assert more[1..] == DumpItems(j, items[1..]) + ("]" + rest);
      ReadDumpItems(j, items[1..], rest);
    }
    assert items == [items[0]] + items[1..];
    ReadOneItem(Dumps(items[0]) + more, items[0], more, items[1..], rest);
  }

  lemma {:induction false} ReadDumpFields(j: Json, keys: seq<string>, rest: string)
    requires j.Obj? && |keys| > 0
    requires forall k :: k in keys ==> k in j.fields
    requires forall i, i' :: 0 <= i < i' < |keys| ==> keys[i] != keys[i']
    ensures ReadFields(DumpFields(j, keys) + ("}" + rest)) == Some((Entries(j, keys), rest))
    decreases j, 0, |keys|, 1
  {
    var k, v := keys[0], j.fields[keys[0]];
    if |keys| == 1 {
      ReadDumpField(j, keys, map[], rest);
    } else {
      ReadDumpFields(j, keys[1..], rest);
      ReadDumpField(j, keys, Entries(j, keys[1..]), rest);
    }
  }

  ghost function Entries(j: Json, keys: seq<string>): map<string, Json>
    requires j.Obj? && forall k :: k in keys ==> k in j.fields
  {
    map k | k in keys :: j.fields[k]
  }

  lemma EntriesStep(j: Json, keys: seq<string>)
    requires j.Obj? && |keys| > 0 && forall k :: k in keys ==> k in j.fields
    requires forall i, i' :: 0 <= i < i' < |keys| ==> keys[i] != keys[i']
    ensures Entries(j, keys) == map[keys[0] := j.fields[keys[0]]] + Entries(j, keys[1..])
  {
    assert keys == [keys[0]] + keys[1..];
  }

  /** The first pair, given that the remaining pairs are read back. */
  lemma ReadDumpField(j: Json, keys: seq<string>, m: map<string, Json>, rest: string)
    requires j.Obj? && |keys| > 0
    requires forall k :: k in keys ==> k in j.fields
    requires forall i, i' :: 0 <= i < i' < |keys| ==> keys[i] != keys[i']
    requires m == Entries(j, keys[1..])
    requires |keys| > 1 ==> ReadFields(DumpFields(j, keys[1..]) + ("}" + rest)) == Some((m, rest))
    ensures ReadFields(DumpFields(j, keys) + ("}" + rest)) == Some((Entries(j, keys), rest))
    decreases j, 0, |keys|, 0
  {
    var k, v := keys[0], j.fields[keys[0]];
    var more := if |keys| == 1 then "}" + rest else "," + (DumpFields(j, keys[1..]) + ("}" + rest));
    var text := Dumps(v) + more;
    DumpFieldsStep(j, keys, rest);
    ReadDumps(v, more);
    ReadDumpedKey(k, ":" + text);
    EntriesStep(j, keys);
    if |keys| == 1 {
      assert more[1..] == rest;
      assert m == map[];
    } else {
      assert more[1..] == DumpFields(j, keys[1..]) + ("}" + rest);
    }
    ReadOneField(DumpString(k) + (":" + text), k, text, v, more, m, rest);
  }

  lemma DumpFieldsStep(j: Json, keys: seq<string>, rest: string)
    requires j.Obj? && |keys| > 0
    requires forall k :: k in keys ==> k in j.fields
    ensures DumpFields(j, keys) + ("}" + rest)
         == DumpString(keys[0]) + (":" + (Dumps(j.fields[keys[0]])
            + (if |keys| == 1 then "}" + rest else "," + (DumpFields(j, keys[1..]) + ("}" + rest)))))
  {
    var key, value := DumpString(keys[0]), Dumps(j.fields[keys[0]]);
    if |keys| == 1 {
      PairThen(key, value, "}" + rest);
    } else {
      PairThen(key, value, "," + (DumpFields(j, keys[1..]) + ("}" + rest)));
      MoreThen(key + ":" + value, DumpFields(j, keys[1..]), "}" + rest);
    }
  }

  lemma PairThen(key: string, value: string, rest: string)
    ensures key + ":" + value + rest == key + (":" + (value + rest))
  {}

  lemma MoreThen(first: string, more: string, rest: string)
    ensures first + "," + more + rest == first + ("," + (more + rest))
  {}

  /** Reading a canonical text gives back the value it was written from. */
  lemma LoadsDumps(j: Json)
    ensures Loads(Dumps(j)) == Some(j)
  {
    ReadDumps(j, "");
    assert Dumps(j) + "" == Dumps(j);
  }

  /** Two values with the same canonical text are the same value. */
  lemma DumpsInjective(a: Json, b: Json)
    requires Dumps(a) == Dumps(b)
    ensures a == b
  {
    LoadsDumps(a);
    LoadsDumps(b);
  }
}
