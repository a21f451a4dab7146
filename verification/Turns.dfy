/** When the replacements of `render`, made in turn, act as one simultaneous substitution:
    exactly when no earlier value lies inside the name of a later token. */
module Turns {
  import opened Firewall
  import JsonText

  /** No closing '@' of this token opens a token of an earlier turn. */
  ghost predicate Apart(s: string, name: string, earlier: set<string>) {
    forall i, n :: 0 <= i && i + |Token(name)| <= |s| && Token(name) <= s[i..] && n in earlier ==>
      !(Token(n) <= s[i + |name| + 1..])
  }

  /** The template a caller may pass: a token shares no '@' with a following token whose
      turn comes before its own. */
  ghost predicate Calm(s: string, order: seq<string>) {
    forall k :: 0 <= k < |order| ==> Apart(s, order[k], set n | n in order[..k])
  }

  /** Tokens that share no '@' at all make a calm template. */
  ghost predicate NoOverlap(s: string, order: seq<string>) {
    forall i, j, m, n :: 0 <= i < j <= |s| && m in order && n in order && Token(m) <= s[i..] && Token(n) <= s[j..] ==>
      i + |Token(m)| <= j
  }

  lemma NoOverlapIsCalm(s: string, order: seq<string>)
    requires NoOverlap(s, order)
    ensures Calm(s, order)
  {
    forall k, i, n | 0 <= k < |order| && 0 <= i && i + |Token(order[k])| <= |s| && Token(order[k]) <= s[i..] && n in order[..k]
      ensures !(Token(n) <= s[i + |order[k]| + 1..])
    {
      assert order[k] in order && n in order;
    }
  }

  /** What makes the replacements of `render` simple: values are not empty and hold no '@'. */
  ghost predicate Plain(values: map<string, string>) {
    forall n :: n in values ==> IsName(n) && NoAt(values[n]) && values[n] != ""
  }

  // ---------- one more turn is one more token of the pass ----------

  lemma TokenAt(s: string, n: string, values: map<string, string>)
    requires Plain(values) && n in values && Token(n) <= s
    ensures OnePass(s, values) == values[n] + OnePass(s[|Token(n)|..], values)
  {
    forall m | m in values && Token(m) <= s ensures m == n {
      assert s == Token(n) + s[|Token(n)|..];
      SameToken(n, m, s[|Token(n)|..]);
    }
  }

  lemma NoTokenAt(s: string, values: map<string, string>)
    requires s != "" && forall n :: n in values ==> !(Token(n) <= s)
    ensures OnePass(s, values) == [s[0]] + OnePass(s[1..], values)
  {}

  /** Text that the pass leaves before an '@' was there before, unless a value lies in it. */
  lemma {:induction false} TextWasThere(p: string, u: string, values: map<string, string>)
    requires Plain(values) && NoAt(p) && p + "@" <= OnePass(u, values)
    requires forall n :: n in values ==> !Contains(p, values[n])
    ensures p + "@" <= u
    decreases |p|
  {
    assert p[0..] == p;
    if n :| n in values && Token(n) <= u {
      TokenAt(u, n, values);
      ValueBeforeAt(p, values[n], OnePass(u[|Token(n)|..], values));
      assert false;
    } else if u != "" {
      NoTokenAt(u, values);
      if p != "" {
        forall n | n in values ensures !Contains(p[1..], values[n]) { TailContains(p, values[n]); }
        PrefixTail(p + "@", OnePass(u, values));
        assert (p + "@")[1..] == p[1..] + "@" && OnePass(u, values)[1..] == OnePass(u[1..], values);
        TextWasThere(p[1..], u[1..], values);
        assert p + "@" == [p[0]] + (p[1..] + "@");
      }
    }
  }

  lemma PrefixTail(a: string, b: string)
    requires a != "" && a <= b
    ensures a[1..] <= b[1..]
  {}

  lemma TailContains(p: string, v: string)
    requires p != "" && !Contains(p, v)
    ensures !Contains(p[1..], v)
  {
    forall i | 0 <= i <= |p[1..]| ensures !(v <= p[1..][i..]) {
      assert p[1..][i..] == p[i + 1..];
    }
  }

  lemma ValueBeforeAt(p: string, v: string, rest: string)
    requires NoAt(v) && p + "@" <= v + rest
    ensures v <= p
  {
    assert forall i :: 0 <= i < |v| ==> (v + rest)[i] == v[i];
    assert (v + rest)[|p|] == (p + "@")[|p|] == '@';
    assert forall i :: 0 <= i < |p| ==> (v + rest)[i] == (p + "@")[i] == p[i];
  }

  lemma ApartTail(s: string, name: string, earlier: set<string>, k: nat)
    requires Apart(s, name, earlier) && k <= |s|
    ensures Apart(s[k..], name, earlier)
  {
    forall i, n | 0 <= i && i + |Token(name)| <= |s[k..]| && Token(name) <= s[k..][i..] && n in earlier
      ensures !(Token(n) <= s[k..][i + |name| + 1..])
    {
      assert s[k..][i..] == s[k + i..] && s[k..][i + |name| + 1..] == s[(k + i) + |name| + 1..];
    }
  }

  /** The turn's own token stands in the result of the pass over the earlier tokens. */
  lemma OwnTokenStays(s: string, name: string, values: map<string, string>)
    requires Plain(values) && IsName(name) && name !in values && Apart(s, name, values.Keys) && Token(name) <= s
    ensures OnePass(s, values) == Token(name) + OnePass(s[|Token(name)|..], values)
  {
    var rest := s[|Token(name)|..];
    assert s == Token(name) + rest;
    forall n | n in values ensures !(Token(n) <= s) && !(Token(n) <= "@" + rest) {
      if Token(n) <= s { SameToken(name, n, rest); }
      assert s[0..] == s && s[0 + |name| + 1..] == "@" + rest;
    }
    NoTokenAt(s, values);
    assert s[1..] == name + ("@" + rest);
    OnePassSkips(name, "@" + rest, values);
    NoTokenAt("@" + rest, values);
    assert ("@" + rest)[1..] == rest;
    AroundName(name, OnePass(rest, values));
  }

  lemma {:induction false} TurnExtendsPass(s: string, values: map<string, string>, name: string, value: string)
    requires Plain(values) && IsName(name) && name !in values && NoAt(value) && value != ""
    requires Apart(s, name, values.Keys) && forall n :: n in values ==> !Contains(name, values[n])
    ensures Replace(OnePass(s, values), Token(name), value) == OnePass(s, values[name := value])
    decreases |s|
  {
    var values' := values[name := value];
    if s == "" {
    } else if n :| n in values && Token(n) <= s {
      var rest := s[|Token(n)|..];
      ApartTail(s, name, values.Keys, |Token(n)|);
      TokenAt(s, n, values);
      TokenAt(s, n, values');
      TurnExtendsPass(rest, values, name, value);
      ReplaceSkips(values[n], OnePass(rest, values), name, value);
    } else if Token(name) <= s {
      var rest := s[|Token(name)|..];
      ApartTail(s, name, values.Keys, |Token(name)|);
      OwnTokenStays(s, name, values);
      TokenAt(s, name, values');
      TurnExtendsPass(rest, values, name, value);
      ReplaceHits(OnePass(rest, values), name, value);
    } else {
      ApartTail(s, name, values.Keys, 1);
      NoTokenAt(s, values);
      NoTokenAt(s, values');
      TurnExtendsPass(s[1..], values, name, value);
      NoNewToken(s, values, name);
      ReplaceStep(OnePass(s, values), name, value);
      assert OnePass(s, values)[1..] == OnePass(s[1..], values);
    }
  }

  /** Where the raw text has no token, the earlier turns complete none. */
  lemma NoNewToken(s: string, values: map<string, string>, name: string)
    requires Plain(values) && IsName(name) && s != "" && !(Token(name) <= s)
    requires forall n :: n in values ==> !(Token(n) <= s) && !Contains(name, values[n])
    ensures !(Token(name) <= OnePass(s, values))
  {
    if Token(name) <= OnePass(s, values) { TokenWasThere(s, values, name); }
  }

  lemma TokenWasThere(s: string, values: map<string, string>, name: string)
    requires Plain(values) && IsName(name) && s != "" && Token(name) <= OnePass(s, values)
    requires forall n :: n in values ==> !(Token(n) <= s) && !Contains(name, values[n])
    ensures Token(name) <= s
  {
    NoTokenAt(s, values);
    var u := s[1..];
    PrefixTail(Token(name), OnePass(s, values));
    assert Token(name)[1..] == name + "@" && OnePass(s, values)[1..] == OnePass(u, values);
    TextWasThere(name, u, values);
    assert s == [s[0]] + u && Token(name) == ['@'] + (name + "@");
  }

  // ---------- all turns ----------

  ghost predicate Distinct(order: seq<string>) {
    forall i, j :: 0 <= i < j < |order| ==> order[i] != order[j]
  }

  /** Values for the names of an order, as render passes them. */
  ghost predicate Fits(order: seq<string>, values: map<string, string>) {
    Plain(values) && Distinct(order) && values.Keys == set n | n in order
  }

  /** No value lies inside the name of a token whose turn comes later. */
  ghost predicate NoneInside(order: seq<string>, values: map<string, string>)
    requires Fits(order, values)
  {
    forall i, j :: 0 <= i < j < |order| ==> !Contains(order[j], values[order[i]])
  }

  function Early(order: seq<string>, values: map<string, string>, k: nat): map<string, string>
    requires k <= |order| && forall n :: n in order ==> n in values
  {
    map n | n in order[..k] :: values[n]
  }

  lemma EarlyGrows(order: seq<string>, values: map<string, string>, k: nat)
    requires Fits(order, values) && k < |order|
    ensures order[k] !in Early(order, values, k)
    ensures Early(order, values, k + 1) == Early(order, values, k)[order[k] := values[order[k]]]
    ensures Early(order, values, k).Keys == set n | n in order[..k]
  {
    assert order[..k + 1] == order[..k] + [order[k]];
  }

  lemma TurnStep(s: string, order: seq<string>, values: map<string, string>, k: nat)
    requires Fits(order, values) && NoneInside(order, values) && Calm(s, order) && k < |order|
    ensures Replace(OnePass(s, Early(order, values, k)), Token(order[k]), values[order[k]]) == OnePass(s, Early(order, values, k + 1))
  {
    EarlyGrows(order, values, k);
    EarlyOutside(order, values, k);
    assert order[k] in order;
    TurnExtendsPass(s, Early(order, values, k), order[k], values[order[k]]);
  }

  lemma EarlyOutside(order: seq<string>, values: map<string, string>, k: nat)
    requires Fits(order, values) && NoneInside(order, values) && k < |order|
    ensures forall n :: n in Early(order, values, k) ==> !Contains(order[k], Early(order, values, k)[n])
  {
    forall n | n in Early(order, values, k) ensures !Contains(order[k], values[n]) {
      var i :| 0 <= i < k && order[..k][i] == n;
      assert order[i] == n;
    }
  }

  lemma {:induction false} TurnsFrom(s: string, order: seq<string>, values: map<string, string>, k: nat)
    requires Fits(order, values) && NoneInside(order, values) && Calm(s, order) && k <= |order|
    ensures InTurn(OnePass(s, Early(order, values, k)), order[k..], values) == OnePass(s, values)
    decreases |order| - k
  {
    if k == |order| {
      assert order[..k] == order && Early(order, values, k) == values;
    } else {
      TurnStep(s, order, values, k);
      TurnAt(OnePass(s, Early(order, values, k)), order, values, k);
      TurnsFrom(s, order, values, k + 1);
    }
  }

  lemma TurnAt(s: string, order: seq<string>, values: map<string, string>, k: nat)
    requires k < |order| && forall n :: n in order ==> n in values
    ensures InTurn(s, order[k..], values) == InTurn(Replace(s, Token(order[k]), values[order[k]]), order[k + 1..], values)
  {
    assert order[k..][0] == order[k] && order[k..][1..] == order[k + 1..];
  }

  lemma {:induction false} PassOfNothing(s: string)
    ensures OnePass(s, map[]) == s
  {
    if s != "" { PassOfNothing(s[1..]); }
  }

  /** The replacements in turn are one pass. */
  lemma TurnsAreOnePass(s: string, order: seq<string>, values: map<string, string>)
    requires Fits(order, values) && NoneInside(order, values) && Calm(s, order)
    ensures InTurn(s, order, values) == OnePass(s, values)
  {
    TurnsFrom(s, order, values, 0);
    assert Early(order, values, 0) == map[] && order[0..] == order;
    PassOfNothing(s);
  }

  // ---------- an enclosed value completes a token ----------

  /** A token with the two ends of another name around it. */
  function Enclosing(x: string, name: string, y: string): string {
    "@" + (x + (Token(name) + (y + "@")))
  }

  /** No name begins or ends with another name. */
  ghost predicate Unnested(order: seq<string>) {
    forall m, n, x :: m in order && n in order && (m == n + x || m == x + n) ==> x == ""
  }

  lemma PartsAreNoNames(order: seq<string>, x: string, v: string, y: string)
    requires Unnested(order) && x + v + y in order && v != ""
    ensures x !in order && y !in order
  {
    var m := x + v + y;
    assert m == x + (v + y) && m == (x + v) + y;
    assert v + y != "" && x + v != "";
  }

  lemma TokenEnds(s: string, m: string, i: nat)
    requires i <= |s| && Token(m) <= s[i..]
    ensures i + |m| + 1 < |s| && s[i] == '@' && s[i + |m| + 1] == '@'
  {
    var k := Token(m);
    assert k[0] == '@' && k[|m| + 1] == '@';
    assert s[i..][0] == s[i] && s[i..][|m| + 1] == s[i + |m| + 1];
  }

  lemma EndsAt(x: string, name: string, y: string, i: nat)
    requires NoAt(x) && NoAt(y) && NoAt(name) && i < |Enclosing(x, name, y)| && Enclosing(x, name, y)[i] == '@'
    ensures i == 0 || i == |x| + 1 || i == |x| + |name| + 2 || i == |x| + |name| + |y| + 3
  {
    var s := Enclosing(x, name, y);
    assert forall k :: 1 <= k <= |x| ==> s[k] == x[k - 1];
    assert forall k :: |x| + 2 <= k < |x| + |name| + 2 ==> s[k] == name[k - |x| - 2];
    assert forall k :: |x| + |name| + 3 <= k < |x| + |name| + |y| + 3 ==> s[k] == y[k - |x| - |name| - 3];
  }

  /** The only tokens in such a text are the one enclosed and those that its surroundings are. */
  lemma OnlyToken(x: string, name: string, y: string, m: string, i: nat)
    requires NoAt(x) && NoAt(y) && NoAt(name) && IsName(m)
    requires i <= |Enclosing(x, name, y)| && Token(m) <= Enclosing(x, name, y)[i..]
    ensures m == x || m == y || (m == name && i == |x| + 1)
  {
    var s := Enclosing(x, name, y);
    TokenEnds(s, m, i);
    EndsAt(x, name, y, i);
    if i == 0 {
      assert s[i..] == Token(x) + (name + ("@" + (y + "@")));
      SameToken(x, m, name + ("@" + (y + "@")));
    } else if i == |x| + 1 {
      assert s[i..] == Token(name) + (y + "@");
      SameToken(name, m, y + "@");
    } else {
      assert s[i..] == Token(y) + "";
      SameToken(y, m, "");
    }
  }

  lemma EnclosingApart(x: string, name: string, y: string, order: seq<string>)
    requires NoAt(x) && NoAt(y) && NoAt(name) && x !in order && y !in order && forall n :: n in order ==> IsName(n)
    ensures NoOverlap(Enclosing(x, name, y), order)
  {
    var s := Enclosing(x, name, y);
    forall i, m | 0 <= i <= |s| && m in order && Token(m) <= s[i..]
      ensures i == |x| + 1
    {
      OnlyToken(x, name, y, m, i);
    }
  }

  /** One pass fills the enclosed token and copies the rest. */
  lemma EnclosingOnce(x: string, name: string, y: string, values: map<string, string>)
    requires Plain(values) && name in values && NoAt(x) && NoAt(y) && x !in values && y !in values
    ensures OnePass(Enclosing(x, name, y), values) == Token(x + values[name] + y)
  {
    var s, tail := Enclosing(x, name, y), Token(name) + (y + "@");
    forall n | n in values ensures !(Token(n) <= s) {
      if Token(n) <= s {
        assert s[0..] == s;
        OnlyToken(x, name, y, n, 0);
      }
    }
    NoTokenAt(s, values);
    assert s[1..] == x + tail;
    OnePassSkips(x, tail, values);
    TokenAt(tail, name, values);
    assert tail[|Token(name)|..] == y + "@";
    LastAt(y, values);
    Completed(x, values[name], y);
  }

  /** Plain text before a last '@' is copied with it. */
  lemma LastAt(y: string, values: map<string, string>)
    requires Plain(values) && NoAt(y)
    ensures OnePass(y + "@", values) == y + "@"
  {
    OnePassSkips(y, "@", values);
    assert forall n :: n in values ==> |Token(n)| > 2;
    NoTokenAt("@", values);
    assert "@"[1..] == "" && OnePass("@", values) == "@";
  }

  lemma Completed(x: string, v: string, y: string)
    ensures ['@'] + (x + (v + (y + "@"))) == Token(x + v + y)
  {}

  /** The turn of the enclosed token completes the name around it. */
  lemma EnclosingTurn(x: string, name: string, y: string, v: string)
    requires IsName(name) && NoAt(x) && NoAt(y) && name != x && name != y
    ensures Replace(Enclosing(x, name, y), Token(name), v) == Token(x + v + y)
  {
    var s, tail := Enclosing(x, name, y), Token(name) + (y + "@");
    if Token(name) <= s {
      assert s[0..] == s;
      OnlyToken(x, name, y, name, 0);
    }
    ReplaceStep(s, name, v);
    assert s[1..] == x + tail;
    ReplaceSkips(x, tail, name, v);
    ReplaceHits(y + "@", name, v);
    ReplaceSkips(y, "@", name, v);
    ReplaceShort("@", name, v);
    Completed(x, v, y);
  }

  lemma {:induction false} ReplaceAbsent(s: string, m: string, v: string)
    requires forall i :: 0 <= i <= |s| ==> !(Token(m) <= s[i..])
    ensures Replace(s, Token(m), v) == s
  {
    if s != "" {
      assert s[0..] == s;
      forall i | 0 <= i <= |s[1..]| ensures !(Token(m) <= s[1..][i..]) { assert s[1..][i..] == s[i + 1..]; }
      ReplaceStep(s, m, v);
      ReplaceAbsent(s[1..], m, v);
    }
  }

  /** Turns from k to j leave a text without their tokens as it is. */
  lemma {:induction false} QuietTurns(s: string, order: seq<string>, values: map<string, string>, k: nat, j: nat)
    requires k <= j <= |order| && forall n :: n in order ==> n in values
    requires forall h, i :: k <= h < j && 0 <= i <= |s| ==> !(Token(order[h]) <= s[i..])
    ensures InTurn(s, order[k..], values) == InTurn(s, order[j..], values)
    decreases j - k
  {
    if k < j {
      TurnAt(s, order, values, k);
      ReplaceAbsent(s, order[k], values[order[k]]);
      QuietTurns(s, order, values, k + 1, j);
    }
  }

  lemma EnclosingQuiet(x: string, name: string, y: string, order: seq<string>, values: map<string, string>, i: nat)
    requires Fits(order, values) && i < |order| && name == order[i] && IsName(name)
    requires NoAt(x) && NoAt(y) && x !in order && y !in order
    ensures InTurn(Enclosing(x, name, y), order, values) == InTurn(Enclosing(x, name, y), order[i..], values)
  {
    var s := Enclosing(x, name, y);
    forall h, p | 0 <= h < i && 0 <= p <= |s| ensures !(Token(order[h]) <= s[p..]) {
      assert order[h] in order;
      if Token(order[h]) <= s[p..] { OnlyToken(x, name, y, order[h], p); }
    }
    QuietTurns(s, order, values, 0, i);
    assert order[0..] == order;
  }

  /** A token by itself is filled in its own turn and in no other. */
  lemma AloneTurns(order: seq<string>, values: map<string, string>, k: nat, j: nat)
    requires Fits(order, values) && k <= j < |order|
    ensures InTurn(Token(order[j]), order[k..], values) == values[order[j]]
  {
    var name, v := order[j], values[order[j]];
    assert name in order;
    forall h, p | k <= h < j && 0 <= p <= |Token(name)| ensures !(Token(order[h]) <= Token(name)[p..]) {
      assert order[h] in order;
      if Token(order[h]) <= Token(name)[p..] { TokenOfToken(name, order[h], p); }
    }
    QuietTurns(Token(name), order, values, k, j);
    TurnAt(Token(name), order, values, j);
    ReplaceHits("", name, v);
    ReplaceShort("", name, v);
    assert Token(name) + "" == Token(name) && v + "" == v;
    forall h, p | j + 1 <= h < |order| && 0 <= p <= |v| ensures !(Token(order[h]) <= v[p..]) {
      NoTokenLeft(v, order[h]);
    }
    QuietTurns(v, order, values, j + 1, |order|);
    assert order[|order|..] == [];
  }

  lemma TokenOfToken(name: string, m: string, p: nat)
    requires IsName(name) && IsName(m) && p <= |Token(name)| && Token(m) <= Token(name)[p..]
    ensures m == name
  {
    TokenEnds(Token(name), m, p);
    assert forall k :: 1 <= k <= |name| ==> Token(name)[k] == name[k - 1];
    assert Token(name)[p..] == Token(name) + "";
    SameToken(name, m, "");
  }

  /** A value inside a later name completes that token: the replacements in turn give the later
      value and leave no token, so that `render` succeeds, where one pass gives the token itself. */
  lemma ValueCompletesAToken(order: seq<string>, values: map<string, string>, i: nat, j: nat, x: string, y: string)
    requires Fits(order, values) && Unnested(order) && i < j < |order| && order[j] == x + values[order[i]] + y
    ensures var s := Enclosing(x, order[i], y);
      && NoOverlap(s, order)
      && InTurn(s, order, values) == values[order[j]] && OnePass(s, values) == Token(order[j])
      && forall n :: !Contains(InTurn(s, order, values), Token(n))
  {
    var name, v := order[i], values[order[i]];
    assert name in order && order[j] in order && IsName(order[j]);
    NameParts(x, v, y);
    PartsAreNoNames(order, x, v, y);
    EnclosingApart(x, name, y, order);
    EnclosingOnce(x, name, y, values);
    EnclosingQuiet(x, name, y, order, values, i);
    TurnAt(Enclosing(x, name, y), order, values, i);
    EnclosingTurn(x, name, y, v);
    AloneTurns(order, values, i + 1, j);
    forall n ensures !Contains(values[order[j]], Token(n)) { NoTokenLeft(values[order[j]], n); }
  }

  lemma NameParts(x: string, v: string, y: string)
    requires IsName(x + v + y)
    ensures NoAt(x) && NoAt(y)
  {
    var m := x + v + y;
    assert forall i :: 0 <= i < |x| ==> x[i] == m[i];
    assert forall i :: 0 <= i < |y| ==> y[i] == m[|x| + |v| + i];
  }

  /** Exactly when: the replacements in turn act as one pass on every calm template if and only
      if no value lies inside the name of a later token. */
  lemma SimultaneousIff(order: seq<string>, values: map<string, string>)
    requires Fits(order, values) && Unnested(order)
    ensures (forall s :: Calm(s, order) ==> InTurn(s, order, values) == OnePass(s, values)) <==> NoneInside(order, values)
    ensures (forall s :: NoOverlap(s, order) ==> InTurn(s, order, values) == OnePass(s, values)) <==> NoneInside(order, values)
  {
    if NoneInside(order, values) {
      forall s | Calm(s, order) ensures InTurn(s, order, values) == OnePass(s, values) {
        TurnsAreOnePass(s, order, values);
      }
      forall s | NoOverlap(s, order) ensures InTurn(s, order, values) == OnePass(s, values) {
        NoOverlapIsCalm(s, order);
      }
    } else {
      var i, j :| 0 <= i < j < |order| && Contains(order[j], values[order[i]]);
      var s := SomeDiffers(order, values, i, j);
    }
  }

  lemma SomeDiffers(order: seq<string>, values: map<string, string>, i: nat, j: nat) returns (s: string)
    requires Fits(order, values) && Unnested(order) && i < j < |order| && Contains(order[j], values[order[i]])
    ensures Calm(s, order) && NoOverlap(s, order) && InTurn(s, order, values) != OnePass(s, values)
  {
    var v, m := values[order[i]], order[j];
    var p :| 0 <= p <= |m| && v <= m[p..];
    var x, y := m[..p], m[p + |v|..];
    assert m == x + v + y;
    ValueCompletesAToken(order, values, i, j, x, y);
    s := Enclosing(x, order[i], y);
    NoOverlapIsCalm(s, order);
    assert m in order && Token(m)[0] == '@' && values[m][0] != '@';
  }

  // ---------- overlapping tokens ----------

  /** Two tokens that share an '@'. */
  function Sharing(m: string, n: string): string {
    Token(m) + (n + "@")
  }

  /** Calm is needed: a token followed by one of an earlier turn, with one '@' between them, is
      rendered differently from one pass whatever the values are. */
  lemma SharedAtDiffers(order: seq<string>, values: map<string, string>, i: nat, j: nat)
    requires Fits(order, values) && i < j < |order|
    ensures InTurn(Sharing(order[j], order[i]), order, values) == "@" + order[j] + values[order[i]]
    ensures OnePass(Sharing(order[j], order[i]), values) == values[order[j]] + order[i] + "@"
    ensures InTurn(Sharing(order[j], order[i]), order, values) != OnePass(Sharing(order[j], order[i]), values)
  {
    var m, n := order[j], order[i];
    assert m in order && n in order;
    SharingOnce(m, n, values);
    SharingTurns(order, values, i, j);
    assert ("@" + m + values[n])[0] == '@' && (values[m] + n + "@")[0] == values[m][0];
  }

  lemma SharingOnce(m: string, n: string, values: map<string, string>)
    requires Plain(values) && m in values && n in values
    ensures OnePass(Sharing(m, n), values) == values[m] + n + "@"
  {
    var s := Sharing(m, n);
    TokenAt(s, m, values);
    assert s[|Token(m)|..] == n + "@";
    LastAt(n, values);
    assert values[m] + (n + "@") == values[m] + n + "@";
  }

  /** The tokens in such a text. */
  lemma SharingTokens(m: string, n: string, k: string, p: nat)
    requires IsName(m) && IsName(n) && IsName(k) && p <= |Sharing(m, n)| && Token(k) <= Sharing(m, n)[p..]
    ensures (k == m && p == 0) || (k == n && p == |m| + 1)
  {
    var s := Sharing(m, n);
    TokenEnds(s, k, p);
    assert forall i :: 1 <= i <= |m| ==> s[i] == m[i - 1];
    assert forall i :: |m| + 2 <= i <= |m| + |n| + 1 ==> s[i] == n[i - |m| - 2];
    if p == 0 {
      assert s[p..] == Token(m) + (n + "@");
      SameToken(m, k, n + "@");
    } else {
      assert s[p..] == Token(n) + "";
      SameToken(n, k, "");
    }
  }

  lemma SharingTurns(order: seq<string>, values: map<string, string>, i: nat, j: nat)
    requires Fits(order, values) && i < j < |order|
    ensures InTurn(Sharing(order[j], order[i]), order, values) == "@" + order[j] + values[order[i]]
  {
    var m, n, v := order[j], order[i], values[order[i]];
    assert m in order && n in order;
    SharingQuiet(order, values, i, j);
    TurnAt(Sharing(m, n), order, values, i);
    SharingTurn(m, n, v);
    AfterSharing("@" + m + v, order, values, i, j);
  }

  lemma SharingQuiet(order: seq<string>, values: map<string, string>, i: nat, j: nat)
    requires Fits(order, values) && i < j < |order|
    ensures InTurn(Sharing(order[j], order[i]), order, values) == InTurn(Sharing(order[j], order[i]), order[i..], values)
  {
    var m, n := order[j], order[i];
    assert m in order && n in order;
    var s := Sharing(m, n);
    forall h, p | 0 <= h < i && 0 <= p <= |s| ensures !(Token(order[h]) <= s[p..]) {
      assert order[h] in order;
      if Token(order[h]) <= s[p..] { SharingTokens(m, n, order[h], p); }
    }
    QuietTurns(s, order, values, 0, i);
    assert order[0..] == order;
  }

  lemma AfterSharing(t: string, order: seq<string>, values: map<string, string>, i: nat, j: nat)
    requires Fits(order, values) && i < j < |order| && t == "@" + order[j] + values[order[i]]
    ensures InTurn(t, order[i + 1..], values) == t
  {
    var m, v := order[j], values[order[i]];
    assert m in order && order[i] in order;
    forall h, p | i + 1 <= h < |order| && 0 <= p <= |t| ensures !(Token(order[h]) <= t[p..]) {
      OneAtNoToken(m, v, order[h], p);
    }
    QuietTurns(t, order, values, i + 1, |order|);
    assert order[|order|..] == [];
  }

  lemma SharingTurn(m: string, n: string, v: string)
    requires IsName(m) && IsName(n) && m != n
    ensures Replace(Sharing(m, n), Token(n), v) == "@" + m + v
  {
    var s := Sharing(m, n);
    if Token(n) <= s {
      assert s[0..] == s;
      SharingTokens(m, n, n, 0);
    }
    ReplaceStep(s, n, v);
    assert s[1..] == m + (Token(n) + "");
    ReplaceSkips(m, Token(n) + "", n, v);
    ReplaceHits("", n, v);
    ReplaceShort("", n, v);
    assert ['@'] + (m + (v + "")) == "@" + m + v;
  }

  lemma OneAtNoToken(m: string, v: string, k: string, p: nat)
    requires NoAt(m) && NoAt(v) && p <= |"@" + m + v|
    ensures !(Token(k) <= ("@" + m + v)[p..])
  {
    var t := "@" + m + v;
    assert forall i :: 1 <= i <= |m| ==> t[i] == m[i - 1];
    assert forall i :: |m| < i < |t| ==> t[i] == v[i - |m| - 1];
    if Token(k) <= t[p..] { TokenEnds(t, k, p); }
  }

  // ---------- the five tokens of render ----------

  /** Nothing in a token name but capitals and '_'. */
  lemma NamesAreCapital(i: nat)
    requires i < |ORDER|
    ensures forall k :: 0 <= k < |ORDER[i]| ==> 'A' <= ORDER[i][k] <= 'Z' || ORDER[i][k] == '_'
  {
    assert i == 0 || i == 1 || i == 2 || i == 3 || i == 4;
  }

  lemma OrderDistinct()
    ensures Distinct(ORDER)
  {
    assert ORDER[0][0] == 'U' && ORDER[1][0] == 'C' && ORDER[2][1] == 'R' && ORDER[3][0] == 'D' && ORDER[4][1] == 'O';
    assert ORDER[2][0] == 'T' && ORDER[4][0] == 'T';
  }

  /** Which of the five names begins as another does, and which ends so. */
  lemma OrderUnnested()
    ensures Unnested(ORDER)
  {
    forall m, n, x | m in ORDER && n in ORDER && (m == n + x || m == x + n) ensures x == "" {
      var i :| 0 <= i < |ORDER| && ORDER[i] == m;
      var j :| 0 <= j < |ORDER| && ORDER[j] == n;
      if m == n + x { BeginsAs(i, j, x); } else { EndsAs(i, j, x); }
    }
  }

  lemma BeginsAs(i: nat, j: nat, x: string)
    requires i < |ORDER| && j < |ORDER| && ORDER[i] == ORDER[j] + x
    ensures x == ""
  {
    assert ORDER[i][0] == ORDER[j][0] && ORDER[i][1] == ORDER[j][1];
    assert ORDER[0][0] == 'U' && ORDER[1][0] == 'C' && ORDER[2][1] == 'R' && ORDER[3][0] == 'D' && ORDER[4][1] == 'O';
    assert ORDER[2][0] == 'T' && ORDER[4][0] == 'T';
    assert i == j;
  }

  lemma EndsAs(i: nat, j: nat, x: string)
    requires i < |ORDER| && j < |ORDER| && ORDER[i] == x + ORDER[j]
    ensures x == ""
  {
    var a, b := ORDER[i], ORDER[j];
    assert forall k :: 0 <= k < |b| ==> a[|x| + k] == b[k];
    assert a[|a| - 1] == b[|b| - 1] && a[|a| - 4] == b[|b| - 4];
    assert |b| == 8 ==> a[|a| - 8] == b[0];
    FromTheEnd();
  }

  lemma FromTheEnd()
    ensures |ORDER[0]| == 9 && ORDER[0][8] == 'F' && ORDER[0][5] == 'K'
    ensures |ORDER[1]| == 9 && ORDER[1][8] == 'F' && ORDER[1][5] == 'T'
    ensures |ORDER[2]| == 10 && ORDER[2][9] == 'T' && ORDER[2][6] == 'P' && ORDER[2][2] == 'A'
    ensures |ORDER[3]| == 8 && ORDER[3][7] == 'T' && ORDER[3][4] == 'P' && ORDER[3][0] == 'D'
    ensures |ORDER[4]| == 7 && ORDER[4][6] == 'D'
  {}

  /** What a caller can check before the call: no interface name is part of the name of a
      token that is replaced after it. */
  ghost predicate Harmless(config: Config) {
    && (forall j :: 1 <= j < |ORDER| ==> !Contains(ORDER[j], config.uplinkIf))
    && forall j :: 2 <= j < |ORDER| ==> !Contains(ORDER[j], config.clientIf)
  }

  lemma ConfigFits(config: Config, uid: int)
    requires config.Valid() && uid >= 0
    ensures Fits(ORDER, Values(config, uid))
  {
    ValuesAreNames(config, uid);
    OrderDistinct();
  }

  lemma {:induction false} DecimalDigits(n: nat)
    ensures JsonText.Decimal(n) != "" && forall k :: 0 <= k < |JsonText.Decimal(n)| ==> '0' <= JsonText.Decimal(n)[k] <= '9'
  {
    assert forall i :: 0 <= i < |JsonText.DIGITS| ==> '0' <= JsonText.DIGITS[i] <= '9';
    if n >= 10 { DecimalDigits(n / 10); }
  }

  /** No number lies inside a token name. */
  lemma NumberOutside(n: nat, j: nat)
    requires j < |ORDER|
    ensures !Contains(ORDER[j], JsonText.DumpInt(n))
  {
    DecimalDigits(n);
    NamesAreCapital(j);
    var v := JsonText.DumpInt(n);
    forall p | 0 <= p <= |ORDER[j]| ensures !(v <= ORDER[j][p..]) {
      assert v[0] in v && '0' <= v[0] <= '9';
      assert p < |ORDER[j]| ==> ORDER[j][p..][0] == ORDER[j][p];
    }
  }

  lemma ValuesInOrder(config: Config, uid: int)
    ensures var values := Values(config, uid);
      && (forall n :: n in ORDER ==> n in values)
      && values[ORDER[0]] == config.uplinkIf && values[ORDER[1]] == config.clientIf
      && values[ORDER[2]] == JsonText.DumpInt(config.transPort) && values[ORDER[3]] == JsonText.DumpInt(config.dnsPort)
      && values[ORDER[4]] == JsonText.DumpInt(uid)
  {
    OrderDistinct();
  }

  lemma HarmlessIffNoneInside(config: Config, uid: int)
    requires config.Valid() && uid >= 0 && Fits(ORDER, Values(config, uid))
    ensures Harmless(config) <==> NoneInside(ORDER, Values(config, uid))
  {
    var values := Values(config, uid);
    ValuesInOrder(config, uid);
    forall i, j | 2 <= i < j < |ORDER| ensures !Contains(ORDER[j], values[ORDER[i]]) {
      NumberOutside(config.transPort, j);
      NumberOutside(config.dnsPort, j);
      NumberOutside(uid, j);
    }
    forall j | 1 <= j < |ORDER| && NoneInside(ORDER, values) ensures !Contains(ORDER[j], config.uplinkIf) {
      assert !Contains(ORDER[j], values[ORDER[0]]);
    }
    forall j | 2 <= j < |ORDER| && NoneInside(ORDER, values) ensures !Contains(ORDER[j], config.clientIf) {
      assert !Contains(ORDER[j], values[ORDER[1]]);
    }
  }

  /** Exactly when `render` is one simultaneous substitution: for a valid configuration, its
      replacements in turn equal one pass on every template whose tokens do not overlap, and
      then on every calm one, if and only if no interface name is part of a later token's name. */
  lemma RenderSimultaneousIff(config: Config, uid: int)
    requires config.Valid() && uid >= 0
    ensures var values := Values(config, uid);
      && (forall n :: n in ORDER ==> n in values)
      && ((forall s :: NoOverlap(s, ORDER) ==> InTurn(s, ORDER, values) == OnePass(s, values)) <==> Harmless(config))
      && ((forall s :: Calm(s, ORDER) ==> InTurn(s, ORDER, values) == OnePass(s, values)) <==> Harmless(config))
  {
    ConfigFits(config, uid);
    OrderUnnested();
    SimultaneousIff(ORDER, Values(config, uid));
    HarmlessIffNoneInside(config, uid);
  }

  /** The failing input: an interface name inside a later token's name, with the token of the
      interface written in its place. `render` succeeds with the later value. */
  lemma InterfaceCompletesAToken(config: Config, uid: int, i: nat, j: nat, x: string, y: string)
    requires config.Valid() && uid >= 0 && i < j < |ORDER|
    requires ORDER[j] == x + (if i == 0 then config.uplinkIf else config.clientIf) + y && i < 2
    ensures var values := Values(config, uid); var s := Enclosing(x, ORDER[i], y);
      && (forall n :: n in ORDER ==> n in values) && NoOverlap(s, ORDER)
      && InTurn(s, ORDER, values) == values[ORDER[j]] && OnePass(s, values) == Token(ORDER[j])
      && forall n :: n in ORDER ==> !Contains(InTurn(s, ORDER, values), Token(n))
  {
    ConfigFits(config, uid);
    OrderUnnested();
    ValuesInOrder(config, uid);
    ValueCompletesAToken(ORDER, Values(config, uid), i, j, x, y);
  }

  /** Two such configurations are valid: with the client interface DNS_PORT the template
      "@@CLIENT_IF@@" fails, with PORT the template "@DNS_@CLIENT_IF@@". */
  lemma SomeInterfacesComplete()
    ensures WithClient("DNS_PORT").Valid() && ORDER[3] == "" + WithClient("DNS_PORT").clientIf + ""
    ensures WithClient("PORT").Valid() && ORDER[3] == "DNS_" + WithClient("PORT").clientIf + ""
  {
    assert "uplink0"[0] == 'u' && "DNS_PORT"[0] == 'D' && "PORT"[0] == 'P';
    ClientIsValid("DNS_PORT");
    ClientIsValid("PORT");
  }

  function WithClient(clientIf: string): Config {
    Config("uplink0", clientIf, 9040, 5353, 9050, "debian-tor")
  }

  lemma ClientIsValid(clientIf: string)
    requires IsName(clientIf) && |clientIf| <= 15 && clientIf[0] != 'u'
    ensures WithClient(clientIf).Valid()
  {
    assert IsName("uplink0") && "uplink0"[0] == 'u';
    assert "debian-tor"[0] == 'd';
  }

  /** Tokens that overlap fail for every valid configuration: the client token followed by the
      uplink token, with one '@' between them. */
  lemma OverlapAlwaysDiffers(config: Config, uid: int)
    requires config.Valid() && uid >= 0
    ensures var values := Values(config, uid); var s := Sharing("CLIENT_IF", "UPLINK_IF");
      && (forall n :: n in ORDER ==> n in values)
      && InTurn(s, ORDER, values) == "@" + "CLIENT_IF" + config.uplinkIf
      && OnePass(s, values) == config.clientIf + "UPLINK_IF" + "@"
      && InTurn(s, ORDER, values) != OnePass(s, values)
  {
    ConfigFits(config, uid);
    ValuesInOrder(config, uid);
    SharedAtDiffers(ORDER, Values(config, uid), 0, 1);
    assert ORDER[0] == "UPLINK_IF" && ORDER[1] == "CLIENT_IF";
  }
}
