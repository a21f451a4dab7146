/** Rendering the firewall template (firewall.py: render): five textual replacements, one
    after the other. They act as one simultaneous substitution on separated templates, in any
    order; module Turns says exactly when they do on the others. */
module Firewall {
  import JsonText

  /** str.replace: every occurrence, leftmost first, never inside a replacement. */
  function Replace(t: string, token: string, value: string): string
    requires |token| > 0
    decreases |t|
  {
    if |t| < |token| then t
    else if token <= t then value + Replace(t[|token|..], token, value)
    else [t[0]] + Replace(t[1..], token, value)
  }

  predicate Contains(t: string, s: string) {
    exists i :: 0 <= i <= |t| && s <= t[i..]
  }

  /** Characters of token names, interface names and port numbers. */
  predicate NameChar(c: char) {
    'A' <= c <= 'Z' || 'a' <= c <= 'z' || '0' <= c <= '9' || c == '_' || c == '.' || c == ':' || c == '-'
  }

  predicate IsName(s: string) {
    |s| > 0 && forall i :: 0 <= i < |s| ==> NameChar(s[i])
  }

  function Token(name: string): string {
    "@" + name + "@"
  }

  /** A template cut at its tokens: literal text, then a token, then the rest. */
  datatype Template = End(text: string) | More(text: string, name: string, rest: Template)

  function Flatten(t: Template): string {
    match t
    case End(text) => text
    case More(text, name, rest) => text + Token(name) + Flatten(rest)
  }

  predicate NoAt(s: string) {
    forall i :: 0 <= i < |s| ==> s[i] != '@'
  }

  /** Some character that occurs in no token name and in no value. */
  predicate HasBarrier(s: string) {
    exists i :: 0 <= i < |s| && !NameChar(s[i]) && s[i] != '@'
  }

  /** Literal text is free of '@', and between two tokens it holds a barrier. */
  predicate Separated(t: Template) {
    match t
    case End(text) => NoAt(text)
    case More(text, name, rest) =>
      NoAt(text) && IsName(name) && Separated(rest) && (rest.More? ==> HasBarrier(rest.text))
  }

  function Prepend(s: string, t: Template): Template {
    match t
    case End(text) => End(s + text)
    case More(text, name, rest) => More(s + text, name, rest)
  }

  /** Replacing one token at its places in the template. */
  function Subst(t: Template, name: string, value: string): Template {
    match t
    case End(_) => t
    case More(text, n, rest) =>
      if n == name then Prepend(text + value, Subst(rest, name, value))
      else More(text, n, Subst(rest, name, value))
  }

  /** Every token replaced at once, by one pass over the raw text. */
  ghost function OnePass(s: string, values: map<string, string>): string
    decreases |s|
  {
    if s == "" then ""
    else if exists n :: n in values && Token(n) <= s then
      var n :| n in values && Token(n) <= s;
      values[n] + OnePass(s[|Token(n)|..], values)
    else [s[0]] + OnePass(s[1..], values)
  }

  /** The same on a template that is already cut at its tokens. */
  function Filled(t: Template, values: map<string, string>): string {
    match t
    case End(text) => text
    case More(text, n, rest) =>
      text + (if n in values then values[n] else Token(n)) + Filled(rest, values)
  }

  function Names(t: Template): set<string> {
    match t
    case End(_) => {}
    case More(_, n, rest) => {n} + Names(rest)
  }

  lemma FlattenPrepend(s: string, t: Template)
    ensures Flatten(Prepend(s, t)) == s + Flatten(t)
  {
    match t
    case End(text) =>
    case More(text, n, rest) => assert (s + text) + Token(n) + Flatten(rest) == s + (text + Token(n) + Flatten(rest));
  }

  /** A stretch without '@' is copied. */
  lemma {:induction false} ReplaceSkips(s: string, rest: string, name: string, value: string)
    requires NoAt(s)
    ensures Replace(s + rest, Token(name), value) == s + Replace(rest, Token(name), value)
  {
    if s == "" {
      assert s + rest == rest;
    } else {
      var t := s + rest;
      assert t[1..] == s[1..] + rest;
      assert Token(name)[0] == '@';
      ReplaceSkips(s[1..], rest, name, value);
      if |t| < |Token(name)| {
        ReplaceShort(rest, name, value);
      } else {
        assert t[0] == s[0];
        assert s == [s[0]] + s[1..];
      }
    }
  }

  lemma ReplaceShort(t: string, name: string, value: string)
    requires |t| < |Token(name)|
    ensures Replace(t, Token(name), value) == t
  {}

  /** The token itself is replaced. */
  lemma ReplaceHits(rest: string, name: string, value: string)
    ensures Replace(Token(name) + rest, Token(name), value) == value + Replace(rest, Token(name), value)
  {
    var t := Token(name) + rest;
    assert t[|Token(name)|..] == rest;
  }

  /** Two tokens that start at one place are the same token. */
  lemma SameToken(a: string, b: string, rest: string)
    requires NoAt(a) && NoAt(b) && Token(b) <= Token(a) + rest
    ensures a == b
  {
    var u := (Token(a) + rest)[1..];
    assert u == a + ("@" + rest);
    assert Token(b)[1..] == b + "@" <= u;
    assert u[|a|] == '@' && u[|b|] == (b + "@")[|b|];
    assert forall i :: 0 <= i < |a| ==> u[i] == a[i];
    assert forall i :: 0 <= i < |b| ==> u[i] == (b + "@")[i] == b[i];
  }

  /** No token starts at the closing '@' of a token. */
  lemma NoTokenAtClose(rest: Template, name: string)
    requires Separated(rest) && (rest.More? ==> HasBarrier(rest.text)) && IsName(name)
    ensures !(Token(name) <= "@" + Flatten(rest))
  {
    var t, k := "@" + Flatten(rest), Token(name);
    assert forall i :: 0 <= i < |rest.text| ==> t[i + 1] == rest.text[i];
    assert forall i :: 0 <= i < |name| ==> k[i + 1] == name[i];
    if |name| < |rest.text| {
      assert k[|name| + 1] == '@' && t[|name| + 1] == rest.text[|name|];
    } else if rest.More? {
      var i :| 0 <= i < |rest.text| && !NameChar(rest.text[i]) && rest.text[i] != '@';
      assert k[i + 1] == name[i] && t[i + 1] == rest.text[i];
    } else {
      assert |t| < |k|;
    }
  }

  lemma ReplaceStep(t: string, name: string, value: string)
    requires |t| > 0 && !(Token(name) <= t)
    ensures Replace(t, Token(name), value) == [t[0]] + Replace(t[1..], Token(name), value)
  {
    if |t| < |Token(name)| {
      assert t == [t[0]] + t[1..];
    }
  }

  /** A different token is copied, provided what follows starts no token at its close. */
  lemma ReplaceMisses(n: string, rest: string, name: string, value: string)
    requires NoAt(n) && NoAt(name) && n != name
    requires !(Token(name) <= "@" + rest)
    ensures Replace(Token(n) + rest, Token(name), value) == Token(n) + Replace(rest, Token(name), value)
  {
    var t, tail := Token(n) + rest, "@" + rest;
    if Token(name) <= t { SameToken(n, name, rest); }
    ReplaceStep(t, name, value);
    assert t[1..] == n + tail;
    ReplaceSkips(n, tail, name, value);
    ReplaceStep(tail, name, value);
    assert tail[1..] == rest;
    AroundName(n, Replace(rest, Token(name), value));
  }

  lemma AroundName(n: string, r: string)
    ensures ['@'] + (n + (['@'] + r)) == Token(n) + r
  {}

  /** One textual replacement is one substitution in the template. */
  lemma {:induction false} ReplaceIsSubst(t: Template, name: string, value: string)
    requires Separated(t) && IsName(name)
    ensures Replace(Flatten(t), Token(name), value) == Flatten(Subst(t, name, value))
  {
    match t
    case End(text) =>
      ReplaceSkips(text, "", name, value);
      assert text + "" == text && Replace("", Token(name), value) == "";
    case More(text, n, rest) =>
      ReplaceIsSubst(rest, name, value);
      ReplaceIsSubstStep(text, n, rest, name, value);
  }

  lemma ReplaceIsSubstStep(text: string, n: string, rest: Template, name: string, value: string)
    requires Separated(More(text, n, rest)) && IsName(name)
    requires Replace(Flatten(rest), Token(name), value) == Flatten(Subst(rest, name, value))
    ensures var t := More(text, n, rest);
      Replace(Flatten(t), Token(name), value) == Flatten(Subst(t, name, value))
  {
    var tail := Flatten(rest);
    FlattenMore(text, n, rest);
    ReplaceSkips(text, Token(n) + tail, name, value);
    if n == name {
      ReplaceHits(tail, name, value);
      Regroup(text, value, Subst(rest, name, value));
    } else {
      NoTokenAtClose(rest, name);
      ReplaceMisses(n, tail, name, value);
      FlattenMore(text, n, Subst(rest, name, value));
    }
  }

  lemma FlattenMore(text: string, n: string, rest: Template)
    ensures Flatten(More(text, n, rest)) == text + (Token(n) + Flatten(rest))
  {}

  lemma Regroup(text: string, value: string, t: Template)
    ensures text + (value + Flatten(t)) == Flatten(Prepend(text + value, t))
  {
    FlattenPrepend(text + value, t);
    assert text + (value + Flatten(t)) == (text + value) + Flatten(t);
  }

  lemma {:induction false} SubstKeepsSeparated(t: Template, name: string, value: string)
    requires Separated(t) && NoAt(value)
    ensures Separated(Subst(t, name, value))
    ensures Subst(t, name, value).More? && t.More? && HasBarrier(t.text) ==> HasBarrier(Subst(t, name, value).text)
    ensures Names(Subst(t, name, value)) == Names(t) - {name}
  {
    if t.More? {
      SubstKeepsSeparated(t.rest, name, value);
      var r := Subst(t.rest, name, value);
      if t.name == name {
        PrependKeeps(t.text + value, r);
        if HasBarrier(t.text) {
          var i :| 0 <= i < |t.text| && !NameChar(t.text[i]) && t.text[i] != '@';
          assert Prepend(t.text + value, r).text[i] == t.text[i];
        }
      }
    }
  }

  lemma PrependKeeps(s: string, t: Template)
    requires Separated(t) && NoAt(s)
    ensures Separated(Prepend(s, t)) && Names(Prepend(s, t)) == Names(t)
  {}

  lemma {:induction false} FilledPrepend(s: string, t: Template, values: map<string, string>)
    ensures Filled(Prepend(s, t), values) == s + Filled(t, values)
  {
    if t.More? {
      var v := if t.name in values then values[t.name] else Token(t.name);
      assert (s + t.text) + v + Filled(t.rest, values) == s + (t.text + v + Filled(t.rest, values));
    }
  }

  lemma {:induction false} FilledSubst(t: Template, name: string, values: map<string, string>)
    requires name in values
    ensures Filled(Subst(t, name, values[name]), values) == Filled(t, values)
  {
    if t.More? {
      FilledSubst(t.rest, name, values);
      if t.name == name {
        FilledPrepend(t.text + values[name], Subst(t.rest, name, values[name]), values);
      }
    }
  }

  lemma {:induction false} OnePassSkips(s: string, rest: string, values: map<string, string>)
    requires NoAt(s)
    ensures OnePass(s + rest, values) == s + OnePass(rest, values)
  {
    if s == "" {
      assert s + rest == rest;
    } else {
      var t := s + rest;
      assert t[1..] == s[1..] + rest;
      assert forall n :: Token(n)[0] == '@';
      assert t[0] != '@';
      OnePassSkips(s[1..], rest, values);
    }
  }

  lemma {:induction false} OnePassIsFilled(t: Template, values: map<string, string>)
    requires Separated(t) && Names(t) <= values.Keys
    requires forall n :: n in values ==> IsName(n)
    ensures OnePass(Flatten(t), values) == Filled(t, values)
  {
    match t
    case End(text) =>
      OnePassSkips(text, "", values);
      assert text + "" == text;
    case More(text, n, rest) =>
      var tail := Token(n) + Flatten(rest);
      assert Flatten(t) == text + tail;
      OnePassSkips(text, tail, values);
      OnePassIsFilled(rest, values);
      assert Token(n) <= tail && n in values;
      forall m | m in values && Token(m) <= tail ensures m == n {
        SameToken(n, m, Flatten(rest));
      }
      assert tail[|Token(n)|..] == Flatten(rest);
  }

  /** The replacements one after the other, in the given order. */
  function InTurn(s: string, order: seq<string>, values: map<string, string>): string
    requires forall n :: n in order ==> n in values
    decreases |order|
  {
    if order == [] then s
    else InTurn(Replace(s, Token(order[0]), values[order[0]]), order[1..], values)
  }

  lemma {:induction false} InTurnOnTemplate(t: Template, order: seq<string>, values: map<string, string>)
    requires Separated(t) && Names(t) <= (set n | n in order)
    requires forall n :: n in order ==> n in values && IsName(n) && NoAt(values[n])
    ensures InTurn(Flatten(t), order, values) == Filled(t, values)
    ensures NoAt(Filled(t, values))
    decreases |order|
  {
    if order == [] {
      assert t.End?;
    } else {
      var n := order[0];
      ReplaceIsSubst(t, n, values[n]);
      SubstKeepsSeparated(t, n, values[n]);
      FilledSubst(t, n, values);
      assert order == [n] + order[1..];
      InTurnOnTemplate(Subst(t, n, values[n]), order[1..], values);
    }
  }

  /** For a separated template the replacements in turn, in any order that covers the
      template's tokens, give the one-pass result, and no '@' is left. */
  lemma InTurnIsSimultaneous(t: Template, order: seq<string>, values: map<string, string>)
    requires Separated(t) && Names(t) <= (set n | n in order)
    requires forall n :: n in order ==> n in values && NoAt(values[n])
    requires forall n :: n in values ==> IsName(n)
    ensures InTurn(Flatten(t), order, values) == OnePass(Flatten(t), values)
    ensures NoAt(InTurn(Flatten(t), order, values))
  {
    InTurnOnTemplate(t, order, values);
    assert Names(t) <= values.Keys;
    OnePassIsFilled(t, values);
  }

  // ---------- render ----------

  datatype Config = Config(uplinkIf: string, clientIf: string, transPort: int, dnsPort: int,
                           socksPort: int, torUser: string)
  {
    predicate Valid() {
      && IsName(uplinkIf) && |uplinkIf| <= 15
      && IsName(clientIf) && |clientIf| <= 15
      && uplinkIf != clientIf
      && 1 <= transPort <= 65535 && 1 <= dnsPort <= 65535 && 1 <= socksPort <= 65535
      && transPort != dnsPort && transPort != socksPort && dnsPort != socksPort
      && 1 <= |torUser| <= 32
      && ('a' <= torUser[0] <= 'z' || torUser[0] == '_')
      && (forall i :: 1 <= i < |torUser| ==>
            'a' <= torUser[i] <= 'z' || '0' <= torUser[i] <= '9' || torUser[i] == '_' || torUser[i] == '-')
    }
  }

  datatype Outcome = Rendered(text: string) | ConfigError | FirewallError

  const ORDER := ["UPLINK_IF", "CLIENT_IF", "TRANS_PORT", "DNS_PORT", "TOR_UID"]

  function Values(config: Config, uid: int): map<string, string> {
    map["UPLINK_IF" := config.uplinkIf,
        "CLIENT_IF" := config.clientIf,
        "TRANS_PORT" := JsonText.DumpInt(config.transPort),
        "DNS_PORT" := JsonText.DumpInt(config.dnsPort),
        "TOR_UID" := JsonText.DumpInt(uid)]
  }

  method Render(template: string, config: Config, uid: int) returns (r: Outcome)
    ensures r == ConfigError <==> !config.Valid()
    ensures config.Valid() && uid < 0 ==> r == FirewallError
    ensures config.Valid() && uid >= 0 ==>
      var text := InTurn(template, ORDER, Values(config, uid));
      r == if exists n :: n in ORDER && Contains(text, Token(n)) then FirewallError else Rendered(text)
  {
    if !config.Valid() {
      return ConfigError;
    }
    if uid < 0 {
      return FirewallError;
    }
    var values := Values(config, uid);
    var rendered := template;
    var i := 0;
    while i < |ORDER|
      invariant 0 <= i <= |ORDER|
      invariant InTurn(rendered, ORDER[i..], values) == InTurn(template, ORDER, values)
    {
      rendered := Replace(rendered, Token(ORDER[i]), values[ORDER[i]]);
      i := i + 1;
    }
    if exists n :: n in ORDER && Contains(rendered, Token(n)) {
      return FirewallError;
    }
    r := Rendered(rendered);
  }

  lemma {:induction false} DecimalIsName(n: nat)
    ensures IsName(JsonText.Decimal(n))
  {
    assert forall i :: 0 <= i < |JsonText.DIGITS| ==> NameChar(JsonText.DIGITS[i]);
    if n >= 10 { DecimalIsName(n / 10); }
  }

  lemma NoTokenLeft(text: string, name: string)
    requires NoAt(text)
    ensures !Contains(text, Token(name))
  {
    forall i | 0 <= i <= |text| ensures !(Token(name) <= text[i..]) {
      assert Token(name)[0] == '@';
      if i < |text| { assert text[i..][0] == text[i]; }
    }
  }

  lemma ValuesAreNames(config: Config, uid: int)
    requires config.Valid() && uid >= 0
    ensures forall n :: n in Values(config, uid) ==> IsName(n) && IsName(Values(config, uid)[n])
    ensures Values(config, uid).Keys == set n | n in ORDER
  {
    DecimalIsName(config.transPort);
    DecimalIsName(config.dnsPort);
    DecimalIsName(uid);
    assert IsName("UPLINK_IF") && IsName("CLIENT_IF") && IsName("TRANS_PORT") && IsName("DNS_PORT") && IsName("TOR_UID");
  }

  /** For a valid configuration and a separated template over the five tokens, `render`
      succeeds with the one-pass substitution, and would with its replacements in any
      order that covers them. */
  lemma RenderIsSimultaneous(t: Template, config: Config, uid: int, order: seq<string>)
    requires config.Valid() && uid >= 0 && Separated(t)
    requires Names(t) <= (set n | n in ORDER) == set n | n in order
    ensures var values := Values(config, uid);
      && (forall n :: n in order ==> n in values)
      && InTurn(Flatten(t), order, values) == OnePass(Flatten(t), values)
      && forall n :: n in ORDER ==> !Contains(InTurn(Flatten(t), order, values), Token(n))
  {
    var values := Values(config, uid);
    ValuesAreNames(config, uid);
    assert forall n :: n in order ==> n in set m | m in order;
    InTurnIsSimultaneous(t, order, values);
    forall n | n in ORDER ensures !Contains(InTurn(Flatten(t), order, values), Token(n)) {
      NoTokenLeft(InTurn(Flatten(t), order, values), n);
    }
  }
}
