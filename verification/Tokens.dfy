/** Handoff tokens, the rotating key ring and single-use enforcement (tokens.py). Clock
    readings, key material and key ids are parameters; the MAC is a parameter function. */
module Tokens {
  import opened Basics
  import opened JsonText

  const TIERS := ["T2", "T3"]

  datatype HandoffToken = HandoffToken(taskId: string, team: string, tierMax: string,
                                       scopeDigest: string, expiry: int, keyId: string, mac: string)

  type Hmac = (string, string) -> string

  // ---------- the signed message ----------

  function JoinBars(fields: seq<string>): string
    requires |fields| > 0
  {
    if |fields| == 1 then fields[0] else fields[0] + "|" + JoinBars(fields[1..])
  }

  function MessageFields(t: HandoffToken): seq<string> {
    [t.taskId, t.team, t.tierMax, t.scopeDigest, DumpInt(t.expiry)]
  }

  function Message(t: HandoffToken): string {
    JoinBars(MessageFields(t))
  }

  predicate BarFree(s: string) {
    '|' !in s
  }

  function Bars(s: string): nat {
    if s == "" then 0 else (if s[0] == '|' then 1 else 0) + Bars(s[1..])
  }

  function BarsIn(fields: seq<string>): nat {
    if fields == [] then 0 else Bars(fields[0]) + BarsIn(fields[1..])
  }

  lemma {:induction false} BarsConcat(a: string, b: string)
    ensures Bars(a + b) == Bars(a) + Bars(b)
  {
    if a == "" {
      assert a + b == b;
    } else {
      BarsConcat(a[1..], b);
      assert (a + b)[1..] == a[1..] + b;
    }
  }

  lemma {:induction false} BarFreeIffNoBars(s: string)
    ensures BarFree(s) <==> Bars(s) == 0
  {
    if s != "" {
      BarFreeIffNoBars(s[1..]);
      assert s == [s[0]] + s[1..];
    }
  }

  lemma {:induction false} BarsJoined(fields: seq<string>)
    requires |fields| > 0
    ensures Bars(JoinBars(fields)) == BarsIn(fields) + |fields| - 1
  {
    if |fields| > 1 {
      BarsJoined(fields[1..]);
      BarsConcat(fields[0] + "|", JoinBars(fields[1..]));
      BarsConcat(fields[0], "|");
      assert Bars("|") == 1 + Bars("|"[1..]);
    }
  }

  lemma {:induction false} NoBarsInEach(fields: seq<string>)
    ensures BarsIn(fields) == 0 <==> forall i :: 0 <= i < |fields| ==> BarFree(fields[i])
  {
    if fields != [] {
      NoBarsInEach(fields[1..]);
      BarFreeIffNoBars(fields[0]);
      assert forall i :: 1 <= i < |fields| ==> fields[i] == fields[1..][i - 1];
    }
  }

  lemma FirstFieldSame(a: string, b: string, x: string, y: string)
    requires BarFree(a) && BarFree(b) && a + "|" + x == b + "|" + y
    ensures a == b && x == y
  {
    var s := a + "|" + x;
    assert s[|a|] == '|' && s[|b|] == (b + "|" + y)[|b|] == '|';
    assert forall i :: 0 <= i < |a| ==> s[i] == a[i];
    assert forall i :: 0 <= i < |b| ==> s[i] == (b + "|" + y)[i] == b[i];
    if |a| == |b| {
      assert a == s[..|a|] == b;
      assert x == s[|a| + 1..] == y by {
        assert s[|a| + 1..] == x;
        assert (b + "|" + y)[|b| + 1..] == y;
      }
    }
  }

  lemma {:induction false} JoinedFieldsSame(a: seq<string>, b: seq<string>)
    requires |a| == |b| > 0 && JoinBars(a) == JoinBars(b)
    requires forall i :: 0 <= i < |a| ==> BarFree(a[i]) && BarFree(b[i])
    ensures a == b
  {
    if |a| > 1 {
      FirstFieldSame(a[0], b[0], JoinBars(a[1..]), JoinBars(b[1..]));
      JoinedFieldsSame(a[1..], b[1..]);
      assert a == [a[0]] + a[1..] && b == [b[0]] + b[1..];
    }
  }

  /** A text joined from bar-free fields can be joined in no other way, not even from
      fields that contain bars themselves. */
  lemma JoinDecodes(a: seq<string>, b: seq<string>)
    requires |a| == |b| > 0 && JoinBars(a) == JoinBars(b)
    requires forall i :: 0 <= i < |a| ==> BarFree(a[i])
    ensures a == b
  {
    BarsJoined(a);
    BarsJoined(b);
    NoBarsInEach(a);
    NoBarsInEach(b);
    JoinedFieldsSame(a, b);
  }

  lemma {:induction false} DecimalBarFree(n: nat)
    ensures BarFree(Decimal(n))
  {
    assert forall i :: 0 <= i < |DIGITS| ==> DIGITS[i] != '|';
    if n >= 10 { DecimalBarFree(n / 10); }
  }

  /** A message determines the fields it was signed for: whatever token carries it names
      the same task, team, tier, digest and expiry. */
  lemma MessageDecodes(signed: HandoffToken, shown: HandoffToken)
    requires Message(signed) == Message(shown)
    requires BarFree(signed.taskId) && BarFree(signed.team) && BarFree(signed.tierMax) && BarFree(signed.scopeDigest)
    ensures signed == shown.(keyId := signed.keyId, mac := signed.mac)
  {
    var a, b := MessageFields(signed), MessageFields(shown);
    if signed.expiry < 0 {
      DecimalBarFree(-signed.expiry);
    } else {
      DecimalBarFree(signed.expiry);
    }
    JoinDecodes(a, b);
    assert a[0] == b[0] && a[1] == b[1] && a[2] == b[2] && a[3] == b[3] && a[4] == b[4];
    DumpsInjective(Num(signed.expiry), Num(shown.expiry));
  }

  // ---------- the key ring ----------

  datatype Key = Key(keyId: string, material: string, createdAt: int)

  /** What os.urandom and secrets.token_hex supply to one rotation. */
  datatype Fresh = Fresh(keyId: string, material: string)

  datatype Ring = Ring(rotation: int, keys: seq<Key>)

  function Rotate(ring: Ring, draw: Fresh, now: int): Ring {
    var keys := [Key(draw.keyId, draw.material, now)] + ring.keys;
    ring.(keys := if |keys| > 2 then keys[..2] else keys)
  }

  /** `current`: the clock is read once for the age check and again by a rotation. */
  function Renew(ring: Ring, now: int, created: int, draw: Fresh): (r: Ring)
    requires ring.keys != []
    ensures r.keys != []
  {
    if now - ring.keys[0].createdAt >= ring.rotation then Rotate(ring, draw, created) else ring
  }

  function RotateNow(ring: Ring, draw: Fresh, now: int, revoke: bool): Ring {
    var rotated := Rotate(ring, draw, now);
    if revoke then rotated.(keys := rotated.keys[..1]) else rotated
  }

  function Lookup(keys: seq<Key>, keyId: string): Option<Key> {
    if keys == [] then None
    else if keys[0].keyId == keyId then Some(keys[0])
    else Lookup(keys[1..], keyId)
  }

  /** What one call to `sign` asks for, and the three clock readings it makes. */
  datatype Request = Request(taskId: string, team: string, tierMax: string, digest: string, ttl: int)
  datatype Clock = Clock(now: int, created: int, signed: int)

  function Issue(hmac: Hmac, key: Key, q: Request, signed: int): HandoffToken {
    var unsigned := HandoffToken(q.taskId, q.team, q.tierMax, q.digest, signed + q.ttl, key.keyId, "");
    unsigned.(mac := hmac(key.material, Message(unsigned)))
  }

  function Sign(hmac: Hmac, ring: Ring, q: Request, clock: Clock, draw: Fresh): (r: (Ring, Result<HandoffToken>))
    requires ring.keys != []
    ensures r.0.keys != []
  {
    if q.tierMax !in TIERS || q.ttl <= 0 then (ring, Err(TokenError))
    else
      var next := Renew(ring, clock.now, clock.created, draw);
      (next, Ok(Issue(hmac, next.keys[0], q, clock.signed)))
  }

  /** Position in DISPATCHABLE_TIERS: lower is more authoritative. */
  function Rank(tier: string): int {
    if tier == "T2" then 0 else if tier == "T3" then 1 else -1
  }

  /** `verify` with the checks in their order. Team and tier are optional there; every
      caller in the dispatcher supplies both. */
  function Verify(hmac: Hmac, ring: Ring, t: HandoffToken, digest: string, team: string,
                  requiredTier: string, now: int): Result<()> {
    match Lookup(ring.keys, t.keyId)
    case None => Err(TokenError)
    case Some(key) =>
      if hmac(key.material, Message(t)) != t.mac then Err(TokenError)
      else if now >= t.expiry then Err(TokenError)
      else if digest != t.scopeDigest then Err(TokenError)
      else if team != t.team then Err(TokenError)
      else if requiredTier !in TIERS then Err(TokenError)
      else if t.tierMax !in TIERS then Err(Crash)
      else if Rank(requiredTier) < Rank(t.tierMax) then Err(TokenError)
      else Ok(())
  }

  class KeyRing {
    const hmac: Hmac
    const rotation: int
    var keys: seq<Key>

    ghost predicate Valid()
      reads this
    {
      1 <= |keys| <= 2
    }

    ghost function View(): Ring
      reads this
    {
      Ring(rotation, keys)
    }

    /** A ring starts with one key; a rotation interval that is not positive is refused
        before the object exists, so it is a precondition here. */
    constructor (hmac: Hmac, rotation: int, draw: Fresh, now: int)
      requires rotation > 0
      ensures Valid() && this.hmac == hmac
      ensures View() == Ring(rotation, [Key(draw.keyId, draw.material, now)])
    {
      this.hmac, this.rotation := hmac, rotation;
      keys := [Key(draw.keyId, draw.material, now)];
    }

    method RotateKeys(draw: Fresh, now: int) returns (key: Key)
      requires Valid()
      modifies this
      ensures Valid() && View() == Rotate(old(View()), draw, now) && key == keys[0]
    {
      key := Key(draw.keyId, draw.material, now);
      keys := [key] + keys;
      if |keys| > 2 {
        keys := keys[..2];
      }
    }

    method Current(now: int, created: int, draw: Fresh) returns (key: Key)
      requires Valid()
      modifies this
      ensures Valid() && View() == Renew(old(View()), now, created, draw) && key == keys[0]
    {
      if now - keys[0].createdAt >= rotation {
        key := RotateKeys(draw, created);
      } else {
        key := keys[0];
      }
    }

    method ForceRotation(draw: Fresh, now: int, revoke: bool)
      requires Valid()
      modifies this
      ensures Valid() && View() == RotateNow(old(View()), draw, now, revoke)
    {
      var _ := RotateKeys(draw, now);
      if revoke {
        keys := keys[..1];
      }
    }

    method SignToken(q: Request, clock: Clock, draw: Fresh) returns (r: Result<HandoffToken>)
      requires Valid()
      modifies this
      ensures Valid() && (View(), r) == Sign(hmac, old(View()), q, clock, draw)
    {
      if q.tierMax !in TIERS || q.ttl <= 0 {
        return Err(TokenError);
      }
      var key := Current(clock.now, clock.created, draw);
      r := Ok(Issue(hmac, key, q, clock.signed));
    }

    method FindKey(keyId: string) returns (r: Option<Key>)
      ensures r == Lookup(keys, keyId)
    {
      var i := 0;
      while i < |keys|
        invariant 0 <= i <= |keys|
        invariant Lookup(keys, keyId) == Lookup(keys[i..], keyId)
      {
        if keys[i].keyId == keyId {
          return Some(keys[i]);
        }
        i := i + 1;
      }
      r := None;
    }

    method VerifyToken(t: HandoffToken, digest: string, team: string, requiredTier: string, now: int)
      returns (r: Result<()>)
      ensures r == Verify(hmac, View(), t, digest, team, requiredTier, now)
    {
      var found := FindKey(t.keyId);
      if found.None? || hmac(found.value.material, Message(t)) != t.mac || now >= t.expiry
         || digest != t.scopeDigest || team != t.team || requiredTier !in TIERS {
        return Err(TokenError);
      }
      if t.tierMax !in TIERS {
        return Err(Crash);
      }
      if Rank(requiredTier) < Rank(t.tierMax) {
        return Err(TokenError);
      }
      r := Ok(());
    }
  }

  /** Single use of tokens, by task id. */
  class ReplayLedger {
    var consumed: map<string, string>

    constructor ()
      ensures consumed == map[]
    {
      consumed := map[];
    }

    method Consume(t: HandoffToken) returns (r: Result<()>)
      modifies this
      ensures old(t.taskId in consumed) ==> r == Err(ReplayError) && consumed == old(consumed)
      ensures old(t.taskId !in consumed) ==> r == Ok(()) && consumed == old(consumed)[t.taskId := t.mac]
    {
      if t.taskId in consumed {
        return Err(ReplayError);
      }
      consumed := consumed[t.taskId := t.mac];
      r := Ok(());
    }
  }
}
