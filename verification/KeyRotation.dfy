/** Rotation against token lifetime: a token stays verifiable for exactly its lifetime. */
module KeyRotation {
  import opened Basics
  import opened Tokens

  /** The calls that can rotate the ring without being asked to. */
  datatype RingOp =
    | UseKey(now: int, created: int, draw: Fresh)
    | SignMore(q: Request, clock: Clock, draw: Fresh)

  function Apply(hmac: Hmac, ring: Ring, op: RingOp): (r: Ring)
    requires ring.keys != []
    ensures r.keys != []
  {
    match op
    case UseKey(now, created, draw) => Renew(ring, now, created, draw)
    case SignMore(q, clock, draw) => Sign(hmac, ring, q, clock, draw).0
  }

  function ApplyAll(hmac: Hmac, ring: Ring, ops: seq<RingOp>): (r: Ring)
    requires ring.keys != []
    ensures r.keys != []
    decreases |ops|
  {
    if ops == [] then ring else ApplyAll(hmac, Apply(hmac, ring, ops[0]), ops[1..])
  }

  /** Clock readings of one call, in the order they are made. */
  function Readings(op: RingOp): seq<int> {
    match op
    case UseKey(now, created, _) => [now, created]
    case SignMore(_, clock, _) => [clock.now, clock.created, clock.signed]
  }

  function LastReading(op: RingOp): int {
    match op
    case UseKey(_, created, _) => created
    case SignMore(_, clock, _) => clock.signed
  }

  /** The clock never goes backwards, within a call or between calls, from `start` on. */
  predicate Monotone(ops: seq<RingOp>, start: int) {
    if ops == [] then true
    else
      var r := Readings(ops[0]);
      && start <= r[0] <= r[1] <= LastReading(ops[0])
      && Monotone(ops[1..], LastReading(ops[0]))
  }

  function End(ops: seq<RingOp>, start: int): int {
    if ops == [] then start else End(ops[1..], LastReading(ops[0]))
  }

  /** A rotation draws a key id that differs from the ids then in the ring. */
  predicate FreshIds(hmac: Hmac, ring: Ring, ops: seq<RingOp>)
    requires ring.keys != []
    decreases |ops|
  {
    if ops == [] then true
    else
      && (forall i :: 0 <= i < |ring.keys| ==> ring.keys[i].keyId != ops[0].draw.keyId)
      && FreshIds(hmac, Apply(hmac, ring, ops[0]), ops[1..])
  }

  /** The earliest moment at which two rotations can have pushed the key out: the key
      reaches its age or the signing ends, whichever is later, and then a whole interval. */
  function Deadline(key: Key, rotation: int, signed: int): int {
    (if key.createdAt + rotation >= signed then key.createdAt + rotation else signed) + rotation
  }

  /** Where the signing key is when the clock has reached `now`. */
  predicate Tracks(ring: Ring, key: Key, expiry: int, now: int) {
    && 1 <= |ring.keys| <= 2
    && (|| ring.keys[0] == key
        || (|ring.keys| == 2 && ring.keys[1] == key && ring.keys[0].keyId != key.keyId
            && expiry <= ring.keys[0].createdAt + ring.rotation)
        || now >= expiry)
  }

  lemma RenewTracks(ring: Ring, key: Key, signed: int, expiry: int, start: int, now: int, created: int, draw: Fresh)
    requires ring.rotation > 0 && expiry <= Deadline(key, ring.rotation, signed)
    requires signed <= start <= now <= created
    requires Tracks(ring, key, expiry, start)
    requires forall i :: 0 <= i < |ring.keys| ==> ring.keys[i].keyId != draw.keyId
    ensures Tracks(Renew(ring, now, created, draw), key, expiry, created)
  {
    var r := Renew(ring, now, created, draw);
    if r != ring {
      assert r.keys[0] == Key(draw.keyId, draw.material, created);
      assert r.keys[1] == ring.keys[0];
    }
  }

  lemma {:induction false} OpsTrack(hmac: Hmac, ring: Ring, ops: seq<RingOp>, key: Key, signed: int, expiry: int, start: int)
    requires ring.rotation > 0 && expiry <= Deadline(key, ring.rotation, signed) && signed <= start
    requires Tracks(ring, key, expiry, start)
    requires Monotone(ops, start) && FreshIds(hmac, ring, ops)
    ensures Tracks(ApplyAll(hmac, ring, ops), key, expiry, End(ops, start))
    ensures start <= End(ops, start)
    decreases |ops|
  {
    if ops != [] {
      var op := ops[0];
      match op {
        case UseKey(t1, t2, draw) => RenewTracks(ring, key, signed, expiry, start, t1, t2, draw);
        case SignMore(_, clock, draw) => RenewTracks(ring, key, signed, expiry, start, clock.now, clock.created, draw);
      }
      OpsTrack(hmac, Apply(hmac, ring, op), ops[1..], key, signed, expiry, LastReading(op));
    }
  }

  /** One or two keys, the newest first, none from the future. */
  predicate InOrder(ring: Ring, now: int) {
    && 1 <= |ring.keys| <= 2 && ring.keys[0].createdAt <= now
    && (|ring.keys| == 2 ==> ring.keys[1].createdAt <= ring.keys[0].createdAt)
  }

  /** Whatever calls are made under a clock that never goes backwards, the ring holds one or
      two keys, newest first. */
  lemma {:induction false} RingStaysInOrder(hmac: Hmac, ring: Ring, ops: seq<RingOp>, start: int)
    requires InOrder(ring, start) && Monotone(ops, start)
    ensures InOrder(ApplyAll(hmac, ring, ops), End(ops, start))
    decreases |ops|
  {
    if ops != [] { RingStaysInOrder(hmac, Apply(hmac, ring, ops[0]), ops[1..], LastReading(ops[0])); }
  }

  /** With a clock that never goes backwards and no forced rotation, a token that expires
      by its deadline and is shown unchanged verifies at every moment before its expiry and
      at no moment from its expiry on, whatever calls to `current` and `sign` intervene. */
  lemma TokenLivesExactlyItsLifetime(hmac: Hmac, ring: Ring, q: Request, clock: Clock, draw: Fresh,
                                     ops: seq<RingOp>, tier: string, now: int)
    requires ring.rotation > 0 && 1 <= |ring.keys| <= 2
    requires clock.now <= clock.created <= clock.signed
    requires Sign(hmac, ring, q, clock, draw).1.Ok?
    requires var signed := Sign(hmac, ring, q, clock, draw);
      signed.1.value.expiry <= Deadline(signed.0.keys[0], ring.rotation, clock.signed)
    requires Monotone(ops, clock.signed) && FreshIds(hmac, Sign(hmac, ring, q, clock, draw).0, ops)
    requires tier in TIERS && Rank(q.tierMax) <= Rank(tier)
    requires End(ops, clock.signed) <= now
    ensures var signed := Sign(hmac, ring, q, clock, draw);
      var later := ApplyAll(hmac, signed.0, ops);
      && 1 <= |later.keys| <= 2
      && (Verify(hmac, later, signed.1.value, q.digest, q.team, tier, now).Ok? <==> now < signed.1.value.expiry)
  {
    var signed := Sign(hmac, ring, q, clock, draw);
    var token, key := signed.1.value, signed.0.keys[0];
    OpsTrack(hmac, signed.0, ops, key, clock.signed, token.expiry, clock.signed);
    var later := ApplyAll(hmac, signed.0, ops);
    if now < token.expiry {
      assert Lookup(later.keys, key.keyId) == Some(key) by {
        if later.keys[0] != key {
          assert Lookup(later.keys, key.keyId) == Lookup(later.keys[1..], key.keyId);
        }
      }
      MacIgnoresMac(token);
    }
  }

  /** A lifetime of at most one rotation interval always meets the deadline. */
  lemma OneIntervalIsSafe(key: Key, rotation: int, signed: int, ttl: int)
    requires rotation > 0 && ttl <= rotation
    ensures signed + ttl <= Deadline(key, rotation, signed)
  {}

  /** Beyond the deadline the promise fails: two uses of the ring, each at the first
      moment it rotates, retire the signing key while the token is still unexpired. */
  lemma PastDeadlineStrands(hmac: Hmac, ring: Ring, q: Request, clock: Clock, draw: Fresh, d1: Fresh, d2: Fresh)
    returns (ops: seq<RingOp>, now: int)
    requires ring.rotation > 0 && 1 <= |ring.keys| <= 2
    requires clock.now <= clock.created <= clock.signed
    requires Sign(hmac, ring, q, clock, draw).1.Ok?
    requires var signed := Sign(hmac, ring, q, clock, draw);
      && signed.1.value.expiry > Deadline(signed.0.keys[0], ring.rotation, clock.signed)
      && d1.keyId != d2.keyId
      && forall i :: 0 <= i < |signed.0.keys| ==> signed.0.keys[i].keyId != d1.keyId && signed.0.keys[i].keyId != d2.keyId
    ensures var signed := Sign(hmac, ring, q, clock, draw);
      && Monotone(ops, clock.signed) && FreshIds(hmac, signed.0, ops)
      && End(ops, clock.signed) <= now < signed.1.value.expiry
      && Verify(hmac, ApplyAll(hmac, signed.0, ops), signed.1.value, q.digest, q.team, q.tierMax, now) == Err(TokenError)
  {
    var signed := Sign(hmac, ring, q, clock, draw).0;
    var key := signed.keys[0];
    now := Deadline(key, ring.rotation, clock.signed);
    var first := now - ring.rotation;
    var op1, op2 := UseKey(first, first, d1), UseKey(now, now, d2);
    ops := [op1, op2];
    var mid := Apply(hmac, signed, op1);
    assert mid.keys == [Key(d1.keyId, d1.material, first), key];
    var last := Apply(hmac, mid, op2);
    assert last.keys == [Key(d2.keyId, d2.material, now), Key(d1.keyId, d1.material, first)];
    assert ops[1..] == [op2] && ops[1..][1..] == [];
    assert End(ops, clock.signed) == End([op2], first) == End([], now) == now;
    assert Monotone([op2], first) && FreshIds(hmac, mid, [op2]);
    assert ApplyAll(hmac, signed, ops) == ApplyAll(hmac, mid, [op2]) == ApplyAll(hmac, last, []) == last;
    assert Lookup(last.keys, key.keyId) == Lookup(last.keys[1..], key.keyId) == Lookup(last.keys[1..][1..], key.keyId);
  }

  lemma MacIgnoresMac(t: HandoffToken)
    ensures Message(t) == Message(t.(mac := ""))
  {
    assert MessageFields(t) == MessageFields(t.(mac := ""));
  }

  /** A revoking rotation with a new key id refuses every earlier token at once. */
  lemma RevocationIsImmediate(hmac: Hmac, ring: Ring, draw: Fresh, created: int, t: HandoffToken,
                              digest: string, team: string, tier: string, now: int)
    requires t.keyId != draw.keyId
    ensures Verify(hmac, RotateNow(ring, draw, created, true), t, digest, team, tier, now) == Err(TokenError)
  {
    var keys := RotateNow(ring, draw, created, true).keys;
    assert keys == [Key(draw.keyId, draw.material, created)];
    assert Lookup(keys, t.keyId) == Lookup(keys[1..], t.keyId) && keys[1..] == [];
  }
}
