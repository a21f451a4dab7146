/** Task ids (tokens.py: new_task_id): 48 bits of milliseconds and 80 random bits, written
    as 26 base-32 digits in the ULID alphabet. */
module Ulid {
  import Lex

  const CROCKFORD := "0123456789ABCDEFGHJKMNPQRSTVWXYZ"

  function Pow2(n: nat): (p: nat)
    ensures p > 0
  {
    if n == 0 then 1 else 2 * Pow2(n - 1)
  }

  /** The last n base-32 digits of v. */
  function Encode(v: int, n: nat): (s: string)
    ensures |s| == n
    decreases n, v
  {
    if n == 0 then "" else Encode(v / 32, n - 1) + [CROCKFORD[v % 32]]
  }

  function DigitOf(c: char): (d: int)
  {
    if '0' <= c <= '9' then c as int - '0' as int
    else if 'A' <= c <= 'H' then c as int - 'A' as int + 10
    else if 'J' <= c <= 'K' then c as int - 'J' as int + 18
    else if 'M' <= c <= 'N' then c as int - 'M' as int + 20
    else if 'P' <= c <= 'T' then c as int - 'P' as int + 22
    else if 'V' <= c <= 'Z' then c as int - 'V' as int + 27
    else -1
  }

  function Decode(s: string): int {
    if s == "" then 0 else 32 * Decode(s[..|s| - 1]) + DigitOf(s[|s| - 1])
  }

  lemma AlphabetAt(i: nat)
    requires i < 32
    ensures DigitOf(CROCKFORD[i]) == i
  {}

  lemma AlphabetOrdered(i: nat, j: nat)
    requires i < 32 && j < 32
    ensures CROCKFORD[i] < CROCKFORD[j] <==> i < j
    ensures CROCKFORD[i] == CROCKFORD[j] <==> i == j
  {
    AlphabetAt(i);
    AlphabetAt(j);
  }

  lemma Pow2Step5(n: nat)
    ensures Pow2(n + 5) == 32 * Pow2(n)
  {
    assert Pow2(n + 5) == 2 * Pow2(n + 4);
    assert Pow2(n + 4) == 2 * Pow2(n + 3);
    assert Pow2(n + 3) == 2 * Pow2(n + 2);
    assert Pow2(n + 2) == 2 * Pow2(n + 1);
  }

  /** Every digit is in the alphabet, and the digits name a number below 32^n. */
  lemma {:induction false} EncodeInRange(v: int, n: nat)
    ensures 0 <= Decode(Encode(v, n)) < Pow2(5 * n)
    ensures forall i :: 0 <= i < n ==> DigitOf(Encode(v, n)[i]) >= 0
    decreases n
  {
    if n > 0 {
      EncodeInRange(v / 32, n - 1);
      Pow2Step5(5 * (n - 1));
      AlphabetAt(v % 32);
      var s := Encode(v, n);
      assert s[..n - 1] == Encode(v / 32, n - 1);
    }
  }

  lemma {:induction false} DecodeEncode(v: int, n: nat)
    requires 0 <= v < Pow2(5 * n)
    ensures Decode(Encode(v, n)) == v
    decreases n
  {
    if n > 0 {
      Pow2Step5(5 * (n - 1));
      DecodeEncode(v / 32, n - 1);
      AlphabetAt(v % 32);
      assert Encode(v, n)[..n - 1] == Encode(v / 32, n - 1);
    }
  }

  /** The digits decode back to the number exactly when it fits in them. */
  lemma DecodesExactly(v: int, n: nat)
    ensures Decode(Encode(v, n)) == v <==> 0 <= v < Pow2(5 * n)
  {
    EncodeInRange(v, n);
    if 0 <= v < Pow2(5 * n) {
      DecodeEncode(v, n);
    }
  }

  lemma {:induction false} LessAppend(x: string, y: string, c: char, d: char)
    requires |x| == |y|
    ensures Lex.Less(x + [c], y + [d]) <==> Lex.Less(x, y) || (x == y && c < d)
  {
    if x != "" {
      LessAppend(x[1..], y[1..], c, d);
      assert (x + [c])[1..] == x[1..] + [c] && (y + [d])[1..] == y[1..] + [d];
      assert x == [x[0]] + x[1..] && y == [y[0]] + y[1..];
      if x == y { Lex.LessIrreflexive(x); }
    }
  }

  /** Two numbers that fit have different digits. */
  lemma EncodeInjective(a: int, b: int, n: nat)
    requires 0 <= a < Pow2(5 * n) && 0 <= b < Pow2(5 * n)
    ensures Encode(a, n) == Encode(b, n) <==> a == b
  {
    DecodeEncode(a, n);
    DecodeEncode(b, n);
  }

  /** String order of ids is numeric order. */
  lemma {:induction false} EncodeOrdered(a: int, b: int, n: nat)
    requires 0 <= a < Pow2(5 * n) && 0 <= b < Pow2(5 * n)
    ensures Lex.Less(Encode(a, n), Encode(b, n)) <==> a < b
    decreases n
  {
    if n > 0 {
      Pow2Step5(5 * (n - 1));
      var x, y := Encode(a / 32, n - 1), Encode(b / 32, n - 1);
      EncodeOrdered(a / 32, b / 32, n - 1);
      EncodeInjective(a / 32, b / 32, n - 1);
      LessAppend(x, y, CROCKFORD[a % 32], CROCKFORD[b % 32]);
      AlphabetOrdered(a % 32, b % 32);
      SplitOrder(a, b);
    }
  }

  lemma SplitOrder(a: nat, b: nat)
    ensures a < b <==> a / 32 < b / 32 || (a / 32 == b / 32 && a % 32 < b % 32)
  {}

  lemma TimesAtLeast(d: int, k: int)
    requires d > 0 && k >= 1
    ensures d * k >= d
  {}

  lemma DivUnique(v: int, d: int, q: int, r: int)
    requires d > 0 && v == d * q + r && 0 <= r < d
    ensures v / d == q
  {
    var q', r' := v / d, v % d;
    assert v == d * q' + r' && 0 <= r' < d;
    if q > q' {
      TimesAtLeast(d, q - q');
    } else if q < q' {
      TimesAtLeast(d, q' - q);
    }
  }

  lemma DivTwice(v: int, m: int)
    requires m > 0
    ensures (v / m) / 32 == v / (32 * m)
  {
    var q, r := v / m, v % m;
    var q2, r2 := q / 32, q % 32;
    Distribute(m, q2, r2);
    TimesAtMost(m, r2);
    DivUnique(v, 32 * m, q2, m * r2 + r);
  }

  lemma Distribute(m: int, q2: int, r2: int)
    ensures m * (32 * q2 + r2) == (32 * m) * q2 + m * r2
  {}

  lemma TimesAtMost(m: int, r2: int)
    requires m > 0 && 0 <= r2 <= 31
    ensures 0 <= m * r2 <= 31 * m
  {}

  /** The digit at a shift, after the digits above it. */
  lemma DigitAt(value: int, shift: nat, n: nat)
    ensures Encode(value / Pow2(shift), n + 1)
         == Encode(value / Pow2(shift + 5), n) + [CROCKFORD[(value / Pow2(shift)) % 32]]
  {
    Pow2Step5(shift);
    DivTwice(value, Pow2(shift));
  }

  /** The shift loop, from the top digit of `n` down to the last one. */
  method Digits(value: int, n: nat) returns (id: string)
    ensures id == Encode(value, n)
  {
    id := "";
    var shift := 5 * n;
    ghost var done := 0;
    while shift > 0
      invariant 0 <= shift <= 5 * n && 5 * done == 5 * n - shift && done >= 0
      invariant id == Encode(value / Pow2(shift), done)
    {
      shift := shift - 5;
      DigitAt(value, shift, done);
      id := id + [CROCKFORD[(value / Pow2(shift)) % 32]];
      done := done + 1;
    }
    assert value / Pow2(0) == value;
  }

  /** `random` stands for secrets.randbits(80). */
  method NewTaskId(millis: int, random: nat) returns (id: string)
    ensures id == Encode(millis * Pow2(RANDOM_BITS) + random, ID_DIGITS)
  {
    id := Digits(millis * Pow2(RANDOM_BITS) + random, ID_DIGITS);
  }

  // ---------- ids sort by time ----------

  lemma {:induction false} Pow2Product(a: nat, b: nat)
    ensures Pow2(a + b) == Pow2(a) * Pow2(b)
  {
    if a > 0 { Pow2Product(a - 1, b); }
  }

  lemma Packed(m: nat, r: nat, top: nat, low: nat)
    requires m < top && r < low
    ensures 0 <= m * low + r < top * low
  {
    assert (m + 1) * low <= top * low;
  }

  lemma PackedOrder(m1: nat, r1: nat, m2: nat, r2: nat, low: nat)
    requires r1 < low && r2 < low && m1 < m2
    ensures m1 * low + r1 < m2 * low + r2
  {
    assert (m1 + 1) * low <= m2 * low;
  }

  /** A time field of `t` bits above `l` random bits, written in n = (t + l) / 5 digits:
      an id made in an earlier millisecond sorts first whatever the random bits, and two
      ids are equal only for the same millisecond and the same bits. */
  lemma EarlierSortsFirst(m1: nat, r1: nat, m2: nat, r2: nat, t: nat, l: nat, n: nat)
    requires t + l == 5 * n
    requires m1 < Pow2(t) && m2 < Pow2(t) && r1 < Pow2(l) && r2 < Pow2(l)
    ensures var id1, id2 := Encode(m1 * Pow2(l) + r1, n), Encode(m2 * Pow2(l) + r2, n);
      && (m1 < m2 ==> Lex.Less(id1, id2))
      && (id1 == id2 <==> m1 == m2 && r1 == r2)
  {
    var v1, v2 := m1 * Pow2(l) + r1, m2 * Pow2(l) + r2;
    Pow2Product(t, l);
    Packed(m1, r1, Pow2(t), Pow2(l));
    Packed(m2, r2, Pow2(t), Pow2(l));
    EncodeOrdered(v1, v2, n);
    EncodeInjective(v1, v2, n);
    if m1 < m2 {
      PackedOrder(m1, r1, m2, r2, Pow2(l));
    } else if m2 < m1 {
      PackedOrder(m2, r2, m1, r1, Pow2(l));
    }
  }

  /** The layout of a task id: 26 digits hold the 80 random bits and 50 bits of time, which
      covers the 48-bit millisecond field. */
  const TIME_BITS: nat := 50
  const RANDOM_BITS: nat := 80
  const ID_DIGITS: nat := 26

  lemma TaskIdsSortByTime(m1: nat, r1: nat, m2: nat, r2: nat)
    requires m1 < Pow2(TIME_BITS) && m2 < Pow2(TIME_BITS) && r1 < Pow2(RANDOM_BITS) && r2 < Pow2(RANDOM_BITS)
    ensures var id1, id2 := Encode(m1 * Pow2(RANDOM_BITS) + r1, ID_DIGITS), Encode(m2 * Pow2(RANDOM_BITS) + r2, ID_DIGITS);
      && (m1 < m2 ==> Lex.Less(id1, id2))
      && (id1 == id2 <==> m1 == m2 && r1 == r2)
  {
    EarlierSortsFirst(m1, r1, m2, r2, TIME_BITS, RANDOM_BITS, ID_DIGITS);
  }
}
