/** Code-point order on strings, and the sorted enumeration of a finite set of strings
    (Python's `sorted`, and the key order of `json.dumps(sort_keys=True)`). */
module Lex {

  predicate Less(a: string, b: string) {
    if |b| == 0 then false
    else if |a| == 0 then true
    else if a[0] != b[0] then a[0] < b[0]
    else Less(a[1..], b[1..])
  }

  lemma {:induction false} LessIrreflexive(a: string)
    ensures !Less(a, a)
  {
    if |a| > 0 { LessIrreflexive(a[1..]); }
  }

  lemma {:induction false} LessTransitive(a: string, b: string, c: string)
    requires Less(a, b) && Less(b, c)
    ensures Less(a, c)
  {
    if |a| > 0 && a[0] == b[0] == c[0] {
      LessTransitive(a[1..], b[1..], c[1..]);
    }
  }

  lemma {:induction false} LessTotal(a: string, b: string)
    ensures Less(a, b) || a == b || Less(b, a)
  {
    if |a| > 0 && |b| > 0 && a[0] == b[0] {
      LessTotal(a[1..], b[1..]);
      assert a == [a[0]] + a[1..] && b == [b[0]] + b[1..];
    }
  }

  predicate IsMin(m: string, s: set<string>) {
    m in s && forall x | x in s && x != m :: Less(m, x)
  }

  lemma {:induction false} MinExists(s: set<string>)
    requires s != {}
    ensures exists m :: IsMin(m, s)
  {
    var y :| y in s;
    var rest := s - {y};
    if rest == {} {
      assert s == {y};
      assert IsMin(y, s);
    } else {
      MinExists(rest);
      var z :| IsMin(z, rest);
      if Less(y, z) {
        forall x | x in s && x != y ensures Less(y, x) {
          if x != z { LessTransitive(y, z, x); }
        }
        assert IsMin(y, s);
      } else {
        LessTotal(y, z);
        assert IsMin(z, s);
      }
    }
  }

  lemma MinUnique(s: set<string>, m: string, n: string)
    requires IsMin(m, s) && IsMin(n, s)
    ensures m == n
  {
    if m != n {
      LessTransitive(m, n, m);
      LessIrreflexive(m);
    }
  }

  /** The least element of a non-empty set. */
  function Min(s: set<string>): (m: string)
    requires s != {}
    ensures IsMin(m, s)
  {
    MinExists(s);
    assert forall m, n | IsMin(m, s) && IsMin(n, s) :: m == n by {
      forall m, n | IsMin(m, s) && IsMin(n, s) ensures m == n { MinUnique(s, m, n); }
    }
    var m :| m in s && IsMin(m, s);
    m
  }

  /** Python's sorted(s) on a set of strings. */
  function Sorted(s: set<string>): (r: seq<string>)
    ensures forall x :: x in r <==> x in s
    ensures |r| == |s|
  {
    if s == {} then [] else var m := Min(s); [m] + Sorted(s - {m})
  }

  lemma {:induction false} SortedIsStrict(s: set<string>)
    ensures forall i, j :: 0 <= i < j < |Sorted(s)| ==> Less(Sorted(s)[i], Sorted(s)[j])
  {
    if s != {} {
      SortedIsStrict(s - {Min(s)});
      var r := Sorted(s);
      assert r[1..] == Sorted(s - {Min(s)});
      forall i, j | 0 <= i < j < |r| ensures Less(r[i], r[j]) {
        if i == 0 {
          assert r[j] == r[1..][j-1];
          assert r[j] in Sorted(s - {Min(s)});
        } else {
          assert r[i] == r[1..][i-1] && r[j] == r[1..][j-1];
        }
      }
    }
  }

  lemma SortedNoDuplicates(s: set<string>)
    ensures forall i, j :: 0 <= i < j < |Sorted(s)| ==> Sorted(s)[i] != Sorted(s)[j]
  {
    SortedIsStrict(s);
    forall i, j | 0 <= i < j < |Sorted(s)| ensures Sorted(s)[i] != Sorted(s)[j] {
      LessIrreflexive(Sorted(s)[i]);
    }
  }
}
