/**
 * Decimal rendering of naturals and lexicographic order on strings: the
 * pieces of Python's f-strings and of `sorted` that identifiers and
 * messages depend on.
 */
module Text {

  function DigitChar(d: nat): (c: char)
    requires d < 10
    ensures '0' <= c <= '9' && c as int == '0' as int + d
  {
    ('0' as int + d) as char
  }

  /** Decimal digits of `n`, most significant first, as `str(n)` prints them. */
  function Show(n: nat): (s: string)
    ensures |s| >= 1
    ensures forall i :: 0 <= i < |s| ==> '0' <= s[i] <= '9'
    ensures (|s| == 1) == (n < 10)
    decreases n
  {
    if n < 10 then [DigitChar(n)] else Show(n / 10) + [DigitChar(n % 10)]
  }

  /** Distinct numbers print as distinct strings, so numbered ids never collide. */
  lemma {:induction false} ShowInjective(a: nat, b: nat)
    requires Show(a) == Show(b)
    ensures a == b
    decreases a
  {
    if a < 10 || b < 10 {
      assert a < 10 && b < 10;
      assert DigitChar(a) == Show(a)[0] == Show(b)[0] == DigitChar(b);
    } else {
      var sa, sb := Show(a / 10), Show(b / 10);
      assert Show(a) == sa + [DigitChar(a % 10)] && Show(b) == sb + [DigitChar(b % 10)];
      assert sa == Show(a)[..|Show(a)| - 1] == Show(b)[..|Show(b)| - 1] == sb;
      ShowInjective(a / 10, b / 10);
      assert DigitChar(a % 10) == Show(a)[|Show(a)| - 1] == DigitChar(b % 10);
    }
  }

  /** Strict lexicographic order on strings, by code point, as Python compares them. */
  predicate Less(a: string, b: string)
    decreases |a|
  {
    if b == [] then false
    else if a == [] then true
    else a[0] < b[0] || (a[0] == b[0] && Less(a[1..], b[1..]))
  }

  lemma {:induction false} LessIrreflexive(a: string)
    ensures !Less(a, a)
    decreases |a|
  {
    if a != [] { LessIrreflexive(a[1..]); }
  }

  lemma {:induction false} LessTrichotomy(a: string, b: string)
    ensures a == b || Less(a, b) || Less(b, a)
    decreases |a|
  {
    if a != [] && b != [] && a[0] == b[0] {
      LessTrichotomy(a[1..], b[1..]);
      if a[1..] == b[1..] {
        assert a == [a[0]] + a[1..] && b == [b[0]] + b[1..];
      }
    }
  }

  lemma {:induction false} LessTransitive(a: string, b: string, c: string)
    requires Less(a, b) && Less(b, c)
    ensures Less(a, c)
    decreases |a|
  {
    if a != [] && a[0] == b[0] && b[0] == c[0] {
      LessTransitive(a[1..], b[1..], c[1..]);
    }
  }

  /** `m` is a least element of `s`. */
  predicate IsLeast(m: string, s: set<string>)
  {
    m in s && forall x :: x in s ==> !Less(x, m)
  }

  /** Every non-empty finite set of strings has a least element. */
  lemma {:induction false} LeastOf(s: set<string>) returns (m: string)
    requires s != {}
    ensures IsLeast(m, s)
    decreases s
  {
    var y :| y in s;
    LessIrreflexive(y);
    if s == {y} {
      m := y;
    } else {
      var rest := LeastOf(s - {y});
      if Less(y, rest) {
        m := y;
        forall x | x in s && x != y
          ensures !Less(x, y)
        {
          assert x in s - {y};
          if Less(x, y) {
            LessTransitive(x, y, rest);
          }
        }
      } else {
        m := rest;
      }
    }
  }

  lemma LeastExists(s: set<string>)
    requires s != {}
    ensures exists m :: IsLeast(m, s)
  {
    var m := LeastOf(s);
  }

  /** A least element is unique, and lies strictly below every other element. */
  lemma LeastFacts(s: set<string>)
    ensures forall a, b :: IsLeast(a, s) && IsLeast(b, s) ==> a == b
    ensures forall m, x :: IsLeast(m, s) && x in s && x != m ==> Less(m, x)
  {
    forall a, b | IsLeast(a, s) && IsLeast(b, s)
      ensures a == b
    {
      LessTrichotomy(a, b);
    }
    forall m, x | IsLeast(m, s) && x in s && x != m
      ensures Less(m, x)
    {
      LessTrichotomy(m, x);
    }
  }

  /** `sorted(s)`: the elements of `s` in strictly increasing string order. */
  function Sorted(s: set<string>): (r: seq<string>)
    ensures forall x :: x in r <==> x in s
    ensures forall i, j :: 0 <= i < j < |r| ==> Less(r[i], r[j])
    decreases s
  {
    if s == {} then []
    else
      LeastExists(s);
      LeastFacts(s);
      var m :| IsLeast(m, s);
      [m] + Sorted(s - {m})
  }

  /** `sep.join(xs)`. */
  function Join(xs: seq<string>, sep: string): (r: string)
    ensures xs == [] ==> r == []
    ensures |xs| == 1 ==> r == xs[0]
  {
    if xs == [] then [] else if |xs| == 1 then xs[0] else xs[0] + sep + Join(xs[1..], sep)
  }
}
