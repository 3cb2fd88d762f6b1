/**
Record names: a number in twenty digits.  The spools sort names as strings; sorting
them as numbers is the same.
*/
module SpoolNames {

  ghost predicate Increasing(s: seq<nat>) {
    forall a, b :: 0 <= a < b < |s| ==> s[a] < s[b]
  }

  function Insert(s: seq<nat>, x: nat): (r: seq<nat>)
    ensures forall y :: y in r <==> y == x || y in s
  {
    if s == [] || x < s[0] then [x] + s else
      assert s == [s[0]] + s[1..];
      [s[0]] + Insert(s[1..], x)
  }

  lemma {:induction false} InsertIncreasing(s: seq<nat>, x: nat)
    requires Increasing(s) && x !in s
    ensures Increasing(Insert(s, x))
  {
    if s != [] && x >= s[0] {
      InsertIncreasing(s[1..], x);
      var rest := Insert(s[1..], x);
      forall y | y in rest
        ensures s[0] < y
      {
        if y != x {
          var k :| 0 <= k < |s[1..]| && s[1..][k] == y;
          assert s[k + 1] == y;
        }
      }
      ConsIncreasing(s[0], rest);
    }
  }

  lemma ConsIncreasing(x: nat, s: seq<nat>)
    requires Increasing(s) && forall y :: y in s ==> x < y
    ensures Increasing([x] + s)
  {
    var r := [x] + s;
    forall a, b | 0 <= a < b < |r|
      ensures r[a] < r[b]
    {
      assert r[b] == s[b - 1] && s[b - 1] in s;
      if a > 0 { assert r[a] == s[a - 1]; }
    }
  }

  lemma InsertSorted(s: seq<nat>, x: nat)
    ensures Increasing(s) && x !in s ==> Increasing(Insert(s, x))
  {
    if Increasing(s) && x !in s { InsertIncreasing(s, x); }
  }

  function Sort(s: seq<nat>): (r: seq<nat>)
    ensures forall y :: y in r <==> y in s
    ensures (forall a, b :: 0 <= a < b < |s| ==> s[a] != s[b]) ==> Increasing(r)
  {
    if s == [] then [] else
      assert s == [s[0]] + s[1..];
      InsertSorted(Sort(s[1..]), s[0]);
      Insert(Sort(s[1..]), s[0])
  }

  lemma {:induction false} InsertLength(s: seq<nat>, x: nat)
    ensures |Insert(s, x)| == |s| + 1
  {
    if s != [] && x >= s[0] { InsertLength(s[1..], x); }
  }

  lemma {:induction false} SortLength(s: seq<nat>)
    ensures |Sort(s)| == |s|
  {
    if s != [] {
      SortLength(s[1..]);
      InsertLength(Sort(s[1..]), s[0]);
    }
  }

  /** Two sorted name lists with the same members are the same list. */
  lemma {:induction false} IncreasingUnique(s: seq<nat>, t: seq<nat>)
    requires Increasing(s) && Increasing(t) && forall x :: x in s <==> x in t
    ensures s == t
  {
    assert s != [] ==> s[0] in t;
    assert t != [] ==> t[0] in s;
    if s != [] {
      assert s[0] in t && t[0] in s;
      assert s[0] == t[0];
      forall x
        ensures x in s[1..] <==> x in t[1..]
      {
        assert s == [s[0]] + s[1..] && t == [t[0]] + t[1..];
        assert x in s[1..] <==> x in s && x != s[0];
        assert x in t[1..] <==> x in t && x != t[0];
      }
      IncreasingUnique(s[1..], t[1..]);
      assert s == [s[0]] + s[1..] && t == [t[0]] + t[1..];
    }
  }

  // ---------- twenty digits ----------

  function Power(w: nat): nat { if w == 0 then 1 else 10 * Power(w - 1) }

  function Digit(d: nat): (c: char)
    requires d < 10
  {
    "0123456789"[d]
  }

  /** Decimal digits of a number, padded with zeros on the left. */
  function Padded(n: nat, w: nat): (s: string)
    requires n < Power(w)
    ensures |s| == w
  {
    if w == 0 then "" else Padded(n / 10, w - 1) + [Digit(n % 10)]
  }

  /** The order of strings of equal length. */
  ghost predicate Before(a: string, b: string)
    requires |a| == |b|
  {
    exists k :: 0 <= k < |a| && a[..k] == b[..k] && a[k] < b[k]
  }

  lemma BeforeExtended(a: string, c: char, b: string, d: char)
    requires |a| == |b|
    ensures Before(a + [c], b + [d]) <==> Before(a, b) || (a == b && c < d)
    ensures a + [c] == b + [d] <==> a == b && c == d
  {
    var s, t := a + [c], b + [d];
    assert s[..|a|] == a && t[..|b|] == b;
    assert s[|a|] == c && t[|b|] == d;
    assert forall k :: 0 <= k < |a| ==> s[..k] == a[..k] && t[..k] == b[..k];
  }

  lemma DigitsInOrder(m: nat, n: nat)
    ensures m < n <==> m / 10 < n / 10 || (m / 10 == n / 10 && m % 10 < n % 10)
    ensures Digit(m % 10) < Digit(n % 10) <==> m % 10 < n % 10
    ensures Digit(m % 10) == Digit(n % 10) <==> m % 10 == n % 10
  {
    var s := "0123456789";
    assert forall k :: 0 <= k < 10 ==> s[k] == '0' + k as char;
  }

  /** Padded names are in the order of their numbers, and differ when their numbers do. */
  lemma {:induction false} NamesInOrder(m: nat, n: nat, w: nat)
    requires m < Power(w) && n < Power(w)
    ensures Before(Padded(m, w), Padded(n, w)) <==> m < n
    ensures Padded(m, w) == Padded(n, w) <==> m == n
  {
    if w > 0 {
      NamesInOrder(m / 10, n / 10, w - 1);
      DigitsInOrder(m, n);
      BeforeExtended(Padded(m / 10, w - 1), Digit(m % 10), Padded(n / 10, w - 1), Digit(n % 10));
    }
  }

  /** Twenty digits hold every 64-bit number. */
  lemma TwentyDigits(n: nat)
    requires n < 0x1_0000_0000_0000_0000
    ensures n < Power(20)
  {
    assert Power(5) == 100_000;
    assert Power(10) == 10_000_000_000;
    assert Power(15) == 1_000_000_000_000_000;
    assert Power(20) == 100_000_000_000_000_000_000;
  }
}
