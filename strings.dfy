/**
 * String helpers the plugin documentation relies on: the order in which Go's
 * `sort.Strings` puts names, a sort on an array of names, the canonical sorted
 * listing of a set of names, and `%v` formatting of a positive number.
 */
module Strings {

  /**
   * Lexicographic order, as Go compares strings: the first differing element
   * decides, and a proper prefix comes first. On code points this is the same
   * order as Go's byte-wise order on their UTF-8 encodings.
   */
  predicate Below(a: string, b: string)
    decreases |a|
  {
    |a| == 0 || (|b| > 0 && (a[0] < b[0] || (a[0] == b[0] && Below(a[1..], b[1..]))))
  }

  lemma {:induction false} BelowReflexive(a: string)
    ensures Below(a, a)
    decreases |a|
  {
    if |a| > 0 {
      BelowReflexive(a[1..]);
    }
  }

  lemma {:induction false} BelowAntisymmetric(a: string, b: string)
    requires Below(a, b) && Below(b, a)
    ensures a == b
    decreases |a|
  {
    if |a| > 0 {
      BelowAntisymmetric(a[1..], b[1..]);
      assert a == [a[0]] + a[1..] && b == [b[0]] + b[1..];
    }
  }

  lemma {:induction false} BelowTransitive(a: string, b: string, c: string)
    requires Below(a, b) && Below(b, c)
    ensures Below(a, c)
    decreases |a|
  {
    if |a| > 0 && a[0] == b[0] && b[0] == c[0] {
      BelowTransitive(a[1..], b[1..], c[1..]);
    }
  }

  lemma {:induction false} BelowTotal(a: string, b: string)
    ensures Below(a, b) || Below(b, a)
    decreases |a|
  {
    if |a| > 0 && |b| > 0 && a[0] == b[0] {
      BelowTotal(a[1..], b[1..]);
    }
  }

  /** Every name is Below every later one (duplicates allowed). */
  ghost predicate Sorted(s: seq<string>)
  {
    forall i, j :: 0 <= i < j < |s| ==> Below(s[i], s[j])
  }

  /** Sorted and free of duplicates: each name appears once. */
  ghost predicate StrictlySorted(s: seq<string>)
  {
    forall i, j :: 0 <= i < j < |s| ==> Below(s[i], s[j]) && s[i] != s[j]
  }

  /** Removing one member of a set removes exactly one occurrence from its multiset. */
  lemma MultisetOfSetRemove(k: set<string>, m: string)
    requires m in k
    ensures multiset(k) == multiset{m} + multiset(k - {m})
  {
  }

  ghost predicate IsLeast(m: string, k: set<string>)
  {
    m in k && forall x :: x in k ==> Below(m, x)
  }

  lemma {:induction false} LeastExists(k: set<string>)
    requires k != {}
    ensures exists m :: IsLeast(m, k)
    decreases k
  {
    var x :| x in k;
    if k == {x} {
      BelowReflexive(x);
      assert IsLeast(x, k);
    } else {
      LeastExists(k - {x});
      var m :| IsLeast(m, k - {x});
      if Below(m, x) {
        assert IsLeast(m, k);
      } else {
        BelowTotal(m, x);
        forall y | y in k
          ensures Below(x, y)
        {
          if y == x {
            BelowReflexive(x);
          } else {
            BelowTransitive(x, m, y);
          }
        }
        assert IsLeast(x, k);
      }
    }
  }

  /** The names of a set in ascending order: the order Go's sort.Strings gives them. */
  ghost function SortedKeys(k: set<string>): seq<string>
    decreases k
  {
    if k == {} then []
    else
      LeastExists(k);
      var m :| IsLeast(m, k);
      [m] + SortedKeys(k - {m})
  }

  /** SortedKeys lists every name of the set exactly once, in ascending order. */
  lemma {:induction false} SortedKeysSpec(k: set<string>)
    ensures StrictlySorted(SortedKeys(k))
    ensures multiset(SortedKeys(k)) == multiset(k)
    ensures |SortedKeys(k)| == |k|
    ensures forall x :: x in SortedKeys(k) <==> x in k
    decreases k
  {
    if k != {} {
      var r := SortedKeys(k);
      var m := r[0];
      assert IsLeast(m, k) && r[1..] == SortedKeys(k - {m});
      SortedKeysSpec(k - {m});
      MultisetOfSetRemove(k, m);
      assert r == [m] + r[1..];
      forall i, j | 0 <= i < j < |r|
        ensures Below(r[i], r[j]) && r[i] != r[j]
      {
        if i == 0 {
          assert r[j] == r[1..][j - 1];
        } else {
          assert r[i] == r[1..][i - 1] && r[j] == r[1..][j - 1];
        }
      }
    }
  }

  lemma SortedTail(s: seq<string>)
    requires Sorted(s) && |s| > 0
    ensures Sorted(s[1..])
  {
  }

  lemma SortedHeadFirst(s: seq<string>, x: string)
    requires Sorted(s) && x in s
    ensures Below(s[0], x)
  {
    var i :| 0 <= i < |s| && s[i] == x;
    if i == 0 {
      BelowReflexive(x);
    }
  }

  /** Two sorted sequences holding the same names the same number of times are equal. */
  lemma {:induction false} SortedUnique(s: seq<string>, t: seq<string>)
    requires Sorted(s) && Sorted(t)
    requires multiset(s) == multiset(t)
    ensures s == t
    decreases |s|
  {
    if |s| == 0 {
      assert |t| == |multiset(t)| == 0;
    } else {
      assert s[0] in multiset(t) && t[0] in multiset(s);
      SortedHeadFirst(t, s[0]);
      SortedHeadFirst(s, t[0]);
      BelowAntisymmetric(s[0], t[0]);
      assert s == [s[0]] + s[1..] && t == [t[0]] + t[1..];
      assert multiset(s) == multiset{s[0]} + multiset(s[1..]);
      assert multiset(t) == multiset{s[0]} + multiset(t[1..]);
      assert forall y :: multiset(s[1..])[y] == multiset(s)[y] - multiset{s[0]}[y] == multiset(t[1..])[y];
      SortedTail(s);
      SortedTail(t);
      SortedUnique(s[1..], t[1..]);
    }
  }

  /** The first n elements of a are in order. */
  ghost predicate SortedPrefix(a: array<string>, n: int)
    reads a
  {
    forall p, q :: 0 <= p < q < n && q < a.Length ==> Below(a[p], a[q])
  }

  /** In-place insertion sort: the result is sorted and a permutation of the input. */
  method SortStrings(a: array<string>)
    modifies a
    ensures Sorted(a[..])
    ensures multiset(a[..]) == multiset(old(a[..]))
  {
    var i := 0;
    while i < a.Length
      invariant 0 <= i <= a.Length
      invariant SortedPrefix(a, i)
      invariant multiset(a[..]) == multiset(old(a[..]))
    {
      Insert(a, i);
      i := i + 1;
    }
    assert forall p, q :: 0 <= p < q < a.Length ==> a[..][p] == a[p] && a[..][q] == a[q];
  }

  /** Moves a[i] down into the sorted prefix a[..i], so that a[..i+1] is sorted. */
  method Insert(a: array<string>, i: nat)
    requires i < a.Length && SortedPrefix(a, i)
    modifies a
    ensures SortedPrefix(a, i + 1)
    ensures multiset(a[..]) == multiset(old(a[..]))
  {
    var j := i;
    while j > 0 && !Below(a[j - 1], a[j])
      invariant 0 <= j <= i
      invariant forall p, q :: 0 <= p < q <= i && p != j && q != j ==> Below(a[p], a[q])
      invariant forall q :: j < q <= i ==> Below(a[j], a[q])
      invariant multiset(a[..]) == multiset(old(a[..]))
    {
      BelowTotal(a[j - 1], a[j]);
      a[j - 1], a[j] := a[j], a[j - 1];
      j := j - 1;
    }
    forall p, q | 0 <= p < q <= i
      ensures Below(a[p], a[q])
    {
      if q == j && p < j - 1 {
        BelowTransitive(a[p], a[j - 1], a[j]);
      }
    }
  }

  predicate IsDigit(c: char)
  {
    '0' <= c <= '9'
  }

  function DigitChar(d: nat): (c: char)
    requires d < 10
    ensures IsDigit(c) && c as int - '0' as int == d
  {
    (d + '0' as int) as char
  }

  /** Decimal representation of n, as Go's `%v` prints an int: no sign, no leading zero. */
  function NatToString(n: nat): (r: string)
    ensures |r| > 0 && forall i :: 0 <= i < |r| ==> IsDigit(r[i])
    ensures r[0] == '0' ==> n == 0
    decreases n
  {
    if n < 10 then [DigitChar(n)] else NatToString(n / 10) + [DigitChar(n % 10)]
  }

  function DigitValue(c: char): nat
    requires IsDigit(c)
  {
    c as int - '0' as int
  }

  /** The number a string of decimal digits denotes. */
  function DigitsValue(s: string): nat
    requires forall i :: 0 <= i < |s| ==> IsDigit(s[i])
  {
    if |s| == 0 then 0 else 10 * DigitsValue(s[..|s| - 1]) + DigitValue(s[|s| - 1])
  }

  /** Reading back the printed number gives the number: the formatting loses nothing. */
  lemma {:induction false} NatToStringRoundTrip(n: nat)
    ensures DigitsValue(NatToString(n)) == n
    decreases n
  {
    if n >= 10 {
      NatToStringRoundTrip(n / 10);
      var r := NatToString(n);
      assert r[..|r| - 1] == NatToString(n / 10);
    }
  }
}
