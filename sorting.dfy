/**
 * Byte-wise string order (PHP's strcmp) as a strict total order, and the
 * sort-and-deduplicate step that `array_unique` followed by `sort`/`ksort` performs.
 */
module Sorting {
  import opened Php

  lemma {:induction false} StrLessIrreflexive(a: string)
    ensures !StrLess(a, a)
    decreases |a|
  {
    if |a| > 0 {
      StrLessIrreflexive(a[1..]);
    }
  }

  lemma {:induction false} StrLessTransitive(a: string, b: string, c: string)
    requires StrLess(a, b) && StrLess(b, c)
    ensures StrLess(a, c)
    decreases |a|
  {
    if |a| > 0 && |b| > 0 && |c| > 0 && a[0] == b[0] && b[0] == c[0] {
      StrLessTransitive(a[1..], b[1..], c[1..]);
    }
  }

  lemma {:induction false} StrLessTotal(a: string, b: string)
    requires a != b
    ensures StrLess(a, b) || StrLess(b, a)
    decreases |a|
  {
    if |a| > 0 && |b| > 0 && a[0] == b[0] {
      assert a == [a[0]] + a[1..] && b == [b[0]] + b[1..];
      StrLessTotal(a[1..], b[1..]);
    }
  }

  /** For strings of digits of one length, byte order is numeric order. */
  lemma {:induction false} SameLengthDigitsOrder(a: string, b: string)
    requires |a| == |b|
    requires forall i :: 0 <= i < |a| ==> IsDigit(a[i]) && IsDigit(b[i])
    ensures StrLess(a, b) <==> DigitsValue(a) < DigitsValue(b)
    decreases |a|
  {
    if |a| > 0 {
      var p := Pow10(|a| - 1);
      var ra, rb := DigitsValue(a[1..]), DigitsValue(b[1..]);
      DigitsValueHead(a);
      DigitsValueHead(b);
      DigitsValueBound(a[1..]);
      DigitsValueBound(b[1..]);
      if a[0] == b[0] {
        SameLengthDigitsOrder(a[1..], b[1..]);
      } else if a[0] < b[0] {
        LeadingDigitDecides(DigitVal(a[0]), DigitVal(b[0]), p, ra, rb);
      } else {
        LeadingDigitDecides(DigitVal(b[0]), DigitVal(a[0]), p, rb, ra);
      }
    }
  }

  lemma LeadingDigitDecides(x: nat, y: nat, p: nat, u: nat, v: nat)
    requires x < y && u < p
    ensures x * p + u < y * p + v
  {
    assert x * p + u < (x + 1) * p;
    assert (x + 1) * p <= y * p;
  }

  /** The leading digit contributes its value times 10^(n-1). */
  lemma {:induction false} DigitsValueHead(s: string)
    requires |s| > 0
    ensures DigitsValue(s) == DigitVal(s[0]) * Pow10(|s| - 1) + DigitsValue(s[1..])
    decreases |s|
  {
    if |s| > 1 {
      var t := s[..|s| - 1];
      DigitsValueHead(t);
      assert t[0] == s[0];
      assert t[1..] == s[1..][..|s[1..]| - 1];
      assert s[1..][|s[1..]| - 1] == s[|s| - 1];
      HeadArith(DigitVal(s[0]), Pow10(|s| - 2), DigitsValue(t[1..]), DigitVal(s[|s| - 1]));
    }
  }

  lemma HeadArith(d: int, p: int, a: int, last: int)
    ensures 10 * (d * p + a) + last == d * (10 * p) + (10 * a + last)
  {
  }

  lemma {:induction false} DigitsValueBound(s: string)
    ensures DigitsValue(s) < Pow10(|s|)
    decreases |s|
  {
    if |s| > 0 {
      DigitsValueBound(s[..|s| - 1]);
    }
  }

  /** Strictly increasing in byte order: sorted and free of duplicates. */
  ghost predicate StrictlySorted(r: seq<string>)
  {
    forall i, j :: 0 <= i < j < |r| ==> StrLess(r[i], r[j])
  }

  lemma StrictlySortedDistinct(r: seq<string>, i: int, j: int)
    requires StrictlySorted(r) && 0 <= i < |r| && 0 <= j < |r| && i != j
    ensures r[i] != r[j]
  {
    if i < j {
      StrLessIrreflexive(r[i]);
    } else {
      StrLessIrreflexive(r[j]);
    }
  }

  /** Every non-empty finite set of strings has a least element. */
  lemma {:induction false} LeastExists(s: set<string>)
    requires s != {}
    ensures exists m :: m in s && forall y :: y in s && y != m ==> StrLess(m, y)
    decreases |s|
  {
    var x :| x in s;
    var rest := s - {x};
    if rest == {} {
      assert s == {x};
      assert forall y :: y in s && y != x ==> StrLess(x, y);
    } else {
      LeastExists(rest);
      var m :| m in rest && forall y :: y in rest && y != m ==> StrLess(m, y);
      if StrLess(x, m) {
        forall y | y in s && y != x
          ensures StrLess(x, y)
        {
          if y != m {
            StrLessTransitive(x, m, y);
          }
        }
      } else {
        StrLessTotal(x, m);
        assert forall y :: y in s && y != m ==> StrLess(m, y);
      }
    }
  }

  /** The least element of a non-empty finite set of strings. */
  ghost function Least(s: set<string>): (m: string)
    requires s != {}
    ensures m in s && forall y :: y in s && y != m ==> StrLess(m, y)
  {
    LeastExists(s);
    var m :| m in s && forall y :: y in s && y != m ==> StrLess(m, y);
    m
  }

  /** A set has only one least element. */
  lemma LeastUnique(s: set<string>, m: string)
    requires m in s && forall y :: y in s && y != m ==> StrLess(m, y)
    ensures m == Least(s)
  {
    var l := Least(s);
    if m != l {
      StrLessIrreflexive(m);
      StrLessTransitive(m, l, m);
    }
  }

  /** The elements of a finite set of strings in increasing byte order, each once. */
  ghost function SortedSeq(s: set<string>): (r: seq<string>)
    decreases |s|
  {
    if s == {} then [] else [Least(s)] + SortedSeq(s - {Least(s)})
  }

  /** SortedSeq is strictly increasing and holds exactly the elements of the set. */
  lemma {:induction false} SortedSeqIsSortedSet(s: set<string>)
    ensures StrictlySorted(SortedSeq(s))
    ensures forall x :: x in s <==> x in SortedSeq(s)
    ensures |SortedSeq(s)| == |s|
    decreases |s|
  {
    if s != {} {
      var m := Least(s);
      var rest := s - {m};
      SortedSeqIsSortedSet(rest);
      var r := SortedSeq(s);
      assert r == [m] + SortedSeq(rest);
      forall i, j | 0 <= i < j < |r|
        ensures StrLess(r[i], r[j])
      {
        if i == 0 {
          assert r[j] in rest;
        } else {
          assert r[i] == SortedSeq(rest)[i - 1] && r[j] == SortedSeq(rest)[j - 1];
        }
      }
    }
  }

  /**
   * The elements of a finite set of strings in increasing byte order, each once: what
   * `sort(array_unique(...))` and `ksort` produce. Built by repeatedly taking the least
   * element of what is left.
   */
  method SortedElements(s: set<string>) returns (r: seq<string>)
    ensures r == SortedSeq(s)
    ensures StrictlySorted(r)
    ensures forall x :: x in s <==> x in r
  {
    r := [];
    var rest := s;
    while rest != {}
      invariant r + SortedSeq(rest) == SortedSeq(s)
      invariant rest <= s
      decreases |rest|
    {
      LeastExists(rest);
      var m :| m in rest && forall y :: y in rest && y != m ==> StrLess(m, y);
      LeastUnique(rest, m);
      assert SortedSeq(rest) == [m] + SortedSeq(rest - {m});
      r := r + [m];
      rest := rest - {m};
    }
    SortedSeqIsSortedSet(s);
  }
}
