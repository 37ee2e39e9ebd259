/**
 * The minimum-version test the plugin manager applies to Jomres version strings: both
 * versions are cut at "." and compared part by part with PHP's loose `<=` and `<`,
 * through a ladder of three disjuncts.
 */
module Versions {
  import opened Wrappers
  import opened Php

  /** The k-th part of an exploded version as list() reads it: null (None) past the end. */
  function Part(v: seq<string>, k: nat): (r: Option<string>)
    ensures r.Some? <==> k < |v|
    ensures r.Some? ==> r.value == v[k]
  {
    if k < |v| then Some(v[k]) else None
  }

  /**
   * `$condition == 1` for the minimum `min` and the current version `cur`:
   * (min1 <= cur1 && min2 <= cur2 && min3 <= cur3) || (min1 <= cur1 && min2 < cur2) || min1 < cur1.
   */
  predicate Condition(min: seq<string>, cur: seq<string>)
  {
    var c1 := Cmp(Part(min, 0), Part(cur, 0));
    var c2 := Cmp(Part(min, 1), Part(cur, 1));
    var c3 := Cmp(Part(min, 2), Part(cur, 2));
    (c1 <= 0 && c2 <= 0 && c3 <= 0) || (c1 <= 0 && c2 < 0) || c1 < 0
  }

  /** Lexicographic order on three parts, given the three-way comparison of each part. */
  predicate LexAtMost(c1: int, c2: int, c3: int)
  {
    c1 < 0 || (c1 == 0 && (c2 < 0 || (c2 == 0 && c3 <= 0)))
  }

  /** The ladder is exactly lexicographic `min <= cur` over the part-by-part comparisons. */
  lemma ConditionIsLexicographic(min: seq<string>, cur: seq<string>)
    ensures Condition(min, cur) <==>
      LexAtMost(Cmp(Part(min, 0), Part(cur, 0)), Cmp(Part(min, 1), Part(cur, 1)), Cmp(Part(min, 2), Part(cur, 2)))
  {
    var c1 := Cmp(Part(min, 0), Part(cur, 0));
    var c2 := Cmp(Part(min, 1), Part(cur, 1));
    var c3 := Cmp(Part(min, 2), Part(cur, 2));
    assert -1 <= c1 <= 1 && -1 <= c2 <= 1 && -1 <= c3 <= 1;
  }

  /** A version part written in decimal digits only. */
  predicate IsDigits(s: string)
  {
    |s| >= 1 && forall i :: 0 <= i < |s| ==> IsDigit(s[i])
  }

  /** A version of at least three parts whose first three parts are digit strings. */
  predicate NumericVersion(v: seq<string>)
  {
    |v| >= 3 && IsDigits(v[0]) && IsDigits(v[1]) && IsDigits(v[2])
  }

  /** Two digit strings compare loosely as their integer values do. */
  lemma DigitsCompare(a: string, b: string)
    requires IsDigits(a) && IsDigits(b)
    ensures Cmp(Some(a), Some(b)) < 0 <==> DigitsValue(a) < DigitsValue(b)
    ensures Cmp(Some(a), Some(b)) == 0 <==> DigitsValue(a) == DigitsValue(b)
  {
    DigitsAreNumeric(a);
    DigitsAreNumeric(b);
    assert Shift(DigitsValue(a), 0) == DigitsValue(a);
    assert Shift(DigitsValue(b), 0) == DigitsValue(b);
  }

  /**
   * On integer versions the ladder holds exactly when the current version is at least the
   * minimum in lexicographic (major, minor, revision) order.
   */
  lemma NumericCondition(min: seq<string>, cur: seq<string>)
    requires NumericVersion(min) && NumericVersion(cur)
    ensures Condition(min, cur) <==>
      var m1, m2, m3 := DigitsValue(min[0]), DigitsValue(min[1]), DigitsValue(min[2]);
      var k1, k2, k3 := DigitsValue(cur[0]), DigitsValue(cur[1]), DigitsValue(cur[2]);
      m1 < k1 || (m1 == k1 && (m2 < k2 || (m2 == k2 && m3 <= k3)))
  {
    ConditionIsLexicographic(min, cur);
    DigitsCompare(min[0], cur[0]);
    DigitsCompare(min[1], cur[1]);
    DigitsCompare(min[2], cur[2]);
  }

  /** The fixed minimum of the licence page: Jomres 9.9.6. */
  const FixedMinimum: seq<string> := ["9", "9", "6"]

  /** Against the fixed minimum 9.9.6: 9.10.0 and 10.0.0 pass, 9.9.5 does not. */
  lemma FixedMinimumExamples()
    ensures Condition(FixedMinimum, ["9", "10", "0"])
    ensures Condition(FixedMinimum, ["10", "0", "0"])
    ensures !Condition(FixedMinimum, ["9", "9", "5"])
    ensures Condition(FixedMinimum, ["9", "9", "6"])
  {
    assert DigitsValue("9") == 9 && DigitsValue("6") == 6 && DigitsValue("5") == 5;
    assert DigitsValue("10") == 10 && DigitsValue("0") == 0;
    NumericCondition(FixedMinimum, ["9", "10", "0"]);
    NumericCondition(FixedMinimum, ["10", "0", "0"]);
    NumericCondition(FixedMinimum, ["9", "9", "5"]);
    NumericCondition(FixedMinimum, ["9", "9", "6"]);
  }
}
