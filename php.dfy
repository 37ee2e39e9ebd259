/**
 * The parts of PHP 7 (7.1 and later) string and number semantics that the plugin manager
 * relies on: substr, strpos, explode/implode, str_replace, strtolower, strrev, empty(),
 * numeric strings, the (int) cast, and the loose comparison operators `==`, `<`, `<=`.
 * Strings are sequences of characters standing for bytes.
 */
module Php {
  import opened Wrappers

  // ---------------------------------------------------------------------------
  // Searching, cutting and joining
  // ---------------------------------------------------------------------------

  /** The needle p occurs in s starting at index i. */
  predicate OccursAt(s: string, p: string, i: int)
  {
    0 <= i && i + |p| <= |s| && s[i..i + |p|] == p
  }

  /** strpos(s, p) with the search starting at index k; None stands for PHP's false. */
  function IndexFrom(s: string, p: string, k: nat): (r: Option<nat>)
    requires |p| > 0
    ensures r.Some? ==> k <= r.value && OccursAt(s, p, r.value)
    ensures forall j :: k <= j && (r.None? || j < r.value) ==> !OccursAt(s, p, j)
    decreases |s| - k
  {
    if k + |p| > |s| then None
    else if s[k..k + |p|] == p then Some(k)
    else IndexFrom(s, p, k + 1)
  }

  /** strpos(s, p): the first index at which p occurs in s, or None. */
  function StrPos(s: string, p: string): (r: Option<nat>)
    requires |p| > 0
    ensures r.Some? ==> OccursAt(s, p, r.value)
    ensures forall j :: 0 <= j && (r.None? || j < r.value) ==> !OccursAt(s, p, j)
  {
    IndexFrom(s, p, 0)
  }

  /** An occurrence inside a prefix of s is an occurrence in s. */
  lemma OccursInPrefix(s: string, p: string, i: nat, j: int)
    requires i <= |s| && OccursAt(s[..i], p, j)
    ensures OccursAt(s, p, j) && j + |p| <= i
  {
    assert s[..i][j..j + |p|] == s[j..j + |p|];
  }

  /** An occurrence inside s[1..] is an occurrence in s one place further on. */
  lemma OccursInSuffix(s: string, p: string, j: int)
    requires |s| >= 1 && OccursAt(s[1..], p, j)
    ensures OccursAt(s, p, j + 1)
  {
    assert s[1..][j..j + |p|] == s[j + 1..j + 1 + |p|];
  }

  /** A needle whose first character is absent does not occur. */
  lemma FirstCharAbsent(s: string, p: string)
    requires |p| > 0 && p[0] !in s
    ensures StrPos(s, p).None?
  {
    var r := StrPos(s, p);
  }

  /** A character that strpos does not find is not in the string. */
  lemma CharNotFound(s: string, c: char)
    requires StrPos(s, [c]).None?
    ensures c !in s
  {
    if c in s {
      var j :| 0 <= j < |s| && s[j] == c;
      assert s[j..j + 1] == [c];
      assert OccursAt(s, [c], j);
    }
  }

  /** An occurrence with no earlier copy of the needle's first character is the first one. */
  lemma FirstOccurrence(s: string, p: string, i: nat)
    requires |p| > 0 && OccursAt(s, p, i) && p[0] !in s[..i]
    ensures StrPos(s, p) == Some(i)
  {
    var r := StrPos(s, p);
  }

  /** implode(d, parts) */
  function Implode(d: string, parts: seq<string>): string
  {
    if |parts| == 0 then ""
    else if |parts| == 1 then parts[0]
    else parts[0] + d + Implode(d, parts[1..])
  }

  /** explode(d, s): cuts s at every occurrence of d, searching from the left without overlap. */
  function Explode(d: string, s: string): (parts: seq<string>)
    requires |d| > 0
    ensures |parts| >= 1
    ensures StrPos(s, d).None? ==> parts == [s]
    ensures StrPos(s, d).Some? ==>
      var i := StrPos(s, d).value;
      |parts| >= 2 && parts[0] == s[..i]
    decreases |s|
  {
    match StrPos(s, d)
    case None => [s]
    case Some(i) => [s[..i]] + Explode(d, s[i + |d|..])
  }

  /** Joining the pieces of explode with d gives s back, and no piece contains d. */
  lemma {:induction false} ExplodeJoins(d: string, s: string)
    requires |d| > 0
    ensures Implode(d, Explode(d, s)) == s
    ensures forall k :: 0 <= k < |Explode(d, s)| ==> StrPos(Explode(d, s)[k], d).None?
    decreases |s|
  {
    match StrPos(s, d)
    case None =>
    case Some(i) =>
      var head, tail := s[..i], s[i + |d|..];
      var rest := Explode(d, tail);
      ExplodeJoins(d, tail);
      assert StrPos(head, d).None? by {
        if StrPos(head, d).Some? {
          OccursInPrefix(s, d, i, StrPos(head, d).value);
        }
      }
      assert Explode(d, s) == [head] + rest;
      assert ([head] + rest)[1..] == rest;
      assert s == head + d + tail;
      forall k | 0 <= k < |Explode(d, s)|
        ensures StrPos(Explode(d, s)[k], d).None?
      {
        if k > 0 {
          assert Explode(d, s)[k] == rest[k - 1];
        }
      }
  }

  /**
   * str_replace(p, rep, s) for a non-empty search string: scans s from the left and replaces
   * each non-overlapping occurrence of p by rep.
   */
  function StrReplace(s: string, p: string, rep: string): string
    requires |p| > 0
    decreases |s|
  {
    if |s| < |p| then s
    else if s[..|p|] == p then rep + StrReplace(s[|p|..], p, rep)
    else [s[0]] + StrReplace(s[1..], p, rep)
  }

  /** str_replace leaves a string without the search string unchanged. */
  lemma {:induction false} StrReplaceAbsent(s: string, p: string, rep: string)
    requires |p| > 0 && StrPos(s, p).None?
    ensures StrReplace(s, p, rep) == s
    decreases |s|
  {
    if |s| >= |p| {
      assert !OccursAt(s, p, 0);
      if StrPos(s[1..], p).Some? {
        OccursInSuffix(s, p, StrPos(s[1..], p).value);
      }
      StrReplaceAbsent(s[1..], p, rep);
    }
  }

  /** Removing every occurrence of a single character c (str_replace(c, "", s)). */
  lemma {:induction false} RemoveCharGone(s: string, c: char)
    ensures c !in StrReplace(s, [c], "")
    ensures |StrReplace(s, [c], "")| <= |s|
    decreases |s|
  {
    if |s| >= 1 {
      assert s[..1] == [s[0]];
      RemoveCharGone(s[1..], c);
    }
  }

  /** Removing a character distributes over concatenation. */
  lemma {:induction false} RemoveCharConcat(a: string, b: string, c: char)
    ensures StrReplace(a + b, [c], "") == StrReplace(a, [c], "") + StrReplace(b, [c], "")
    decreases |a|
  {
    if |a| == 0 {
      assert a + b == b;
    } else {
      assert (a + b)[..1] == [a[0]] && a[..1] == [a[0]];
      assert (a + b)[1..] == a[1..] + b;
      RemoveCharConcat(a[1..], b, c);
    }
  }

  /** Removing a character c from a string that has none changes nothing. */
  lemma {:induction false} RemoveCharAbsent(s: string, c: char)
    requires c !in s
    ensures StrReplace(s, [c], "") == s
    decreases |s|
  {
    if |s| >= 1 {
      assert s[..1] == [s[0]];
      assert s == [s[0]] + s[1..];
      RemoveCharAbsent(s[1..], c);
    }
  }

  /**
   * substr(s, start, length) as PHP 7 computes it, with PHP's false result read as "".
   * A negative start counts from the end; a negative length leaves that many characters off.
   */
  function Substr(s: string, start: int, length: Option<int>): (r: string)
    ensures |r| <= |s|
  {
    var n := |s|;
    var b := if start >= 0 then start else if n + start < 0 then 0 else n + start;
    if b > n then ""
    else
      var e :=
        match length
        case None => n
        case Some(l) =>
          if l >= 0 then (if b + l > n then n else b + l)
          else if n + l < b then b
          else n + l;
      s[b..e]
  }

  /** substr with a non-negative start and no length is the suffix from that start. */
  lemma SubstrSuffix(s: string, start: nat)
    requires start <= |s|
    ensures Substr(s, start, None) == s[start..]
  {
  }

  /** strtolower for the ASCII letters. */
  function LowerChar(c: char): char
  {
    if 'A' <= c <= 'Z' then (c as int + 32) as char else c
  }

  function StrToLower(s: string): (r: string)
    ensures |r| == |s|
    ensures forall i :: 0 <= i < |s| ==> r[i] == LowerChar(s[i])
  {
    seq(|s|, i requires 0 <= i < |s| => LowerChar(s[i]))
  }

  /** strrev */
  function Reverse(s: string): (r: string)
    ensures |r| == |s|
    ensures forall i :: 0 <= i < |s| ==> r[i] == s[|s| - 1 - i]
  {
    if s == [] then [] else Reverse(s[1..]) + [s[0]]
  }

  /** strrev undoes itself. */
  lemma ReverseReverse(s: string)
    ensures Reverse(Reverse(s)) == s
  {
  }

  /**
   * PHP's empty() on a string: true exactly for "" and "0".
   * The same test is PHP's `!$s` on a string.
   */
  predicate Empty(s: string)
  {
    s == "" || s == "0"
  }

  // ---------------------------------------------------------------------------
  // Numeric strings
  // ---------------------------------------------------------------------------

  /**
   * A decimal number mant * 10^exp: the exact decimal value written by a numeric string.
   * PHP 7 converts non-integer numeric strings to doubles; that rounding is not modelled.
   */
  datatype Num = Num(mant: int, exp: int)

  function Pow10(n: nat): (r: nat)
    ensures r >= 1
  {
    if n == 0 then 1 else 10 * Pow10(n - 1)
  }

  predicate IsDigit(c: char)
  {
    '0' <= c <= '9'
  }

  /** The white space PHP skips before a number: space, \t, \n, \r, \v and \f. */
  predicate IsWs(c: char)
  {
    c == ' ' || c == '\t' || c == '\n' || c == '\r' || c as int == 11 || c as int == 12
  }

  function DigitVal(c: char): nat
  {
    if IsDigit(c) then c as int - '0' as int else 0
  }

  function SkipWs(s: string, i: nat): (j: nat)
    requires i <= |s|
    ensures i <= j <= |s|
    ensures j < |s| ==> !IsWs(s[j])
    ensures forall k :: i <= k < j ==> IsWs(s[k])
    decreases |s| - i
  {
    if i < |s| && IsWs(s[i]) then SkipWs(s, i + 1) else i
  }

  /** The end of the run of decimal digits that starts at index i. */
  function DigitRunEnd(s: string, i: nat): (j: nat)
    requires i <= |s|
    ensures i <= j <= |s|
    ensures j < |s| ==> !IsDigit(s[j])
    ensures forall k :: i <= k < j ==> IsDigit(s[k])
    decreases |s| - i
  {
    if i < |s| && IsDigit(s[i]) then DigitRunEnd(s, i + 1) else i
  }

  /** The value of a string of decimal digits, most significant first. */
  function DigitsValue(ds: string): nat
    decreases |ds|
  {
    if |ds| == 0 then 0 else 10 * DigitsValue(ds[..|ds| - 1]) + DigitVal(ds[|ds| - 1])
  }

  /** An exponent part [eE][+-]?[0-9]+ starting at index k: its value and where it ends. */
  function ExponentAt(s: string, k: nat): (r: Option<(int, nat)>)
    requires k <= |s|
    ensures r.Some? ==> k < r.value.1 <= |s|
  {
    if k < |s| && (s[k] == 'e' || s[k] == 'E') then
      var k1 := if k + 1 < |s| && (s[k + 1] == '+' || s[k + 1] == '-') then k + 2 else k + 1;
      var k2 := DigitRunEnd(s, k1);
      if k2 > k1 then
        var e: int := DigitsValue(s[k1..k2]);
        Some((if s[k + 1] == '-' then -e else e, k2))
      else None
    else None
  }

  /** The longest prefix of a string that PHP reads as a number, if there is one. */
  datatype NumericPrefix = NoNumber | Number(value: Num, end: nat)

  /**
   * The numeric prefix of s under PHP's grammar
   *   [ \t\n\r\v\f]* [+-]? (digits ("." digits?)? | "." digits) ([eE] [+-]? digits)?
   */
  function ParseNumericPrefix(s: string): (p: NumericPrefix)
    ensures p.Number? ==> p.end <= |s|
  {
    var i0 := SkipWs(s, 0);
    var i1 := if i0 < |s| && (s[i0] == '+' || s[i0] == '-') then i0 + 1 else i0;
    var j1 := DigitRunEnd(s, i1);
    var hasDot := j1 < |s| && s[j1] == '.';
    var j2 := if hasDot then DigitRunEnd(s, j1 + 1) else j1;
    var digits := s[i1..j1] + (if hasDot then s[j1 + 1..j2] else "");
    var scale := if hasDot then j2 - (j1 + 1) else 0;
    if |digits| == 0 then NoNumber
    else
      var m: int := DigitsValue(digits);
      var mant := if i1 > i0 && s[i0] == '-' then -m else m;
      match ExponentAt(s, j2)
      case None => Number(Num(mant, -scale), j2)
      case Some((e, end)) => Number(Num(mant, e - scale), end)
  }

  /** is_numeric_string in PHP 7: the whole string is a number (leading white space allowed). */
  predicate IsNumeric(s: string)
  {
    var p := ParseNumericPrefix(s);
    p.Number? && p.end == |s|
  }

  /** The number PHP 7 reads from a string: its numeric prefix, or 0 when it has none. */
  function NumValue(s: string): Num
  {
    match ParseNumericPrefix(s)
    case NoNumber => Num(0, 0)
    case Number(v, _) => v
  }

  function MinInt(a: int, b: int): int
  {
    if a <= b then a else b
  }

  /** m * 10^n, one factor of ten at a time. */
  function Shift(m: int, n: nat): int
    decreases n
  {
    if n == 0 then m else 10 * Shift(m, n - 1)
  }

  /** m / 10^n rounded down, one digit at a time. */
  function Unshift(m: nat, n: nat): nat
    decreases n
  {
    if n == 0 then m else Unshift(m / 10, n - 1)
  }

  /** Three-way comparison of two exact decimal numbers: -1, 0 or 1. */
  function NumCmp(a: Num, b: Num): (c: int)
    ensures -1 <= c <= 1
  {
    var e := MinInt(a.exp, b.exp);
    var x := Shift(a.mant, a.exp - e);
    var y := Shift(b.mant, b.exp - e);
    if x < y then -1 else if x == y then 0 else 1
  }

  /** Truncation toward zero, as PHP's conversion of a number to an integer. */
  function Trunc(n: Num): int
  {
    if n.exp >= 0 then Shift(n.mant, n.exp)
    else if n.mant >= 0 then Unshift(n.mant, -n.exp)
    else
      var q: int := Unshift(-n.mant, -n.exp);
      -q
  }

  /** (int) $s in PHP 7.1 and later. */
  function IntCast(s: string): int
  {
    Trunc(NumValue(s))
  }

  /** `$s == $k` for a string and an integer: the string is read as a number. */
  predicate LooseEqInt(s: string, k: int)
  {
    NumCmp(NumValue(s), Num(k, 0)) == 0
  }

  /** Byte-wise comparison of two strings (strcmp): lexicographic, a proper prefix first. */
  predicate StrLess(a: string, b: string)
    decreases |a|
  {
    if |a| == 0 then |b| > 0
    else if |b| == 0 then false
    else if a[0] != b[0] then a[0] < b[0]
    else StrLess(a[1..], b[1..])
  }

  /**
   * Three-way loose comparison of two strings in PHP 7: numerically (by exact decimal value)
   * when both are numeric strings, otherwise byte-wise.
   */
  function StrCmp(a: string, b: string): (c: int)
    ensures -1 <= c <= 1
  {
    if IsNumeric(a) && IsNumeric(b) then NumCmp(NumValue(a), NumValue(b))
    else if a == b then 0
    else if StrLess(a, b) then -1
    else 1
  }

  /** `$a == $b` for two strings in PHP 7. */
  predicate LooseEq(a: string, b: string)
  {
    StrCmp(a, b) == 0
  }

  /** A string is loosely equal to itself. */
  lemma LooseEqReflexive(a: string)
    ensures LooseEq(a, a)
  {
    if !(IsNumeric(a) && IsNumeric(a)) {
      assert StrCmp(a, a) == 0;
    }
  }

  /** Against a string that is not numeric, PHP's loose `==` is plain equality. */
  lemma LooseEqNonNumeric(a: string, b: string)
    requires !IsNumeric(b)
    ensures LooseEq(a, b) <==> a == b
  {
    if a == b {
      LooseEqReflexive(a);
    }
  }

  /** in_array(x, xs) on strings: some element is loosely equal to x. */
  predicate InArray(x: string, xs: seq<string>)
  {
    exists k :: 0 <= k < |xs| && LooseEq(x, xs[k])
  }

  /**
   * Three-way loose comparison of two values that are strings or null (a missing list()
   * element): null equals "" and is below every other string.
   */
  function Cmp(a: Option<string>, b: Option<string>): (c: int)
    ensures -1 <= c <= 1
  {
    match (a, b)
    case (Some(x), Some(y)) => StrCmp(x, y)
    case (None, None) => 0
    case (None, Some(y)) => if y == "" then 0 else -1
    case (Some(x), None) => if x == "" then 0 else 1
  }

  /** The decimal representation PHP gives an integer when it is used as a string. */
  function NatToStr(n: nat): (r: string)
    ensures |r| >= 1
    ensures forall i :: 0 <= i < |r| ==> IsDigit(r[i])
    ensures DigitsValue(r) == n
    decreases n
  {
    var d := ['0' + ((n % 10) as char)];
    if n < 10 then d else NatToStr(n / 10) + d
  }

  function IntToStr(i: int): (r: string)
    ensures |r| >= 1
  {
    if i >= 0 then NatToStr(i) else "-" + NatToStr(-i)
  }

  /** A string that starts with neither white space, a sign, a dot nor a digit has no numeric prefix. */
  lemma NoNumericPrefix(s: string)
    requires |s| > 0 && !IsWs(s[0]) && !IsDigit(s[0]) && s[0] !in "+-."
    ensures ParseNumericPrefix(s).NoNumber? && !IsNumeric(s) && NumValue(s) == Num(0, 0)
  {
    assert SkipWs(s, 0) == 0;
    assert DigitRunEnd(s, 0) == 0;
  }

  /** The decimal text of an integer is "0" only for 0. */
  lemma IntToStrZero(i: int)
    ensures IntToStr(i) == "0" <==> i == 0
  {
    if i >= 10 {
      var r := NatToStr(i);
      assert r == NatToStr(i / 10) + ['0' + ((i % 10) as char)];
    } else if i < 0 {
      assert IntToStr(i)[0] == '-';
    }
  }

  /** A string of decimal digits is a numeric string whose value is its digit value. */
  lemma DigitsAreNumeric(s: string)
    requires |s| >= 1 && forall i :: 0 <= i < |s| ==> IsDigit(s[i])
    ensures IsNumeric(s) && NumValue(s) == Num(DigitsValue(s), 0)
  {
    assert !IsWs(s[0]);
    assert SkipWs(s, 0) == 0;
    DigitRunAll(s, 0);
    assert s[0..|s|] + "" == s;
  }

  lemma {:induction false} DigitRunAll(s: string, i: nat)
    requires i <= |s| && forall k :: i <= k < |s| ==> IsDigit(s[k])
    ensures DigitRunEnd(s, i) == |s|
    decreases |s| - i
  {
    if i < |s| {
      DigitRunAll(s, i + 1);
    }
  }
}
