/**
 * The java.lang.String operations the app relies on, over `seq<char>`:
 * case folding, substring search, literal replacement, trimming and the
 * decimal conversions of Integer.toString / Integer.parseInt.
 */
module Text {
  import opened Wrappers

  const INT_MIN: int := -0x8000_0000
  const INT_MAX: int := 0x7FFF_FFFF

  predicate IsJavaInt(n: int) { INT_MIN <= n <= INT_MAX }

  // ---------------------------------------------------------------- case

  function LowerChar(c: char): char
  {
    if 'A' <= c <= 'Z' then (c as int + 32) as char else c
  }

  function UpperChar(c: char): char
  {
    if 'a' <= c <= 'z' then (c as int - 32) as char else c
  }

  /** String.toLowerCase on the ASCII letters. */
  function ToLower(s: string): (r: string)
    ensures |r| == |s|
    ensures forall i :: 0 <= i < |s| ==> r[i] == LowerChar(s[i])
  {
    seq(|s|, i requires 0 <= i < |s| => LowerChar(s[i]))
  }

  /** String.toUpperCase on the ASCII letters. */
  function ToUpper(s: string): (r: string)
    ensures |r| == |s|
    ensures forall i :: 0 <= i < |s| ==> r[i] == UpperChar(s[i])
  {
    seq(|s|, i requires 0 <= i < |s| => UpperChar(s[i]))
  }

  /** String.equalsIgnoreCase. */
  predicate EqualsIgnoreCase(a: string, b: string)
  {
    ToLower(a) == ToLower(b)
  }

  // ---------------------------------------------------------------- search

  /** `t` occurs in `s` starting at position `j`. */
  predicate OccursAt(s: string, t: string, j: int)
  {
    0 <= j && j + |t| <= |s| && s[j..j + |t|] == t
  }

  /** String.indexOf: the first position where `t` occurs in `s`, if any (see IndexOfFirst). */
  function IndexOf(s: string, t: string): (r: Option<nat>)
    ensures r.Some? ==> r.value + |t| <= |s|
    decreases |s|
  {
    if |s| < |t| then None
    else if s[..|t|] == t then Some(0)
    else
      var rest := IndexOf(s[1..], t);
      if rest.None? then None else Some(rest.value + 1)
  }

  /** IndexOf finds an occurrence, the first one, and finds none only when there is none. */
  lemma {:induction false} IndexOfFirst(s: string, t: string)
    ensures IndexOf(s, t).Some? ==> OccursAt(s, t, IndexOf(s, t).value)
    ensures IndexOf(s, t).Some? ==> forall j :: 0 <= j < IndexOf(s, t).value ==> !OccursAt(s, t, j)
    ensures IndexOf(s, t).None? ==> forall j :: !OccursAt(s, t, j)
    decreases |s|
  {
    if |s| >= |t| && s[..|t|] != t {
      IndexOfFirst(s[1..], t);
      ShiftedOccurrence(s, t);
      assert !OccursAt(s, t, 0);
    }
  }

  /** An occurrence in `s[1..]` is an occurrence in `s` one position later. */
  lemma {:induction false} ShiftedOccurrence(s: string, t: string)
    requires |s| > 0
    ensures forall j :: 0 <= j ==> (OccursAt(s[1..], t, j) <==> OccursAt(s, t, j + 1))
    ensures forall j :: 1 <= j ==> (OccursAt(s, t, j) <==> OccursAt(s[1..], t, j - 1))
  {
    forall j | 0 <= j
      ensures OccursAt(s[1..], t, j) <==> OccursAt(s, t, j + 1)
    {
      if j + |t| <= |s| - 1 {
        assert s[1..][j..j + |t|] == s[j + 1..j + 1 + |t|];
      }
    }
    forall j | 1 <= j
      ensures OccursAt(s, t, j) <==> OccursAt(s[1..], t, j - 1)
    {
      if j + |t| <= |s| {
        assert s[1..][j - 1..j - 1 + |t|] == s[j..j + |t|];
      }
    }
  }

  /** String.contains. */
  predicate Contains(s: string, t: string)
  {
    IndexOf(s, t).Some?
  }

  lemma {:induction false} ContainsIff(s: string, t: string)
    ensures Contains(s, t) <==> exists j :: OccursAt(s, t, j)
  {
    IndexOfFirst(s, t);
  }

  predicate StartsWith(s: string, p: string) { |p| <= |s| && s[..|p|] == p }

  predicate EndsWith(s: string, p: string) { |p| <= |s| && s[|s| - |p|..] == p }

  // ---------------------------------------------------------------- replacement

  /**
   * String.replace(target, replacement) for a non-empty target: every
   * occurrence, scanning left to right, the scan resuming after each
   * replaced occurrence.
   */
  function ReplaceAll(s: string, t: string, r: string): (res: string)
    requires |t| > 0
    ensures |r| == |t| ==> |res| == |s|
    ensures |r| <= |t| ==> |res| <= |s|
    decreases |s|
  {
    if |s| < |t| then s
    else if s[..|t|] == t then r + ReplaceAll(s[|t|..], t, r)
    else [s[0]] + ReplaceAll(s[1..], t, r)
  }

  /** String.replaceFirst with a literal pattern: only the first occurrence. */
  function ReplaceFirst(s: string, t: string, r: string): (res: string)
    ensures IndexOf(s, t).None? ==> res == s
    ensures IndexOf(s, t).Some? ==> |res| == |s| - |t| + |r|
  {
    match IndexOf(s, t)
    case None => s
    case Some(i) => s[..i] + r + s[i + |t|..]
  }

  /**
   * ReplaceFirst leaves `s` alone when `t` is absent, and otherwise puts `r`
   * where the first `t` was, keeping the text on both sides.
   */
  lemma {:induction false} ReplaceFirstAtFirst(s: string, t: string, r: string)
    ensures IndexOf(s, t).None? ==> ReplaceFirst(s, t, r) == s
    ensures IndexOf(s, t).Some? ==>
      var i := IndexOf(s, t).value;
      var res := ReplaceFirst(s, t, r);
      OccursAt(s, t, i) && (forall j :: 0 <= j < i ==> !OccursAt(s, t, j)) &&
      |res| == |s| - |t| + |r| && res[..i] == s[..i] && res[i..i + |r|] == r &&
      res[i + |r|..] == s[i + |t|..]
  {
    IndexOfFirst(s, t);
    if IndexOf(s, t).Some? {
      var i := IndexOf(s, t).value;
      var res := ReplaceFirst(s, t, r);
      assert res == s[..i] + r + s[i + |t|..];
      assert res[..i] == s[..i];
      assert res[i..i + |r|] == r;
      assert res[i + |r|..] == s[i + |t|..];
    }
  }

  /** Where `t` does not occur, ReplaceAll changes nothing. */
  lemma {:induction false} ReplaceAllAbsent(s: string, t: string, r: string)
    requires |t| > 0 && IndexOf(s, t).None?
    ensures ReplaceAll(s, t, r) == s
    decreases |s|
  {
    if |s| >= |t| {
      assert !OccursAt(s, t, 0);
      ShiftedOccurrence(s, t);
      ReplaceAllAbsent(s[1..], t, r);
      assert s == [s[0]] + s[1..];
    }
  }

  /** A prefix without the target's first character passes through ReplaceAll untouched. */
  lemma {:induction false} ReplaceAllSkip(a: string, rest: string, t: string, r: string)
    requires |t| > 0
    requires forall i :: 0 <= i < |a| ==> a[i] != t[0]
    ensures ReplaceAll(a + rest, t, r) == a + ReplaceAll(rest, t, r)
    decreases |a|
  {
    if |a| > 0 {
      var s := a + rest;
      var a' := a[1..];
      assert s[1..] == a' + rest;
      assert forall i :: 0 <= i < |a'| ==> a'[i] == a[i + 1];
      ReplaceAllSkip(a', rest, t, r);
      ReplaceAllNotHere(s, t, r);
      assert a == [a[0]] + a';
    } else {
      assert a + rest == rest;
    }
  }

  /** A text that does not start with the target's first character keeps that character and goes on after it. */
  lemma {:induction false} ReplaceAllNotHere(s: string, t: string, r: string)
    requires |t| > 0 && |s| > 0 && s[0] != t[0]
    ensures ReplaceAll(s, t, r) == [s[0]] + ReplaceAll(s[1..], t, r)
  {
    if |s| >= |t| {
      assert s[..|t|][0] != t[0];
    } else {
      assert ReplaceAll(s[1..], t, r) == s[1..];
      assert s == [s[0]] + s[1..];
    }
  }

  /** An occurrence at the very start is replaced and the scan resumes after it. */
  lemma {:induction false} ReplaceAllHere(t: string, rest: string, r: string)
    requires |t| > 0
    ensures ReplaceAll(t + rest, t, r) == r + ReplaceAll(rest, t, r)
  {
    assert (t + rest)[..|t|] == t;
    assert (t + rest)[|t|..] == rest;
  }

  /** A prefix without the target's first character holds no occurrence. */
  lemma {:induction false} IndexOfSkip(a: string, rest: string, t: string)
    requires |t| > 0
    requires forall i :: 0 <= i < |a| ==> a[i] != t[0]
    ensures IndexOf(a + rest, t).None? <==> IndexOf(rest, t).None?
    ensures IndexOf(rest, t).Some? ==> IndexOf(a + rest, t) == Some(|a| + IndexOf(rest, t).value)
    decreases |a|
  {
    if |a| > 0 {
      var s := a + rest;
      var a' := a[1..];
      assert s[1..] == a' + rest;
      assert forall i :: 0 <= i < |a'| ==> a'[i] == a[i + 1];
      IndexOfSkip(a', rest, t);
      if |s| >= |t| {
        assert s[..|t|][0] != t[0];
        var tail := IndexOf(s[1..], t);
        assert IndexOf(s, t) == if tail.None? then None else Some(tail.value + 1);
      } else {
        assert IndexOf(s, t) == None;
        assert IndexOf(rest, t) == None;
      }
    } else {
      assert a + rest == rest;
    }
  }

  /** A string starting with `t` has its first occurrence at 0. */
  lemma {:induction false} IndexOfHere(t: string, rest: string)
    ensures IndexOf(t + rest, t) == Some(0)
  {
    assert (t + rest)[..|t|] == t;
  }

  /** Replacing a string by itself changes nothing. */
  lemma {:induction false} ReplaceAllSelf(s: string, t: string)
    requires |t| > 0
    ensures ReplaceAll(s, t, t) == s
    decreases |s|
  {
    if |s| < |t| {
    } else if s[..|t|] == t {
      ReplaceAllSelf(s[|t|..], t);
      assert s == s[..|t|] + s[|t|..];
    } else {
      ReplaceAllSelf(s[1..], t);
      assert s == [s[0]] + s[1..];
    }
  }

  // ---------------------------------------------------------------- trimming and joining

  /** The number of characters up to U+0020 at the start of `s`. */
  function LeadingBlanks(s: string): (n: nat)
    ensures n <= |s|
    ensures forall k :: 0 <= k < n ==> s[k] <= ' '
    ensures n < |s| ==> s[n] > ' '
  {
    if |s| > 0 && s[0] <= ' ' then 1 + LeadingBlanks(s[1..]) else 0
  }

  /** The number of characters up to U+0020 at the end of `s`. */
  function TrailingBlanks(s: string): (n: nat)
    ensures n <= |s|
    ensures forall k :: |s| - n <= k < |s| ==> s[k] <= ' '
    ensures n < |s| ==> s[|s| - n - 1] > ' '
  {
    if |s| > 0 && s[|s| - 1] <= ' ' then 1 + TrailingBlanks(s[..|s| - 1]) else 0
  }

  /**
   * String.trim: the longest middle part of `s` that neither starts nor
   * ends with a character up to U+0020; every dropped character is one.
   */
  function Trim(s: string): (r: string)
    ensures |r| <= |s|
    ensures |r| > 0 ==> r[0] > ' ' && r[|r| - 1] > ' '
    ensures r == "" <==> forall k :: 0 <= k < |s| ==> s[k] <= ' '
    ensures r != "" ==> r == s[LeadingBlanks(s)..|s| - TrailingBlanks(s)]
  {
    var i := LeadingBlanks(s);
    if i == |s| then "" else s[i..|s| - TrailingBlanks(s)]
  }

  /** String.join(sep, parts). */
  function Join(parts: seq<string>, sep: string): string
  {
    if |parts| == 0 then ""
    else if |parts| == 1 then parts[0]
    else parts[0] + sep + Join(parts[1..], sep)
  }

  // ---------------------------------------------------------------- decimal numbers

  predicate IsDigit(c: char) { '0' <= c <= '9' }

  function DigitChar(d: nat): char
    requires d < 10
  {
    ('0' as int + d) as char
  }

  function DigitValue(c: char): nat
    requires IsDigit(c)
  {
    c as int - '0' as int
  }

  predicate AllDigits(s: string) { forall i :: 0 <= i < |s| ==> IsDigit(s[i]) }

  /** The value of a run of decimal digits, most significant first. */
  function DigitsValue(s: string): nat
    requires AllDigits(s)
  {
    if |s| == 0 then 0 else DigitsValue(s[..|s| - 1]) * 10 + DigitValue(s[|s| - 1])
  }

  /** Integer.toString for a non-negative value. */
  function NatToString(n: nat): (r: string)
    ensures |r| > 0 && AllDigits(r)
  {
    if n < 10 then [DigitChar(n)] else NatToString(n / 10) + [DigitChar(n % 10)]
  }

  /** Integer.toString / String.valueOf(int). */
  function IntToString(n: int): (r: string)
    ensures |r| > 0
    ensures r[0] == '-' <==> n < 0
    ensures n >= 0 ==> AllDigits(r)
  {
    if n < 0 then "-" + NatToString(-n) else NatToString(n)
  }

  /**
   * Integer.parseInt: an optional sign followed by at least one decimal
   * digit, whose value must fit in 32 bits; anything else throws
   * (NumberFormatException), here None.
   */
  function ParseInt(s: string): (r: Option<int>)
    ensures r.Some? ==> IsJavaInt(r.value)
  {
    if |s| == 0 then None
    else
      var neg := s[0] == '-';
      var digits := if s[0] == '-' || s[0] == '+' then s[1..] else s;
      if |digits| == 0 || !AllDigits(digits) then None
      else
        var d: int := DigitsValue(digits);
        var v := if neg then -d else d;
        if IsJavaInt(v) then Some(v) else None
  }

  lemma {:induction false} DigitsOfNatToString(n: nat)
    ensures DigitsValue(NatToString(n)) == n
  {
    if n >= 10 {
      var a := NatToString(n / 10);
      DigitsOfNatToString(n / 10);
      assert (a + [DigitChar(n % 10)])[..|a|] == a;
    }
  }

  /** Decimal text written by Integer.toString parses back to the same int. */
  lemma {:induction false} ParseIntToString(n: int)
    requires IsJavaInt(n)
    ensures ParseInt(IntToString(n)) == Some(n)
  {
    IntToStringShape(n);
    var s := IntToString(n);
    if n >= 0 {
      assert IsDigit(s[0]);
    }
  }

  /** The text Integer.toString writes: a '-' for negatives, then the digits of the magnitude. */
  lemma {:induction false} IntToStringShape(n: int)
    ensures IntToString(n)[0] == '-' <==> n < 0
    ensures n < 0 ==> AllDigits(IntToString(n)[1..]) && DigitsValue(IntToString(n)[1..]) == -n
    ensures n >= 0 ==> AllDigits(IntToString(n)) && DigitsValue(IntToString(n)) == n
  {
    var s := IntToString(n);
    if n < 0 {
      var d := NatToString(-n);
      DigitsOfNatToString(-n);
      assert s == "-" + d && s[1..] == d;
    } else {
      DigitsOfNatToString(n);
      assert IsDigit(s[0]);
    }
  }

  /** Distinct ints are written as distinct strings. */
  lemma {:induction false} IntToStringInjective(a: int, b: int)
    requires IntToString(a) == IntToString(b)
    ensures a == b
  {
    IntToStringShape(a);
    IntToStringShape(b);
  }
}
