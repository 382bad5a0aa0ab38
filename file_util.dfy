/**
 * fileutil.sanitizeFileName: turns a user-supplied name into one that is
 * safe as a file name. Path separators and the other characters Windows
 * forbids become '_', a leading and a trailing run of dots is removed, and
 * the result is trimmed.
 */
module FileUtil {
  import opened Wrappers
  import opened Text

  /** The characters of the class [/\\:*?"<>|]. */
  predicate Forbidden(c: char)
  {
    c == '/' || c == '\\' || c == ':' || c == '*' || c == '?' || c == '"' || c == '<' || c == '>' || c == '|'
  }

  predicate NoneForbidden(s: string)
  {
    forall k :: 0 <= k < |s| ==> !Forbidden(s[k])
  }

  /** replaceAll("[/\\\\:*?\"<>|]", "_"). */
  function ReplaceForbidden(s: string): (r: string)
    ensures |r| == |s| && NoneForbidden(r)
    ensures forall k :: 0 <= k < |s| ==> r[k] == (if Forbidden(s[k]) then '_' else s[k])
  {
    seq(|s|, k requires 0 <= k < |s| => if Forbidden(s[k]) then '_' else s[k])
  }

  /** The length of the run of dots that starts `s`. */
  function LeadingDots(s: string): (n: nat)
    ensures n <= |s|
    ensures forall k :: 0 <= k < n ==> s[k] == '.'
    ensures n < |s| ==> s[n] != '.'
  {
    if |s| > 0 && s[0] == '.' then 1 + LeadingDots(s[1..]) else 0
  }

  /** The length of the run of dots that ends `s`. */
  function TrailingDots(s: string): (n: nat)
    ensures n <= |s|
    ensures forall k :: |s| - n <= k < |s| ==> s[k] == '.'
    ensures n < |s| ==> s[|s| - n - 1] != '.'
  {
    if |s| > 0 && s[|s| - 1] == '.' then 1 + TrailingDots(s[..|s| - 1]) else 0
  }

  /**
   * replaceAll("^\\.+", "") and then replaceAll("\\.+$", ""): what is left
   * neither starts nor ends with a dot, and every character dropped is one.
   */
  function StripDots(s: string): (r: string)
    ensures |r| <= |s|
    ensures |r| > 0 ==> r[0] != '.' && r[|r| - 1] != '.'
    ensures r == "" <==> forall k :: 0 <= k < |s| ==> s[k] == '.'
    ensures NoneForbidden(s) ==> NoneForbidden(r)
    ensures (|s| == 0 || (s[0] != '.' && s[|s| - 1] != '.')) ==> r == s
    ensures exists i, j ::
              && 0 <= i <= j <= |s| && r == s[i..j]
              && (forall k :: 0 <= k < i ==> s[k] == '.')
              && (forall k :: j <= k < |s| ==> s[k] == '.')
  {
    var i := LeadingDots(s);
    var rest := s[i..];
    var j := i + |rest| - TrailingDots(rest);
    var r := rest[..|rest| - TrailingDots(rest)];
    assert |rest| > 0 ==> rest[0] != '.';
    assert r == s[i..j];
    assert forall k :: j <= k < |s| ==> s[k] == rest[k - i];
    r
  }

  /** sanitizeFileName; a null name gives "". */
  function SanitizeFileName(name: Option<string>): (r: string)
    ensures name.None? ==> r == ""
  {
    if name.None? then "" else Trim(StripDots(ReplaceForbidden(name.value)))
  }

  /**
   * What a sanitized name looks like: no forbidden character, no blank at
   * either end, and never longer than the input.
   */
  lemma {:induction false} SanitizedShape(s: string)
    ensures var r := SanitizeFileName(Some(s));
      NoneForbidden(r) && |r| <= |s| && (|r| > 0 ==> r[0] > ' ' && r[|r| - 1] > ' ')
  {
    var f := ReplaceForbidden(s);
    var d := StripDots(f);
    assert NoneForbidden(d) && |d| <= |s|;
    TrimKeepsNoneForbidden(d);
  }

  lemma {:induction false} TrimKeepsNoneForbidden(d: string)
    requires NoneForbidden(d)
    ensures NoneForbidden(Trim(d))
  {
    var r := Trim(d);
    if r != "" {
      var i, j := LeadingBlanks(d), |d| - TrailingBlanks(d);
      assert r == d[i..j];
      assert forall k :: 0 <= k < |r| ==> r[k] == d[i + k];
    }
  }

  /** A name made only of dots, or only of blanks, sanitizes to "". */
  lemma {:induction false} DotsOrBlanksOnly(s: string)
    requires (forall k :: 0 <= k < |s| ==> s[k] == '.') || (forall k :: 0 <= k < |s| ==> s[k] <= ' ')
    ensures SanitizeFileName(Some(s)) == ""
  {
    var f := ReplaceForbidden(s);
    if forall k :: 0 <= k < |s| ==> s[k] == '.' {
      assert forall k :: 0 <= k < |f| ==> f[k] == '.';
    } else {
      assert forall k :: 0 <= k < |f| ==> f[k] <= ' ' && f[k] != '.';
      assert StripDots(f) == f;
    }
  }

  /** A name that is already clean comes back unchanged. */
  lemma {:induction false} CleanNameUnchanged(s: string)
    requires NoneForbidden(s)
    requires |s| > 0 ==> s[0] != '.' && s[0] > ' ' && s[|s| - 1] != '.' && s[|s| - 1] > ' '
    ensures SanitizeFileName(Some(s)) == s
  {
    var f := ReplaceForbidden(s);
    assert f == s;
    assert StripDots(f) == s;
    if |s| > 0 {
      assert LeadingBlanks(s) == 0;
      assert TrailingBlanks(s) == 0;
      assert Trim(s) == s[0..|s|];
    }
  }

  /**
   * As written, dots are removed before blanks, so a dot behind a leading
   * blank survives: " .x" becomes ".x", a name that starts with a dot.
   */
  lemma {:induction false} LeadingDotSurvives()
    ensures SanitizeFileName(Some(" .x")) == ".x"
  {
    var f := ReplaceForbidden(" .x");
    assert f == " .x";
    assert LeadingDots(f) == 0 && TrailingDots(f) == 0;
    assert StripDots(f) == " .x";
    assert LeadingBlanks(" .x") == 1 && TrailingBlanks(" .x") == 0;
  }

  // ---------------------------------------------------------------- the intended rule

  /** A character the comment "remove leading/trailing dots and spaces" means to strip. */
  predicate Strippable(c: char) { c == '.' || c <= ' ' }

  function LeadingStrippable(s: string): (n: nat)
    ensures n <= |s|
    ensures forall k :: 0 <= k < n ==> Strippable(s[k])
    ensures n < |s| ==> !Strippable(s[n])
  {
    if |s| > 0 && Strippable(s[0]) then 1 + LeadingStrippable(s[1..]) else 0
  }

  function TrailingStrippable(s: string): (n: nat)
    ensures n <= |s|
    ensures forall k :: |s| - n <= k < |s| ==> Strippable(s[k])
    ensures n < |s| ==> !Strippable(s[|s| - n - 1])
  {
    if |s| > 0 && Strippable(s[|s| - 1]) then 1 + TrailingStrippable(s[..|s| - 1]) else 0
  }

  /**
   * The sanitizer as its comment describes it: dots and blanks are stripped
   * together from both ends, so the result neither starts nor ends with
   * either, whatever order they come in.
   */
  function SanitizeFileNameIntended(name: Option<string>): (r: string)
    ensures name.None? ==> r == ""
    ensures name.Some? ==> NoneForbidden(r) && |r| <= |name.value|
    ensures |r| > 0 ==> !Strippable(r[0]) && !Strippable(r[|r| - 1])
    ensures name.Some? ==> (r == "" <==> forall k :: 0 <= k < |name.value| ==> Strippable(name.value[k]))
  {
    if name.None? then ""
    else
      var f := ReplaceForbidden(name.value);
      var rest := f[LeadingStrippable(f)..];
      assert |rest| > 0 ==> !Strippable(rest[0]);
      assert forall k :: 0 <= k < |f| ==> (Strippable(f[k]) <==> Strippable(name.value[k]));
      rest[..|rest| - TrailingStrippable(rest)]
  }

  /** The intended rule agrees with the written one on names without a dot next to a blank at either end. */
  lemma {:induction false} IntendedAgreesOnCleanNames(s: string)
    requires NoneForbidden(s)
    requires |s| > 0 ==> s[0] != '.' && s[0] > ' ' && s[|s| - 1] != '.' && s[|s| - 1] > ' '
    ensures SanitizeFileNameIntended(Some(s)) == SanitizeFileName(Some(s)) == s
  {
    CleanNameUnchanged(s);
    var f := ReplaceForbidden(s);
    assert f == s;
    assert LeadingStrippable(s) == 0;
  }

  /** The intended rule strips " .x" to "x". */
  lemma {:induction false} IntendedStripsLeadingDot()
    ensures SanitizeFileNameIntended(Some(" .x")) == "x"
  {
    var f := ReplaceForbidden(" .x");
    assert f == " .x";
    assert LeadingStrippable(f) == 2;
    assert TrailingStrippable("x") == 0;
  }
}
