/**
 * What the fill-in-the-gaps display text looks like for a well-formed
 * template: literal segments without '{' separated by one marker per gap,
 * either numbered from 0, numbered from 1, or all "{}".
 */
module GapTemplates {
  import opened Wrappers
  import opened Text
  import opened FillInTheGaps

  predicate BraceFree(s: string) { forall i :: 0 <= i < |s| ==> s[i] != '{' }

  predicate AllBraceFree(ss: seq<string>) { forall i :: 0 <= i < |ss| ==> BraceFree(ss[i]) }

  /** segments[0] fills[0] segments[1] fills[1] ... fills[n-1] segments[n]. */
  function Interleave(segments: seq<string>, fills: seq<string>): string
    requires |segments| == |fills| + 1
    decreases |fills|
  {
    if |fills| == 0 then segments[0]
    else segments[0] + fills[0] + Interleave(segments[1..], fills[1..])
  }

  /**
   * No text that begins with `f` begins with `t`: `f` opens with a brace,
   * has no other one, and disagrees with `t` where both are defined.
   */
  predicate Blocks(f: string, t: string)
  {
    |f| > 0 && f[0] == '{' && BraceFree(f[1..]) &&
    (if |f| >= |t| then f[..|t|] != t else t[..|f|] != f)
  }

  /** Every fill is `t` itself, brace-free, or a marker that cannot be mistaken for `t`. */
  predicate Passable(fills: seq<string>, t: string)
  {
    forall i :: 0 <= i < |fills| ==> fills[i] == t || BraceFree(fills[i]) || Blocks(fills[i], t)
  }

  /** `fills` with every entry equal to `t` replaced by `r`. */
  function Substitute(fills: seq<string>, t: string, r: string): (res: seq<string>)
    ensures |res| == |fills|
    ensures forall i :: 0 <= i < |fills| ==> res[i] == (if fills[i] == t then r else fills[i])
  {
    seq(|fills|, i requires 0 <= i < |fills| => if fills[i] == t then r else fills[i])
  }

  // ---------------------------------------------------------------- scanning past pieces

  lemma {:induction false} NotStartsWith(f: string, rest: string, t: string)
    requires Blocks(f, t) && |f + rest| >= |t|
    ensures (f + rest)[..|t|] != t
  {
    if |f| < |t| {
      assert (f + rest)[..|t|][..|f|] == f;
    } else {
      assert (f + rest)[..|t|] == f[..|t|];
    }
  }

  /** A marker that is not `t` is copied through by ReplaceAll. */
  lemma {:induction false} ReplaceAllBlocked(f: string, rest: string, t: string, r: string)
    requires |t| > 0 && t[0] == '{' && Blocks(f, t)
    ensures ReplaceAll(f + rest, t, r) == f + ReplaceAll(rest, t, r)
  {
    var s := f + rest;
    if |s| < |t| {
      assert ReplaceAll(rest, t, r) == rest;
    } else {
      assert ReplaceAll(s, t, r) == [s[0]] + ReplaceAll(f[1..] + rest, t, r) by {
        NotStartsWith(f, rest, t);
        assert s[1..] == f[1..] + rest;
      }
      assert ReplaceAll(f[1..] + rest, t, r) == f[1..] + ReplaceAll(rest, t, r) by {
        ReplaceAllSkip(f[1..], rest, t, r);
      }
      assert [s[0]] + (f[1..] + ReplaceAll(rest, t, r)) == f + ReplaceAll(rest, t, r) by {
        assert f == [f[0]] + f[1..];
      }
    }
  }

  /** A marker that is not `t` holds no occurrence of `t`. */
  lemma {:induction false} IndexOfBlocked(f: string, rest: string, t: string)
    requires |t| > 0 && t[0] == '{' && Blocks(f, t)
    ensures IndexOf(f + rest, t).None? <==> IndexOf(rest, t).None?
  {
    var s := f + rest;
    if |s| >= |t| {
      NotStartsWith(f, rest, t);
      assert s[1..] == f[1..] + rest;
      IndexOfSkip(f[1..], rest, t);
    }
  }

  /** Where `a` has no `t[0]`, the first `t` in a + rest is the first `t` in rest. */
  lemma {:induction false} ReplaceFirstSkip(a: string, rest: string, t: string, r: string)
    requires |t| > 0
    requires forall i :: 0 <= i < |a| ==> a[i] != t[0]
    ensures ReplaceFirst(a + rest, t, r) == a + ReplaceFirst(rest, t, r)
  {
    IndexOfSkip(a, rest, t);
    if IndexOf(rest, t).Some? {
      var k := IndexOf(rest, t).value;
      ReplaceFirstShifted(a, rest, t, r, k);
    }
  }

  lemma {:induction false} ReplaceFirstShifted(a: string, rest: string, t: string, r: string, k: nat)
    requires IndexOf(rest, t) == Some(k) && IndexOf(a + rest, t) == Some(|a| + k)
    ensures ReplaceFirst(a + rest, t, r) == a + ReplaceFirst(rest, t, r)
  {
    ReplaceFirstAt(a + rest, t, r, |a| + k);
    ReplaceFirstAt(rest, t, r, k);
    SliceOfConcat(a, rest, k);
    SliceOfConcat(a, rest, k + |t|);
    Assoc(a, rest[..k], r, rest[k + |t|..]);
  }

  /** ReplaceFirst at the position IndexOf found. */
  lemma {:induction false} ReplaceFirstAt(s: string, t: string, r: string, i: nat)
    requires IndexOf(s, t) == Some(i)
    ensures i + |t| <= |s| && ReplaceFirst(s, t, r) == s[..i] + r + s[i + |t|..]
  {
  }

  lemma {:induction false} SliceOfConcat(a: string, b: string, k: nat)
    requires k <= |b|
    ensures (a + b)[..|a| + k] == a + b[..k] && (a + b)[|a| + k..] == b[k..]
  {
  }

  lemma {:induction false} Assoc(a: string, b: string, c: string, d: string)
    ensures (a + b) + c + d == a + (b + c + d)
  {
  }

  lemma {:induction false} ReplaceFirstHere(t: string, rest: string, r: string)
    ensures ReplaceFirst(t + rest, t, r) == r + rest
  {
    IndexOfHere(t, rest);
    assert (t + rest)[|t|..] == rest;
  }

  // ---------------------------------------------------------------- replacing inside a template

  lemma {:induction false} InterleaveCons(segs: seq<string>, fills: seq<string>)
    requires |segs| == |fills| + 1 && |fills| > 0
    ensures Interleave(segs, fills) == segs[0] + (fills[0] + Interleave(segs[1..], fills[1..]))
  {
  }

  /** ReplaceAll on one fill followed by more text. */
  lemma {:induction false} ReplaceAllFill(f: string, tail: string, t: string, r: string)
    requires |t| > 0 && t[0] == '{'
    requires f == t || BraceFree(f) || Blocks(f, t)
    ensures ReplaceAll(f + tail, t, r) == (if f == t then r else f) + ReplaceAll(tail, t, r)
  {
    if f == t {
      ReplaceAllHere(t, tail, r);
    } else if BraceFree(f) {
      ReplaceAllSkip(f, tail, t, r);
    } else {
      ReplaceAllBlocked(f, tail, t, r);
    }
  }

  /** ReplaceAll of `t` acts on the fills alone: every fill equal to `t` becomes `r`. */
  lemma {:induction false} ReplaceAllInterleave(segs: seq<string>, fills: seq<string>, t: string, r: string)
    requires |t| > 0 && t[0] == '{' && |segs| == |fills| + 1
    requires AllBraceFree(segs) && Passable(fills, t)
    ensures ReplaceAll(Interleave(segs, fills), t, r) == Interleave(segs, Substitute(fills, t, r))
    decreases |fills|
  {
    assert BraceFree(segs[0]);
    if |fills| == 0 {
      ReplaceAllSkip(segs[0], "", t, r);
      assert segs[0] + "" == segs[0];
    } else {
      var tail := Interleave(segs[1..], fills[1..]);
      var sub := Substitute(fills, t, r);
      ReplaceAllInterleave(segs[1..], fills[1..], t, r);
      assert sub[1..] == Substitute(fills[1..], t, r);
      ReplaceAllFill(fills[0], tail, t, r);
      ReplaceAllSkip(segs[0], fills[0] + tail, t, r);
      InterleaveCons(segs, fills);
      InterleaveCons(segs, sub);
    }
  }

  /** A template none of whose fills is `t` does not contain `t`. */
  lemma {:induction false} IndexOfInterleave(segs: seq<string>, fills: seq<string>, t: string)
    requires |t| > 0 && t[0] == '{' && |segs| == |fills| + 1
    requires AllBraceFree(segs) && Passable(fills, t)
    requires forall i :: 0 <= i < |fills| ==> fills[i] != t
    ensures IndexOf(Interleave(segs, fills), t) == None
    decreases |fills|
  {
    if |fills| == 0 {
      IndexOfSkip(segs[0], "", t);
      assert segs[0] + "" == segs[0];
    } else {
      var tail := Interleave(segs[1..], fills[1..]);
      IndexOfInterleave(segs[1..], fills[1..], t);
      var f := fills[0];
      if BraceFree(f) {
        IndexOfSkip(f, tail, t);
      } else {
        IndexOfBlocked(f, tail, t);
      }
      IndexOfSkip(segs[0], f + tail, t);
      assert Interleave(segs, fills) == segs[0] + (f + tail);
    }
  }

  /** A template whose first fill is `t` contains `t`. */
  lemma {:induction false} IndexOfInterleaveFirst(segs: seq<string>, fills: seq<string>, t: string)
    requires |t| > 0 && t[0] == '{' && |segs| == |fills| + 1 && |fills| > 0
    requires BraceFree(segs[0]) && fills[0] == t
    ensures IndexOf(Interleave(segs, fills), t).Some?
  {
    var tail := Interleave(segs[1..], fills[1..]);
    IndexOfHere(t, tail);
    IndexOfSkip(segs[0], t + tail, t);
    assert Interleave(segs, fills) == segs[0] + (t + tail);
  }

  /** ReplaceFirst of `t` fills the first fill equal to `t`, at index k. */
  lemma {:induction false} ReplaceFirstInterleave(segs: seq<string>, fills: seq<string>, t: string, r: string, k: nat)
    requires |t| > 0 && t[0] == '{' && |segs| == |fills| + 1 && k < |fills|
    requires AllBraceFree(segs) && fills[k] == t
    requires forall j :: 0 <= j < k ==> BraceFree(fills[j])
    ensures ReplaceFirst(Interleave(segs, fills), t, r) == Interleave(segs, fills[k := r])
    decreases k
  {
    var tail := Interleave(segs[1..], fills[1..]);
    var f := fills[0];
    var fills' := fills[k := r];
    assert BraceFree(segs[0]);
    InterleaveCons(segs, fills);
    InterleaveCons(segs, fills');
    ReplaceFirstSkip(segs[0], f + tail, t, r);
    if k == 0 {
      ReplaceFirstHere(t, tail, r);
      assert fills'[1..] == fills[1..];
    } else {
      ReplaceFirstInterleave(segs[1..], fills[1..], t, r, k - 1);
      ReplaceFirstSkip(f, tail, t, r);
      assert fills'[1..] == fills[1..][k - 1 := r];
    }
  }

  // ---------------------------------------------------------------- markers

  /** Markers from, from + 1, ..., from + n - 1. */
  function Markers(from: nat, n: nat): (m: seq<string>)
    ensures |m| == n && forall k :: 0 <= k < n ==> m[k] == Marker(k + from)
  {
    seq(n, k requires 0 <= k < n => Marker(k + from))
  }

  /** n empty markers "{}". */
  function Empties(n: nat): (m: seq<string>)
    ensures |m| == n && forall k :: 0 <= k < n ==> m[k] == "{}"
  {
    seq(n, k => "{}")
  }

  lemma {:induction false} MarkerShape(n: nat)
    ensures Marker(n) == "{" + NatToString(n) + "}"
    ensures Marker(n)[0] == '{' && BraceFree(Marker(n)[1..])
  {
    var d := NatToString(n);
    assert Marker(n)[1..] == d + "}";
    assert forall i :: 0 <= i < |d| ==> IsDigit(d[i]);
  }

  /** Two different numbered markers never begin the same way. */
  lemma {:induction false} MarkerBlocks(a: nat, b: nat)
    requires a != b
    ensures Blocks(Marker(b), Marker(a)) && Marker(a) != Marker(b)
  {
    MarkerShape(a);
    MarkerShape(b);
    DigitsOfNatToString(a);
    DigitsOfNatToString(b);
    BracedBlocks(NatToString(a), NatToString(b));
  }

  lemma {:induction false} BracedBlocks(da: string, db: string)
    requires AllDigits(da) && AllDigits(db) && da != db
    ensures Blocks("{" + db + "}", "{" + da + "}") && "{" + da + "}" != "{" + db + "}"
  {
    var ma, mb := "{" + da + "}", "{" + db + "}";
    assert mb[1..] == db + "}";
    assert ma[1..|da| + 1] == da && mb[1..|db| + 1] == db;
    if |db| == |da| {
      assert mb[..|ma|] == mb;
    } else if |db| > |da| {
      assert IsDigit(db[|da|]);
      assert mb[..|ma|][|da| + 1] == db[|da|];
      assert ma[|da| + 1] == '}';
    } else {
      assert IsDigit(da[|db|]);
      assert ma[..|mb|][|db| + 1] == da[|db|];
      assert mb[|db| + 1] == '}';
    }
  }

  /** Every marker opens with a brace, and no two can be mistaken for each other. */
  predicate DistinctMarkers(ms: seq<string>)
  {
    (forall a :: 0 <= a < |ms| ==> |ms[a]| > 0 && ms[a][0] == '{') &&
    (forall a, b :: 0 <= a < |ms| && 0 <= b < |ms| && a != b ==> Blocks(ms[b], ms[a]) && ms[a] != ms[b])
  }

  lemma {:induction false} MarkersDistinct(o: nat, n: nat)
    ensures DistinctMarkers(Markers(o, n))
  {
    MarkersBraced(o, n);
    NumeralsDistinct(o, n);
    BracedDistinct(Numerals(o, n));
  }

  /** The decimal numerals of from, from + 1, ..., from + n - 1. */
  function Numerals(from: nat, n: nat): (ds: seq<string>)
    ensures |ds| == n && forall k :: 0 <= k < n ==> ds[k] == NatToString(k + from)
  {
    seq(n, k requires 0 <= k < n => NatToString(k + from))
  }

  lemma {:induction false} MarkersBraced(o: nat, n: nat)
    ensures Markers(o, n) == Braced(Numerals(o, n))
  {
    forall k | 0 <= k < n ensures Markers(o, n)[k] == Braced(Numerals(o, n))[k] {
      MarkerShape(k + o);
    }
  }

  lemma {:induction false} NumeralsDistinct(o: nat, n: nat)
    ensures forall k :: 0 <= k < n ==> AllDigits(Numerals(o, n)[k])
    ensures forall a, b :: 0 <= a < n && 0 <= b < n && a != b ==> Numerals(o, n)[a] != Numerals(o, n)[b]
  {
    var ds := Numerals(o, n);
    forall a, b | 0 <= a < n && 0 <= b < n && a != b ensures ds[a] != ds[b] {
      DigitsOfNatToString(a + o);
      DigitsOfNatToString(b + o);
    }
  }

  /** Each of `ds` between braces. */
  function Braced(ds: seq<string>): (ms: seq<string>)
    ensures |ms| == |ds| && forall k :: 0 <= k < |ds| ==> ms[k] == "{" + ds[k] + "}"
  {
    seq(|ds|, k requires 0 <= k < |ds| => "{" + ds[k] + "}")
  }

  /** Distinct digit strings between braces make distinct markers. */
  lemma {:induction false} BracedDistinct(ds: seq<string>)
    requires forall k :: 0 <= k < |ds| ==> AllDigits(ds[k])
    requires forall a, b :: 0 <= a < |ds| && 0 <= b < |ds| && a != b ==> ds[a] != ds[b]
    ensures DistinctMarkers(Braced(ds))
  {
    var ms := Braced(ds);
    forall a, b | 0 <= a < |ds| && 0 <= b < |ds| && a != b ensures Blocks(ms[b], ms[a]) && ms[a] != ms[b] {
      BracedBlocks(ds[a], ds[b]);
    }
  }

  /** The gaps after the first i markers were replaced by reps[..i]. */
  function Progress(reps: seq<string>, ms: seq<string>, i: nat): (fills: seq<string>)
    requires i <= |reps| <= |ms|
    ensures |fills| == |ms|
    ensures forall j :: 0 <= j < |ms| ==> fills[j] == if j < i then reps[j] else ms[j]
  {
    seq(|ms|, j requires 0 <= j < |ms| => if j < i then reps[j] else ms[j])
  }

  /** Numbered replacement puts reps[k] at marker k, for every k. */
  lemma {:induction false} ReplaceNumberedInterleave(segs: seq<string>, reps: seq<string>, o: nat, n: nat)
    requires |segs| == n + 1 && AllBraceFree(segs) && AllBraceFree(reps) && |reps| <= n
    ensures ReplaceNumbered(Interleave(segs, Markers(o, n)), reps, 0, o)
         == Interleave(segs, reps + Markers(o, n)[|reps|..])
  {
    var ms := Markers(o, n);
    MarkersDistinct(o, n);
    var texts := seq(|reps| + 1, k requires 0 <= k <= |reps| => Interleave(segs, Progress(reps, ms, k)));
    forall k | 0 <= k < |reps| ensures ReplaceAll(texts[k], Marker(k + o), reps[k]) == texts[k + 1] {
      MarkerStep(segs, reps, ms, k);
    }
    ReplaceNumberedSteps(texts, reps, o, 0);
    assert Progress(reps, ms, 0) == ms;
    assert Progress(reps, ms, |reps|) == reps + ms[|reps|..];
  }

  /** ReplaceNumbered walks through texts[i], texts[i + 1], ... when each step leads to the next. */
  lemma {:induction false} ReplaceNumberedSteps(texts: seq<string>, reps: seq<string>, o: nat, i: nat)
    requires |texts| == |reps| + 1 && i <= |reps|
    requires forall k :: i <= k < |reps| ==> ReplaceAll(texts[k], Marker(k + o), reps[k]) == texts[k + 1]
    ensures ReplaceNumbered(texts[i], reps, i, o) == texts[|reps|]
    decreases |reps| - i
  {
    if i < |reps| {
      ReplaceNumberedSteps(texts, reps, o, i + 1);
    }
  }

  /** Replacing marker i puts reps[i] into gap i and nothing else changes. */
  lemma {:induction false} MarkerStep(segs: seq<string>, reps: seq<string>, ms: seq<string>, i: nat)
    requires |segs| == |ms| + 1 && AllBraceFree(segs) && AllBraceFree(reps) && DistinctMarkers(ms)
    requires |reps| <= |ms| && i < |reps|
    ensures ReplaceAll(Interleave(segs, Progress(reps, ms, i)), ms[i], reps[i])
         == Interleave(segs, Progress(reps, ms, i + 1))
  {
    var fills, t, after := Progress(reps, ms, i), ms[i], Progress(reps, ms, i + 1);
    assert Passable(fills, t) by {
      forall j | 0 <= j < |ms| ensures fills[j] == t || BraceFree(fills[j]) || Blocks(fills[j], t) {
        MarkerGap(reps, ms, i, j);
      }
    }
    assert Substitute(fills, t, reps[i]) == after by {
      forall j | 0 <= j < |ms| ensures Substitute(fills, t, reps[i])[j] == after[j] {
        MarkerGap(reps, ms, i, j);
      }
    }
    ReplaceAllInterleave(segs, fills, t, reps[i]);
  }

  /** Gap j while marker i is replaced: an earlier word, marker i itself, or a later marker. */
  lemma {:induction false} MarkerGap(reps: seq<string>, ms: seq<string>, i: nat, j: nat)
    requires AllBraceFree(reps) && DistinctMarkers(ms) && |reps| <= |ms| && i < |reps| && j < |ms|
    ensures var fills, t := Progress(reps, ms, i), ms[i];
      (fills[j] == t || BraceFree(fills[j]) || Blocks(fills[j], t)) &&
      (if fills[j] == t then reps[i] else fills[j]) == Progress(reps, ms, i + 1)[j]
  {
    var fills, t, after := Progress(reps, ms, i), ms[i], Progress(reps, ms, i + 1);
    if j < i {
      assert fills[j] == reps[j] && after[j] == reps[j];
      assert BraceFree(reps[j]);
      assert reps[j] != t by {
        if |reps[j]| > 0 { assert reps[j][0] != '{'; }
      }
    } else if j > i {
      assert fills[j] == ms[j] && after[j] == ms[j];
      assert Blocks(ms[j], ms[i]) && ms[i] != ms[j];
    }
  }

  /** FillSimple, from word k on, puts words[j] at the j-th "{}". */
  lemma {:induction false} FillSimpleInterleave(segs: seq<string>, words: seq<string>, n: nat, k: nat)
    requires |segs| == n + 1 && AllBraceFree(segs) && AllBraceFree(words)
    requires |words| <= n && k <= |words|
    ensures FillSimple(Interleave(segs, words[..k] + Empties(n)[k..]), words[k..])
         == Interleave(segs, words + Empties(n)[|words|..])
    decreases |words| - k
  {
    var e := Empties(n);
    if k == |words| {
      assert words[..k] == words;
    } else {
      var fills := words[..k] + e[k..];
      ReplaceFirstInterleave(segs, fills, "{}", words[k], k);
      assert fills[k := words[k]] == words[..k + 1] + e[k + 1..];
      assert words[k..][1..] == words[k + 1..];
      FillSimpleInterleave(segs, words, n, k + 1);
    }
  }

  // ---------------------------------------------------------------- the two views

  /** The three ways of writing gaps: "{0}" "{1}" ..., "{1}" "{2}" ..., or "{}" "{}" .... */
  datatype Style = ZeroBased | OneBased | Unnumbered

  function GapMarkers(style: Style, n: nat): (m: seq<string>)
    ensures |m| == n
  {
    match style
    case ZeroBased => Markers(0, n)
    case OneBased => Markers(1, n)
    case Unnumbered => Empties(n)
  }

  /** `template` is `segs` with n gap markers of one style between them. */
  predicate WellFormed(template: string, segs: seq<string>, style: Style, n: nat)
  {
    |segs| == n + 1 && AllBraceFree(segs) && template == Interleave(segs, GapMarkers(style, n)) &&
    (style != Unnumbered ==> n > 0)
  }

  /** The numbering of a well-formed template is told apart correctly. */
  lemma {:induction false} StyleDetected(template: string, segs: seq<string>, style: Style, n: nat)
    requires WellFormed(template, segs, style, n)
    ensures IsNumbered(template) <==> style != Unnumbered
    ensures style == ZeroBased ==> FirstNumber(template) == 0
    ensures style == OneBased ==> FirstNumber(template) == 1
  {
    MarkerShape(0);
    MarkerShape(1);
    assert Marker(0) == "{0}" && Marker(1) == "{1}";
    var fills := GapMarkers(style, n);
    match style {
      case ZeroBased =>
        IndexOfInterleaveFirst(segs, fills, "{0}");
      case OneBased =>
        forall j | 0 <= j < n ensures Blocks(fills[j], "{0}") && fills[j] != "{0}" {
          MarkerBlocks(0, j + 1);
        }
        IndexOfInterleave(segs, fills, "{0}");
        IndexOfInterleaveFirst(segs, fills, "{1}");
      case Unnumbered =>
        assert Blocks("{}", "{0}") && Blocks("{}", "{1}");
        IndexOfInterleave(segs, fills, "{0}");
        IndexOfInterleave(segs, fills, "{1}");
    }
  }

  lemma {:induction false} BracketedBraceFree(words: seq<string>)
    requires AllBraceFree(words)
    ensures AllBraceFree(Bracketed(words))
  {
    forall i | 0 <= i < |words| ensures BraceFree(Bracketed(words)[i]) {
      assert BraceFree(words[i]);
    }
  }

  /**
   * In a well-formed template the play view shows, at gap i, "[word]"
   * once gap i is filled and the placeholder before, and the template's
   * text everywhere else.
   */
  lemma {:induction false} PlaceholderViewShowsGaps(template: string, segs: seq<string>, style: Style,
                                 correctWords: seq<string>, filled: seq<string>, placeholder: string)
    requires WellFormed(template, segs, style, |correctWords|)
    requires AllBraceFree(filled) && BraceFree(placeholder) && |filled| <= |correctWords|
    ensures PlaceholderView(template, correctWords, filled, placeholder)
         == Interleave(segs, GapTexts(correctWords, filled, placeholder))
  {
    StyleDetected(template, segs, style, |correctWords|);
    if style == Unnumbered {
      UnnumberedPlaceholderView(segs, correctWords, filled, placeholder);
    } else {
      NumberedPlaceholderView(segs, if style == ZeroBased then 0 else 1, correctWords, filled, placeholder);
    }
  }

  lemma {:induction false} UnnumberedPlaceholderView(segs: seq<string>, correctWords: seq<string>,
                                                     filled: seq<string>, placeholder: string)
    requires |segs| == |correctWords| + 1 && AllBraceFree(segs)
    requires AllBraceFree(filled) && |filled| <= |correctWords|
    ensures ReplaceAll(FillSimple(Interleave(segs, Empties(|correctWords|)), Bracketed(filled)), "{}", placeholder)
         == Interleave(segs, GapTexts(correctWords, filled, placeholder))
  {
    var n := |correctWords|;
    var gaps := GapTexts(correctWords, filled, placeholder);
    var words := Bracketed(filled);
    var e := Empties(n);
    BracketedBraceFree(filled);
    assert words[..0] + e[0..] == e;
    FillSimpleInterleave(segs, words, n, 0);
    var fills := words + e[|words|..];
    forall j | 0 <= j < n
      ensures fills[j] == "{}" || BraceFree(fills[j])
      ensures Substitute(fills, "{}", placeholder)[j] == gaps[j]
    {
      if j < |filled| {
        assert BraceFree(words[j]);
        assert fills[j][0] == '[';
      }
    }
    ReplaceAllInterleave(segs, fills, "{}", placeholder);
    assert Substitute(fills, "{}", placeholder) == gaps;
  }

  lemma {:induction false} NumberedPlaceholderView(segs: seq<string>, o: nat, correctWords: seq<string>,
                                                   filled: seq<string>, placeholder: string)
    requires |segs| == |correctWords| + 1 && AllBraceFree(segs)
    requires AllBraceFree(filled) && BraceFree(placeholder) && |filled| <= |correctWords|
    ensures ReplaceNumbered(Interleave(segs, Markers(o, |correctWords|)), GapTexts(correctWords, filled, placeholder), 0, o)
         == Interleave(segs, GapTexts(correctWords, filled, placeholder))
  {
    var n := |correctWords|;
    var gaps := GapTexts(correctWords, filled, placeholder);
    forall j | 0 <= j < n ensures BraceFree(gaps[j]) {
      if j < |filled| { assert BraceFree(filled[j]); }
    }
    ReplaceNumberedInterleave(segs, gaps, o, n);
    assert gaps + Markers(o, n)[n..] == gaps;
  }

  /**
   * In a well-formed template the finished view shows the i-th filled word
   * at gap i and leaves the markers of the gaps not yet filled as written.
   */
  lemma {:induction false} FilledViewShowsWords(template: string, segs: seq<string>, style: Style, n: nat, filled: seq<string>)
    requires WellFormed(template, segs, style, n)
    requires AllBraceFree(filled) && |filled| <= n
    ensures FilledView(template, filled) == Interleave(segs, filled + GapMarkers(style, n)[|filled|..])
  {
    StyleDetected(template, segs, style, n);
    if style == Unnumbered {
      assert filled[..0] + Empties(n)[0..] == Empties(n);
      FillSimpleInterleave(segs, filled, n, 0);
    } else {
      var o := if style == ZeroBased then 0 else 1;
      assert GapMarkers(style, n) == Markers(o, n);
      NumberedFilledView(segs, o, n, filled);
    }
  }

  lemma {:induction false} NumberedFilledView(segs: seq<string>, o: nat, n: nat, filled: seq<string>)
    requires |segs| == n + 1 && AllBraceFree(segs) && AllBraceFree(filled) && |filled| <= n
    ensures ReplaceNumbered(Interleave(segs, Markers(o, n)), filled, 0, o)
         == Interleave(segs, filled + Markers(o, n)[|filled|..])
  {
    ReplaceNumberedInterleave(segs, filled, o, n);
  }
}
