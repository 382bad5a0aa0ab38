/**
 * The compact ("TOON") challenge format GeminiContentProcessor asks the
 * language model to answer in, with short keys: "t" title, "d"
 * description, "cn" containers, and per container "ty" type, "in"
 * instructions, "e" explanation and the per-type keys. validateToonChallenge
 * rejects an answer that breaks the per-type guidelines; expandChallenge
 * and expandContainer rename the short keys to the ones
 * ContentContainerFactory reads.
 */
module Toon {
  import opened Wrappers
  import opened Text
  import opened Json
  import opened Containers
  import opened ContainerFactory
  import SubjectGeneration

  // ---------------------------------------------------------------- validateToonChallenge

  predicate AllStrings(a: seq<Json>)
  {
    forall j :: 0 <= j < |a| ==> a[j].JStr?
  }

  /** Every element read with getInt lies in [0, n). */
  predicate IndicesBelow(a: seq<Json>, n: int)
  {
    forall j :: 0 <= j < |a| ==> a[j].JInt? && 0 <= a[j].n < n
  }

  /** The option set of the FILL_IN_THE_GAPS check: every word option, lower-cased. */
  function LowerSet(a: seq<Json>): set<string>
    requires AllStrings(a)
  {
    set j | 0 <= j < |a| :: ToLower(a[j].s)
  }

  /** Every correct word is a string whose lower-case form is in `options`. */
  predicate WordsIn(cw: seq<Json>, options: set<string>)
  {
    forall j :: 0 <= j < |cw| ==> cw[j].JStr? && ToLower(cw[j].s) in options
  }

  /** Every word is equal, ignoring case, to one of the options. */
  predicate AmongIgnoringCase(words: seq<string>, options: seq<string>)
  {
    forall j :: 0 <= j < |words| ==> exists k :: 0 <= k < |options| && ToLower(words[j]) == ToLower(options[k])
  }

  /** The gap marker "{j}". */
  function Marker(j: int): string
  {
    "{" + IntToString(j) + "}"
  }

  predicate HasMarkers(tt: string, n: int)
  {
    forall j :: 1 <= j <= n ==> Contains(tt, Marker(j))
  }

  /** cm maps the left index j, written in decimal, to an int in [0, n). */
  predicate MappedBelow(cm: Object, j: int, n: int)
  {
    IntToString(j) in cm && cm[IntToString(j)].JInt? && 0 <= cm[IntToString(j)].n < n
  }

  /** The MULTIPLE_CHOICE_QUIZ guideline; every key it reads must be present. */
  function ChoicePasses(o: Object): (r: bool)
    ensures r ==> "q" in o && "os" in o && "ci" in o
  {
    OptString(o, "q", "") != "" &&
    GetArray(o, "os").Some? && |GetArray(o, "os").value| >= 2 &&
    GetArray(o, "ci").Some? && |GetArray(o, "ci").value| > 0 &&
    IndicesBelow(GetArray(o, "ci").value, |GetArray(o, "os").value|)
  }

  /** The FILL_IN_THE_GAPS guideline; every key it reads must be present. */
  function GapsPasses(o: Object): (r: bool)
    ensures r ==> "tt" in o && "cw" in o && "wo" in o
  {
    OptString(o, "tt", "") != "" &&
    GetArray(o, "cw").Some? && |GetArray(o, "cw").value| > 0 &&
    GetArray(o, "wo").Some? && |GetArray(o, "wo").value| > 0 &&
    AllStrings(GetArray(o, "wo").value) &&
    WordsIn(GetArray(o, "cw").value, LowerSet(GetArray(o, "wo").value)) &&
    HasMarkers(OptString(o, "tt", ""), |GetArray(o, "cw").value|)
  }

  /** The SORTING_TASK guideline; every key it reads must be present. */
  function SortingPasses(o: Object): (r: bool)
    ensures r ==> "co" in o
  {
    GetArray(o, "co").Some? && |GetArray(o, "co").value| >= 3
  }

  /** The ERROR_SPOTTING guideline; every key it reads must be present. */
  function ErrorSpottingPasses(o: Object): (r: bool)
    ensures r ==> "is" in o && "ei" in o
  {
    GetArray(o, "is").Some? && |GetArray(o, "is").value| >= 3 &&
    0 <= OptInt(o, "ei", -1) < |GetArray(o, "is").value|
  }

  /** The REVERSE_QUIZ guideline; every key it reads must be present. */
  function ReverseQuizPasses(o: Object): (r: bool)
    ensures r ==> "a" in o && "qo" in o && "cqi" in o
  {
    OptString(o, "a", "") != "" &&
    GetArray(o, "qo").Some? && |GetArray(o, "qo").value| >= 2 &&
    0 <= OptInt(o, "cqi", -1) < |GetArray(o, "qo").value|
  }

  /** The WIRE_CONNECTING guideline; every key it reads must be present. */
  function WiringPasses(o: Object): (r: bool)
    ensures r ==> "li" in o && "ri" in o && "cm" in o
  {
    GetArray(o, "li").Some? && GetArray(o, "ri").Some? && GetObject(o, "cm").Some? &&
    |GetArray(o, "li").value| == |GetArray(o, "ri").value| >= 3 &&
    forall j :: 0 <= j < |GetArray(o, "li").value| ==> MappedBelow(GetObject(o, "cm").value, j, |GetArray(o, "ri").value|)
  }

  /**
   * The guideline check of one element of "cn": it must be an object, and
   * its type, matched exactly, decides what else it needs; a type the
   * check does not list passes.
   */
  function ContainerPasses(c: Json): (r: bool)
    ensures r ==> c.JObj?
    ensures c.JObj? && OptString(c.fields, "ty", "") !in CHECKED_TYPES ==> r
  {
    c.JObj? &&
    var o := c.fields;
    var ty := OptString(o, "ty", "");
    if ty == "TITLE" then OptString(o, "t", "") != ""
    else if ty == "TEXT" then OptString(o, "tx", "") != ""
    else if ty == "MULTIPLE_CHOICE_QUIZ" then ChoicePasses(o)
    else if ty == "FILL_IN_THE_GAPS" then GapsPasses(o)
    else if ty == "SORTING_TASK" then SortingPasses(o)
    else if ty == "ERROR_SPOTTING" then ErrorSpottingPasses(o)
    else if ty == "REVERSE_QUIZ" then ReverseQuizPasses(o)
    else if ty == "WIRE_CONNECTING" then WiringPasses(o)
    else true
  }

  /** The types validateToonChallenge has a guideline for. */
  const CHECKED_TYPES: seq<string> := ["TITLE", "TEXT", "MULTIPLE_CHOICE_QUIZ", "FILL_IN_THE_GAPS",
    "SORTING_TASK", "ERROR_SPOTTING", "REVERSE_QUIZ", "WIRE_CONNECTING"]

  /** validateToonChallenge: a non-empty title, a non-empty "cn" array, and every container passing. */
  function ValidToon(o: Object): (r: bool)
    ensures r ==> "t" in o && o["t"].JStr? && "cn" in o && o["cn"].JArr?
    ensures r ==> forall i :: 0 <= i < |o["cn"].items| ==> o["cn"].items[i].JObj?
  {
    OptString(o, "t", "") != "" &&
    GetArray(o, "cn").Some? && |GetArray(o, "cn").value| > 0 &&
    forall i :: 0 <= i < |GetArray(o, "cn").value| ==> ContainerPasses(GetArray(o, "cn").value[i])
  }

  /** The ci loop: getInt(j) throws on a non-int, and an index out of range stops the check. */
  method CheckIndices(ci: seq<Json>, n: int) returns (ok: bool)
    ensures ok == IndicesBelow(ci, n)
  {
    var j := 0;
    while j < |ci|
      invariant 0 <= j <= |ci|
      invariant IndicesBelow(ci[..j], n)
    {
      if !ci[j].JInt? || ci[j].n < 0 || ci[j].n >= n {
        assert !(ci[j].JInt? && 0 <= ci[j].n < n);
        return false;
      }
      j := j + 1;
    }
    assert ci[..j] == ci;
    return true;
  }

  /** The loop that fills optionsSet; getString(j) throws on a non-string. */
  method OptionsSet(wo: seq<Json>) returns (ok: bool, options: set<string>)
    ensures ok == AllStrings(wo)
    ensures ok ==> options == LowerSet(wo)
  {
    options := {};
    var j := 0;
    while j < |wo|
      invariant 0 <= j <= |wo|
      invariant AllStrings(wo[..j])
      invariant options == LowerSet(wo[..j])
    {
      if !wo[j].JStr? {
        return false, options;
      }
      assert wo[..j + 1] == wo[..j] + [wo[j]];
      assert LowerSet(wo[..j + 1]) == LowerSet(wo[..j]) + {ToLower(wo[j].s)} by {
        forall w | w in LowerSet(wo[..j + 1])
          ensures w in LowerSet(wo[..j]) + {ToLower(wo[j].s)}
        {
          var k :| 0 <= k < j + 1 && w == ToLower(wo[..j + 1][k].s);
          if k < j {
            assert wo[..j + 1][k] == wo[..j][k];
          }
        }
        forall w | w in LowerSet(wo[..j])
          ensures w in LowerSet(wo[..j + 1])
        {
          var k :| 0 <= k < j && w == ToLower(wo[..j][k].s);
          assert wo[..j][k] == wo[..j + 1][k];
        }
        assert wo[..j + 1][j] == wo[j];
      }
      options := options + {ToLower(wo[j].s)};
      j := j + 1;
    }
    assert wo[..j] == wo;
    return true, options;
  }

  /** The cw loop: each correct word, lower-cased, must be in the option set. */
  method CheckWords(cw: seq<Json>, options: set<string>) returns (ok: bool)
    ensures ok == WordsIn(cw, options)
  {
    var j := 0;
    while j < |cw|
      invariant 0 <= j <= |cw|
      invariant WordsIn(cw[..j], options)
    {
      if !cw[j].JStr? || ToLower(cw[j].s) !in options {
        assert !(cw[j].JStr? && ToLower(cw[j].s) in options);
        return false;
      }
      j := j + 1;
    }
    assert cw[..j] == cw;
    return true;
  }

  /** The marker loop, for j = 1 .. n. */
  method CheckMarkers(tt: string, n: int) returns (ok: bool)
    ensures ok == HasMarkers(tt, n)
  {
    var j := 1;
    while j <= n
      invariant 1 <= j <= (if n < 1 then 1 else n + 1)
      invariant forall k :: 1 <= k < j ==> Contains(tt, Marker(k))
    {
      if !Contains(tt, Marker(j)) {
        return false;
      }
      j := j + 1;
    }
    return true;
  }

  /** The cm loop: every left index must be a key whose int value is a right index. */
  method CheckMatches(cm: Object, n: int, m: int) returns (ok: bool)
    ensures ok == forall j :: 0 <= j < n ==> MappedBelow(cm, j, m)
  {
    var j := 0;
    while j < n
      invariant 0 <= j <= (if n < 0 then 0 else n)
      invariant forall k :: 0 <= k < j ==> MappedBelow(cm, k, m)
    {
      var key := IntToString(j);
      if key !in cm || !cm[key].JInt? || cm[key].n < 0 || cm[key].n >= m {
        assert !MappedBelow(cm, j, m);
        return false;
      }
      j := j + 1;
    }
    return true;
  }

  /** The body of the container loop of validateToonChallenge, for one element. */
  method CheckContainer(c: Json) returns (ok: bool)
    ensures ok == ContainerPasses(c)
  {
    if !c.JObj? {
      return false;
    }
    var o := c.fields;
    var ty := OptString(o, "ty", "");
    if ty == "TITLE" {
      ok := OptString(o, "t", "") != "";
    } else if ty == "TEXT" {
      ok := OptString(o, "tx", "") != "";
    } else if ty == "MULTIPLE_CHOICE_QUIZ" {
      var os, ci := GetArray(o, "os"), GetArray(o, "ci");
      if OptString(o, "q", "") == "" || os.None? || |os.value| < 2 || ci.None? || |ci.value| == 0 {
        return false;
      }
      ok := CheckIndices(ci.value, |os.value|);
    } else if ty == "FILL_IN_THE_GAPS" {
      var tt, cw, wo := OptString(o, "tt", ""), GetArray(o, "cw"), GetArray(o, "wo");
      if tt == "" || cw.None? || |cw.value| == 0 || wo.None? || |wo.value| == 0 {
        return false;
      }
      var strings, options := OptionsSet(wo.value);
      if !strings {
        return false;
      }
      ok := CheckWords(cw.value, options);
      if ok {
        ok := CheckMarkers(tt, |cw.value|);
      }
    } else if ty == "SORTING_TASK" {
      var co := GetArray(o, "co");
      ok := co.Some? && |co.value| >= 3;
    } else if ty == "ERROR_SPOTTING" {
      var items := GetArray(o, "is");
      if items.None? || |items.value| < 3 {
        return false;
      }
      var ei := OptInt(o, "ei", -1);
      ok := 0 <= ei < |items.value|;
    } else if ty == "REVERSE_QUIZ" {
      if OptString(o, "a", "") == "" {
        return false;
      }
      var qo := GetArray(o, "qo");
      if qo.None? || |qo.value| < 2 {
        return false;
      }
      var cqi := OptInt(o, "cqi", -1);
      ok := 0 <= cqi < |qo.value|;
    } else if ty == "WIRE_CONNECTING" {
      var li, ri, cm := GetArray(o, "li"), GetArray(o, "ri"), GetObject(o, "cm");
      if li.None? || ri.None? || cm.None? || |li.value| != |ri.value| || |li.value| < 3 {
        return false;
      }
      ok := CheckMatches(cm.value, |li.value|, |ri.value|);
    } else {
      ok := true;
    }
  }

  /** validateToonChallenge: stops at the first container that fails. */
  method ValidateToonChallenge(o: Object) returns (ok: bool)
    ensures ok == ValidToon(o)
  {
    if OptString(o, "t", "") == "" {
      return false;
    }
    var cn := GetArray(o, "cn");
    if cn.None? || |cn.value| == 0 {
      return false;
    }
    var i := 0;
    while i < |cn.value|
      invariant 0 <= i <= |cn.value|
      invariant forall k :: 0 <= k < i ==> ContainerPasses(cn.value[k])
    {
      var passes := CheckContainer(cn.value[i]);
      if !passes {
        return false;
      }
      i := i + 1;
    }
    return true;
  }

  // ---------------------------------------------------------------- expandContainer / expandChallenge

  /** expandContainer's outcomes: the expanded object, null, or a JSONException. */
  datatype Expansion = Expanded(fields: Object) | Dropped | Failed

  const UNTITLED_CHALLENGE: string := "Untitled Challenge"
  const NO_QUESTION: string := "No question provided"
  const NO_TEMPLATE: string := "No template provided"
  const NO_ANSWER: string := "No answer provided"
  const RECAP_TITLE: string := "Recap"

  /** `optJSONArray(key) != null ? getJSONArray(key) : new JSONArray()` */
  function ArrayOrEmpty(o: Object, key: string): Json
  {
    if GetArray(o, key).Some? then o[key] else JArr([])
  }

  /** `optJSONObject(key) != null ? getJSONObject(key) : new JSONObject()` */
  function ObjectOrEmpty(o: Object, key: string): Json
  {
    if GetObject(o, key).Some? then o[key] else JObj(map[])
  }

  /** The keys every expanded container starts with: its type, then instructions and explanationText when given. */
  function Common(o: Object, ty: string): (r: Object)
    ensures "type" in r && r["type"] == JStr(ty)
    ensures "instructions" in r <==> "in" in o
    ensures "in" in o ==> "instructions" in r && r["instructions"] == o["in"]
    ensures "explanationText" in r <==> "e" in o
    ensures "wrappedContainer" !in r
  {
    var m := map["type" := JStr(ty)];
    var m := if "in" in o then m["instructions" := o["in"]] else m;
    if "e" in o then m["explanationText" := JStr(OptString(o, "e", ""))] else m
  }

  /** The keys of the type's own fields, renamed from the short ones, with the code's defaults. */
  function TypeFields(o: Object, ty: string): (r: Object)
    ensures "type" !in r && "instructions" !in r && "explanationText" !in r && "wrappedContainer" !in r
  {
    if ty == "TITLE" then map["title" := JStr(OptString(o, "t", ""))]
    else if ty == "TEXT" then map["text" := JStr(OptString(o, "tx", ""))]
    else if ty == "MULTIPLE_CHOICE_QUIZ" then
      map["question" := JStr(OptString(o, "q", NO_QUESTION)), "options" := ArrayOrEmpty(o, "os"),
          "correctAnswerIndices" := ArrayOrEmpty(o, "ci"), "allowMultipleAnswers" := JBool(OptBool(o, "am", false))]
    else if ty == "FILL_IN_THE_GAPS" then
      map["textTemplate" := JStr(OptString(o, "tt", NO_TEMPLATE)), "correctWords" := ArrayOrEmpty(o, "cw"),
          "wordOptions" := ArrayOrEmpty(o, "wo")]
    else if ty == "SORTING_TASK" then map["correctOrder" := ArrayOrEmpty(o, "co")]
    else if ty == "ERROR_SPOTTING" then map["items" := ArrayOrEmpty(o, "is"), "errorIndex" := JInt(OptInt(o, "ei", 0))]
    else if ty == "REVERSE_QUIZ" then
      map["answer" := JStr(OptString(o, "a", NO_ANSWER)), "questionOptions" := ArrayOrEmpty(o, "qo"),
          "correctQuestionIndex" := JInt(OptInt(o, "cqi", 0))]
    else if ty == "WIRE_CONNECTING" then
      map["leftItems" := ArrayOrEmpty(o, "li"), "rightItems" := ArrayOrEmpty(o, "ri"),
          "correctMatches" := ObjectOrEmpty(o, "cm")]
    else if ty == "RECAP" then map["recapTitle" := JStr(OptString(o, "rt", RECAP_TITLE))]
    else map[]
  }

  /**
   * expandContainer: null when "ty" is missing or empty; a JSONException
   * when "in" is not a string, or when a RECAP's "wc" is not an object or
   * its own expansion throws; otherwise the object with the long keys. A
   * RECAP wraps the expansion of "wc" only when that is not null.
   */
  function ExpandContainer(o: Object): (r: Expansion)
    ensures r.Dropped? <==> OptString(o, "ty", "") == ""
    ensures r.Failed? ==> ("in" in o && !o["in"].JStr?) || (OptString(o, "ty", "") == "RECAP" && "wc" in o)
    ensures OptString(o, "ty", "") != "" && OptString(o, "ty", "") != "RECAP" && ("in" in o ==> o["in"].JStr?) ==> r.Expanded?
    ensures r.Expanded? ==> "type" in r.fields && r.fields["type"] == JStr(OptString(o, "ty", ""))
    ensures r.Expanded? ==> ("instructions" in r.fields <==> "in" in o)
    ensures r.Expanded? && "in" in o ==> "instructions" in r.fields && r.fields["instructions"] == o["in"] && o["in"].JStr?
    ensures r.Expanded? ==> ("explanationText" in r.fields <==> "e" in o)
    ensures r.Expanded? && "wrappedContainer" in r.fields ==>
      OptString(o, "ty", "") == "RECAP" && GetObject(o, "wc").Some? && r.fields["wrappedContainer"].JObj?
    decreases JObj(o)
  {
    var ty := OptString(o, "ty", "");
    if ty == "" then Dropped
    else if "in" in o && !o["in"].JStr? then Failed
    else
      var e := Common(o, ty) + TypeFields(o, ty);
      if ty != "RECAP" || "wc" !in o then Expanded(e)
      else match GetObject(o, "wc")
        case None => Failed
        case Some(inner) =>
          match ExpandContainer(inner)
          case Failed => Failed
          case Dropped => Expanded(e)
          case Expanded(w) => Expanded(e["wrappedContainer" := JObj(w)])
  }

  /** The containers expandChallenge keeps: the non-null expansions, in order; a non-object element and a throwing one are skipped. */
  function ExpandAll(items: seq<Json>): (r: seq<Json>)
    ensures |r| <= |items|
    ensures forall k :: 0 <= k < |r| ==>
      r[k].JObj? && "type" in r[k].fields && r[k].fields["type"].JStr? && r[k].fields["type"].s != ""
    decreases |items|
  {
    if |items| == 0 then []
    else
      var init := ExpandAll(items[..|items| - 1]);
      var last := items[|items| - 1];
      if last.JObj? && ExpandContainer(last.fields).Expanded? then init + [JObj(ExpandContainer(last.fields).fields)]
      else init
  }

  /**
   * expandChallenge: the title defaults to "Untitled Challenge"; a present
   * "d" must be a string and a present "cn" an array, or the call throws
   * (None).
   */
  function ExpandChallenge(o: Object): (r: Option<Object>)
    ensures r.None? <==> ("d" in o && !o["d"].JStr?) || ("cn" in o && !o["cn"].JArr?)
    ensures r.Some? ==> "title" in r.value && r.value["title"] == JStr(OptString(o, "t", UNTITLED_CHALLENGE))
    ensures r.Some? ==> ("description" in r.value <==> "d" in o)
    ensures r.Some? && "d" in o ==> "description" in r.value && r.value["description"] == o["d"]
    ensures r.Some? ==> ("containers" in r.value <==> "cn" in o)
  {
    if "d" in o && !o["d"].JStr? then None
    else if "cn" in o && !o["cn"].JArr? then None
    else
      var title := map["title" := JStr(OptString(o, "t", UNTITLED_CHALLENGE))];
      var base := if "d" in o then title["description" := o["d"]] else title;
      if "cn" in o then Some(base["containers" := JArr(ExpandAll(o["cn"].items))]) else Some(base)
  }

  /** expandChallenge with its container loop. */
  method ExpandChallengeObject(o: Object) returns (r: Option<Object>)
    ensures r == ExpandChallenge(o)
  {
    var expanded := map["title" := JStr(OptString(o, "t", UNTITLED_CHALLENGE))];
    if "d" in o {
      if !o["d"].JStr? {
        return None;
      }
      expanded := expanded["description" := o["d"]];
    }
    if "cn" in o {
      if !o["cn"].JArr? {
        return None;
      }
      var cn := o["cn"].items;
      var containers: seq<Json> := [];
      var i := 0;
      while i < |cn|
        invariant 0 <= i <= |cn|
        invariant containers == ExpandAll(cn[..i])
      {
        assert cn[..i + 1][..i] == cn[..i];
        if cn[i].JObj? {
          var x := ExpandContainer(cn[i].fields);
          if x.Expanded? {
            containers := containers + [JObj(x.fields)];
          }
        }
        i := i + 1;
      }
      assert cn[..i] == cn;
      expanded := expanded["containers" := JArr(containers)];
    }
    return Some(expanded);
  }

  // ---------------------------------------------------------------- properties

  /** The kept containers keep their order: expanding two runs is expanding each. */
  lemma {:induction false} ExpandAllAppend(a: seq<Json>, b: seq<Json>)
    ensures ExpandAll(a + b) == ExpandAll(a) + ExpandAll(b)
    decreases |b|
  {
    if |b| == 0 {
      assert a + b == a;
    } else {
      var b0 := b[..|b| - 1];
      assert (a + b)[..|a + b| - 1] == a + b0;
      assert (a + b)[|a + b| - 1] == b[|b| - 1];
      ExpandAllAppend(a, b0);
    }
  }

  /** When every element is an object that expands, every one is kept, in place. */
  lemma {:induction false} ExpandAllKeepsEvery(items: seq<Json>)
    requires forall k :: 0 <= k < |items| ==> items[k].JObj? && ExpandContainer(items[k].fields).Expanded?
    ensures |ExpandAll(items)| == |items|
    ensures forall k :: 0 <= k < |items| ==> ExpandAll(items)[k] == JObj(ExpandContainer(items[k].fields).fields)
    decreases |items|
  {
    if |items| > 0 {
      var init := items[..|items| - 1];
      var last := items[|items| - 1];
      forall k | 0 <= k < |init|
        ensures init[k].JObj? && ExpandContainer(init[k].fields).Expanded?
      {
        assert init[k] == items[k];
      }
      ExpandAllKeepsEvery(init);
      var r := ExpandAll(items);
      assert r == ExpandAll(init) + [JObj(ExpandContainer(last.fields).fields)];
      forall k | 0 <= k < |items|
        ensures r[k] == JObj(ExpandContainer(items[k].fields).fields)
      {
        if k < |init| {
          assert items[k] == init[k];
          assert r[k] == ExpandAll(init)[k];
        }
      }
    }
  }

  /** An element that is not an object, or whose type is empty, is dropped from the list. */
  lemma {:induction false} UntypedSkipped(a: seq<Json>, c: Json, b: seq<Json>)
    requires !c.JObj? || OptString(c.fields, "ty", "") == ""
    ensures ExpandAll(a + [c] + b) == ExpandAll(a) + ExpandAll(b)
  {
    ExpandAllAppend(a + [c], b);
    assert (a + [c])[..|a + [c]| - 1] == a;
  }

  /**
   * An answer that passes validation, and whose "d" is a string if given,
   * expands without throwing, into at most one container per element of "cn".
   */
  lemma {:induction false} ValidatedExpands(o: Object)
    requires ValidToon(o) && ("d" in o ==> o["d"].JStr?)
    ensures ExpandChallenge(o).Some?
    ensures var e := ExpandChallenge(o).value;
      "containers" in e && e["containers"].JArr? && |e["containers"].items| <= |o["cn"].items|
  {
  }

  /**
   * The expanded challenge is what parseChallenge reads: its title, the
   * description ("" when "d" is absent), and a container list exactly
   * when "cn" was given. Only a container whose correctMatches key
   * parseInt rejects makes the parse fail.
   */
  lemma {:induction false} ExpandedChallengeParses(o: Object, next: int, order: KeyOrder)
    requires ExpandChallenge(o).Some?
    ensures var e := ExpandChallenge(o).value;
      var (c, _) := SubjectGeneration.ParseChallenge(e, next, order);
      (c.None? ==> GetArray(e, "containers").Some? && SubjectGeneration.ParseContainers(GetArray(e, "containers").value, next, order).3) &&
      (c.Some? ==>
         c.value.title == OptString(o, "t", UNTITLED_CHALLENGE) &&
         c.value.description == OptString(o, "d", "") &&
         (c.value.containerlist.Some? <==> "cn" in o))
  {
    var e := ExpandChallenge(o).value;
    assert SubjectGeneration.UNTITLED_CHALLENGE == UNTITLED_CHALLENGE;
    assert GetArray(e, "containers").Some? <==> "cn" in o;
  }

  /** A TITLE expands into what the factory builds a TITLE from, with the title of "t" ("" when absent). */
  lemma {:induction false} ExpandedTitleBuilds(c: Object, next: int, order: KeyOrder)
    requires OptString(c, "ty", "") == "TITLE" && ("in" in c ==> c["in"].JStr?)
    ensures ExpandContainer(c).Expanded?
    ensures Create(ExpandContainer(c).fields, next, order) ==
      (Built(Container(next, TitleContent(OptString(c, "t", "")))), next + 1)
  {
    var e := ExpandContainer(c).fields;
    assert TypeName(TITLE) == "TITLE";
    CreateOfTag(e, next, order, TITLE);
  }

  /** A TEXT expands into what the factory builds a TEXT from. */
  lemma {:induction false} ExpandedTextBuilds(c: Object, next: int, order: KeyOrder)
    requires OptString(c, "ty", "") == "TEXT" && ("in" in c ==> c["in"].JStr?)
    ensures ExpandContainer(c).Expanded?
    ensures Create(ExpandContainer(c).fields, next, order) ==
      (Built(Container(next, TextContent(OptString(c, "tx", "")))), next + 1)
  {
    var e := ExpandContainer(c).fields;
    assert TypeName(TEXT) == "TEXT";
    CreateOfTag(e, next, order, TEXT);
  }

  /**
   * A multiple-choice quiz that passes validation, and whose options are
   * strings, builds a quiz with at least two options, at least one correct
   * index, and every correct index naming an option.
   */
  lemma {:induction false} ValidatedChoiceBuilds(c: Object, next: int, order: KeyOrder)
    requires OptString(c, "ty", "") == "MULTIPLE_CHOICE_QUIZ" && ("in" in c ==> c["in"].JStr?)
    requires ContainerPasses(JObj(c)) && AllStrings(c["os"].items)
    ensures ExpandContainer(c).Expanded?
    ensures var (out, after) := Create(ExpandContainer(c).fields, next, order);
      after == next + 1 && out.Built? && out.container.id == next && out.container.content.MultipleChoiceContent? &&
      var q := out.container.content.quiz;
      q.question == OptString(c, "q", "") != "" &&
      |q.options| == |c["os"].items| >= 2 && |q.correctAnswerIndices| > 0 &&
      (forall k :: 0 <= k < |q.correctAnswerIndices| ==> 0 <= q.correctAnswerIndices[k] < |q.options|) &&
      q.allowMultipleAnswers == OptBool(c, "am", false) &&
      q.explanationText == (if "e" in c then Some(OptString(c, "e", "")) else None) &&
      q.userSelectedIndices == []
  {
    var ty := "MULTIPLE_CHOICE_QUIZ";
    ExpandedOf(c, ty);
    ChoiceFields(c);
    var e := ExpandContainer(c).fields;
    assert TypeName(MULTIPLE_CHOICE_QUIZ) == ty;
    CreateOfTag(e, next, order, MULTIPLE_CHOICE_QUIZ);
    assert ChoicePasses(c);
    var os, ci := c["os"].items, c["ci"].items;
    assert e["options"] == JArr(os) && e["correctAnswerIndices"] == JArr(ci);
    assert StringsAt(e, "options").Some?;
    assert IntsAt(e, "correctAnswerIndices").Some?;
    var built := CreateMultipleChoiceQuiz(next, e);
    assert built.Built?;
    var q := built.container.content.quiz;
    assert |q.options| == |os|;
    assert forall k :: 0 <= k < |ci| ==> JInt(q.correctAnswerIndices[k]) == ci[k];
  }

  /** The fields a multiple-choice quiz expands to, with the code's defaults. */
  lemma {:induction false} ChoiceFields(c: Object)
    ensures var e := Common(c, "MULTIPLE_CHOICE_QUIZ") + TypeFields(c, "MULTIPLE_CHOICE_QUIZ");
      e["type"] == JStr("MULTIPLE_CHOICE_QUIZ") &&
      "question" in e && e["question"] == JStr(OptString(c, "q", NO_QUESTION)) &&
      "options" in e && e["options"] == ArrayOrEmpty(c, "os") &&
      "correctAnswerIndices" in e && e["correctAnswerIndices"] == ArrayOrEmpty(c, "ci") &&
      "allowMultipleAnswers" in e && e["allowMultipleAnswers"] == JBool(OptBool(c, "am", false)) &&
      ("explanationText" in e <==> "e" in c) &&
      ("e" in c ==> "explanationText" in e && e["explanationText"] == JStr(OptString(c, "e", "")))
  {
    var tf := TypeFields(c, "MULTIPLE_CHOICE_QUIZ");
    assert tf == map["question" := JStr(OptString(c, "q", NO_QUESTION)), "options" := ArrayOrEmpty(c, "os"),
      "correctAnswerIndices" := ArrayOrEmpty(c, "ci"), "allowMultipleAnswers" := JBool(OptBool(c, "am", false))];
  }

  /** The fields of a RECAP before its wrapped container is added. */
  lemma {:induction false} RecapFields(c: Object)
    ensures var e := Common(c, "RECAP") + TypeFields(c, "RECAP");
      "type" in e && e["type"] == JStr("RECAP") &&
      "recapTitle" in e && e["recapTitle"] == JStr(OptString(c, "rt", RECAP_TITLE)) &&
      "wrappedContainer" !in e
  {
    assert TypeFields(c, "RECAP") == map["recapTitle" := JStr(OptString(c, "rt", RECAP_TITLE))];
  }

  /** A container with a type other than RECAP and a string or no "in" expands to the common and the type's own fields. */
  lemma {:induction false} ExpandedOf(c: Object, ty: string)
    requires OptString(c, "ty", "") == ty && ty != "" && ty != "RECAP" && ("in" in c ==> c["in"].JStr?)
    ensures ExpandContainer(c) == Expanded(Common(c, ty) + TypeFields(c, ty))
  {
  }

  /**
   * A fill-in-the-gaps exercise that passes validation builds one whose
   * every correct word is among the word options ignoring case, and whose
   * template carries the markers {1} .. {n} for its n correct words.
   */
  lemma {:induction false} ValidatedGapsBuild(c: Object, next: int, order: KeyOrder)
    requires OptString(c, "ty", "") == "FILL_IN_THE_GAPS" && ("in" in c ==> c["in"].JStr?)
    requires ContainerPasses(JObj(c))
    ensures ExpandContainer(c).Expanded?
    ensures var (out, after) := Create(ExpandContainer(c).fields, next, order);
      after == next + 1 && out.Built? && out.container.content.FillInTheGapsContent? &&
      var g := out.container.content.gaps;
      g.textTemplate == OptString(c, "tt", "") && |g.correctWords| > 0 && |g.wordOptions| > 0 &&
      AmongIgnoringCase(g.correctWords, g.wordOptions) &&
      HasMarkers(g.textTemplate, |g.correctWords|) &&
      g.userFilledWords == [] && g.currentGapIndex == 0
  {
    var ty := "FILL_IN_THE_GAPS";
    ExpandedOf(c, ty);
    var tf := TypeFields(c, ty);
    var e := Common(c, ty) + tf;
    assert TypeName(FILL_IN_THE_GAPS) == ty;
    CreateOfTag(e, next, order, FILL_IN_THE_GAPS);
    assert GapsPasses(c);
    var cw, wo := c["cw"].items, c["wo"].items;
    assert tf["textTemplate"] == JStr(OptString(c, "tt", ""));
    assert tf["correctWords"] == JArr(cw) && tf["wordOptions"] == JArr(wo);
    assert e["correctWords"] == JArr(cw) && e["wordOptions"] == JArr(wo);
    assert StringsAt(e, "correctWords").Some? && StringsAt(e, "wordOptions").Some?;
    var built := CreateFillInTheGaps(next, e);
    var g := built.container.content.gaps;
    assert |g.correctWords| == |cw| && |g.wordOptions| == |wo|;
    forall j | 0 <= j < |g.correctWords|
      ensures exists k :: 0 <= k < |g.wordOptions| && ToLower(g.correctWords[j]) == ToLower(g.wordOptions[k])
    {
      assert JStr(g.correctWords[j]) == cw[j];
      assert ToLower(cw[j].s) in LowerSet(wo);
      var k :| 0 <= k < |wo| && ToLower(cw[j].s) == ToLower(wo[k].s);
      assert JStr(g.wordOptions[k]) == wo[k];
    }
    assert Create(ExpandContainer(c).fields, next, order) == (built, next + 1);
    assert built.Built? && g.userFilledWords == [] && g.currentGapIndex == 0;
    assert g.textTemplate == OptString(c, "tt", "");
    assert HasMarkers(g.textTemplate, |g.correctWords|);
    assert |g.correctWords| > 0 && |g.wordOptions| > 0;
    assert AmongIgnoringCase(g.correctWords, g.wordOptions);
  }

  /**
   * A sorting task that passes validation and carries its instructions
   * builds one with at least three items, shown in the correct order.
   */
  lemma {:induction false} ValidatedSortingBuilds(c: Object, next: int, order: KeyOrder)
    requires OptString(c, "ty", "") == "SORTING_TASK" && "in" in c && c["in"].JStr?
    requires ContainerPasses(JObj(c)) && AllStrings(c["co"].items)
    ensures ExpandContainer(c).Expanded?
    ensures var (out, after) := Create(ExpandContainer(c).fields, next, order);
      after == next + 1 && out.Built? && out.container.content.SortingTaskContent? &&
      var s := out.container.content.sorting;
      s.instructions == c["in"].s && |s.correctOrder| == |c["co"].items| >= 3 && s.currentOrder == s.correctOrder
  {
    var e := ExpandContainer(c).fields;
    assert TypeName(SORTING_TASK) == "SORTING_TASK";
    CreateOfTag(e, next, order, SORTING_TASK);
    assert e["correctOrder"] == c["co"];
    assert StringsAt(e, "correctOrder").Some?;
  }

  /**
   * An error-spotting exercise that passes validation and carries its
   * instructions builds one whose error index names one of its items.
   */
  lemma {:induction false} ValidatedErrorSpottingBuilds(c: Object, next: int, order: KeyOrder)
    requires OptString(c, "ty", "") == "ERROR_SPOTTING" && "in" in c && c["in"].JStr?
    requires ContainerPasses(JObj(c)) && AllStrings(c["is"].items)
    ensures ExpandContainer(c).Expanded?
    ensures var (out, after) := Create(ExpandContainer(c).fields, next, order);
      after == next + 1 && out.Built? && out.container.content.ErrorSpottingContent? &&
      var s := out.container.content.spotting;
      |s.items| >= 3 && 0 <= s.errorIndex < |s.items| && s.errorIndex == c["ei"].n && s.userSelectedIndex == -1
  {
    var e := ExpandContainer(c).fields;
    assert TypeName(ERROR_SPOTTING) == "ERROR_SPOTTING";
    CreateOfTag(e, next, order, ERROR_SPOTTING);
    assert e["items"] == c["is"];
    assert StringsAt(e, "items").Some?;
    assert e["errorIndex"] == JInt(c["ei"].n);
  }

  /** A reverse quiz that passes validation builds one whose correct index names one of its question options. */
  lemma {:induction false} ValidatedReverseQuizBuilds(c: Object, next: int, order: KeyOrder)
    requires OptString(c, "ty", "") == "REVERSE_QUIZ" && ("in" in c ==> c["in"].JStr?)
    requires ContainerPasses(JObj(c)) && AllStrings(c["qo"].items)
    ensures ExpandContainer(c).Expanded?
    ensures var (out, after) := Create(ExpandContainer(c).fields, next, order);
      after == next + 1 && out.Built? && out.container.content.ReverseQuizContent? &&
      var q := out.container.content.reverse;
      q.answer == OptString(c, "a", "") != "" && |q.questionOptions| >= 2 &&
      0 <= q.correctQuestionIndex < |q.questionOptions| && q.userSelectedIndex == -1
  {
    var e := ExpandContainer(c).fields;
    assert TypeName(REVERSE_QUIZ) == "REVERSE_QUIZ";
    CreateOfTag(e, next, order, REVERSE_QUIZ);
    assert e["questionOptions"] == c["qo"];
    assert StringsAt(e, "questionOptions").Some?;
    assert e["correctQuestionIndex"] == JInt(c["cqi"].n);
  }

  /**
   * Validation does not ask for "in", and expandContainer treats it as
   * optional, but the factory requires instructions of a sorting task, an
   * error-spotting exercise and a wire-connecting exercise: without "in"
   * such a container, valid or not, makes createFromJson throw.
   */
  lemma {:induction false} InstructionsRequired(c: Object, next: int, order: KeyOrder)
    requires OptString(c, "ty", "") in {"SORTING_TASK", "ERROR_SPOTTING", "WIRE_CONNECTING"} && "in" !in c
    ensures ExpandContainer(c).Expanded?
    ensures Create(ExpandContainer(c).fields, next, order) == (Outcome.Threw, next + 1)
  {
    var e := ExpandContainer(c).fields;
    assert "instructions" !in e;
    var ty := OptString(c, "ty", "");
    if ty == "SORTING_TASK" {
      assert TypeName(SORTING_TASK) == "SORTING_TASK";
      CreateOfTag(e, next, order, SORTING_TASK);
    } else if ty == "ERROR_SPOTTING" {
      assert TypeName(ERROR_SPOTTING) == "ERROR_SPOTTING";
      CreateOfTag(e, next, order, ERROR_SPOTTING);
    } else {
      assert TypeName(WIRE_CONNECTING) == "WIRE_CONNECTING";
      CreateOfTag(e, next, order, WIRE_CONNECTING);
    }
  }

  /** A RECAP whose "wc" expands to w keeps w as its wrapped container. */
  lemma {:induction false} ExpandedRecapOf(c: Object, inner: Object, w: Object)
    requires OptString(c, "ty", "") == "RECAP" && ("in" in c ==> c["in"].JStr?)
    requires "wc" in c && c["wc"] == JObj(inner) && ExpandContainer(inner) == Expanded(w)
    ensures ExpandContainer(c) == Expanded((Common(c, "RECAP") + TypeFields(c, "RECAP"))["wrappedContainer" := JObj(w)])
  {
    assert GetObject(c, "wc") == Some(inner);
  }

  /**
   * A RECAP wrapping a TITLE expands into a recap the factory builds with
   * id n, titled by "rt" ("Recap" when absent), around the title with id n + 1.
   */
  lemma {:induction false} ExpandedRecapOfTitle(c: Object, inner: Object, next: int, order: KeyOrder)
    requires OptString(c, "ty", "") == "RECAP" && ("in" in c ==> c["in"].JStr?)
    requires "wc" in c && c["wc"] == JObj(inner)
    requires OptString(inner, "ty", "") == "TITLE" && ("in" in inner ==> inner["in"].JStr?)
    ensures ExpandContainer(c).Expanded?
    ensures Create(ExpandContainer(c).fields, next, order) ==
      (Built(Container(next, RecapContent(Some(OptString(c, "rt", RECAP_TITLE)),
        Some(Container(next + 1, TitleContent(OptString(inner, "t", ""))))))), next + 2)
  {
    ExpandedTitleBuilds(inner, next + 1, order);
    var w := ExpandContainer(inner).fields;
    ExpandedRecapOf(c, inner, w);
    RecapFields(c);
    var e := (Common(c, "RECAP") + TypeFields(c, "RECAP"))["wrappedContainer" := JObj(w)];
    var title := OptString(c, "rt", RECAP_TITLE);
    assert GetString(e, "type") == Some("RECAP");
    assert OptionalString(e, "recapTitle") == Some(Some(title));
    assert GetObject(e, "wrappedContainer") == Some(w);
    RecapAround(e, next, order, title, w);
  }

  /** A RECAP whose "wc" has no type keeps no wrapped container, and the factory builds an empty recap. */
  lemma {:induction false} RecapOfUntyped(c: Object, inner: Object, next: int, order: KeyOrder)
    requires OptString(c, "ty", "") == "RECAP" && ("in" in c ==> c["in"].JStr?)
    requires "wc" in c && c["wc"] == JObj(inner) && OptString(inner, "ty", "") == ""
    ensures ExpandContainer(c).Expanded? && "wrappedContainer" !in ExpandContainer(c).fields
    ensures Create(ExpandContainer(c).fields, next, order) ==
      (Built(Container(next, RecapContent(Some(OptString(c, "rt", RECAP_TITLE)), None))), next + 1)
  {
    var e := ExpandContainer(c).fields;
    assert OptionalString(e, "recapTitle") == Some(Some(OptString(c, "rt", RECAP_TITLE)));
    assert TypeName(RECAP) == "RECAP";
    KindOfTypeName(RECAP);
  }
}
