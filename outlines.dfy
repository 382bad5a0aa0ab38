/**
 * GeminiContentProcessor's records of the generation pipeline, and the
 * three readers of the model's structural answers: parseSemanticSections
 * (stage 0), parseTopicOutlines (stage 1) and parseChallengeOutlines
 * (stage 2a). An answer is the text the model returned, parsed: a text
 * starting with "[" is read as a JSON array, any other as a JSON object,
 * and a text that is neither throws a JSONException. Here an answer is the
 * Json value it parses to, JArr or JObj; any other value stands for a
 * text that does not parse, and every reader gives None for it.
 */
module Outlines {
  import opened Wrappers
  import opened Text
  import opened Json

  datatype PageContent = PageContent(pageNumber: int, text: string)

  /** A document with its text page by page; an image carries its inline-data part instead. */
  datatype DocumentContent = DocumentContent(fileName: string, pages: seq<PageContent>, isImage: bool, imageData: Object)

  datatype SemanticSection = SemanticSection(title: string, fileName: string, startPage: int, endPage: int)
  datatype SectionRef = SectionRef(fileName: string, startPage: int, endPage: int)
  datatype TopicOutline = TopicOutline(title: string, sectionRefs: seq<SectionRef>)
  datatype ChallengeOutline = ChallengeOutline(title: string, description: string)

  /** The default title of the item at 0-based position i: "Section 1", "Topic 2", ... */
  function Numbered(prefix: string, i: int): string
  {
    prefix + IntToString(i + 1)
  }

  predicate AllObjects(items: seq<Json>)
  {
    forall i :: 0 <= i < |items| ==> items[i].JObj?
  }

  // ---------------------------------------------------------------- parseSemanticSections

  /** The loop over "data", "items", "results": the first key present must hold an array; none present gives []. */
  function FirstArray(o: Object, keys: seq<string>): (r: Option<seq<Json>>)
    ensures (forall k :: 0 <= k < |keys| ==> keys[k] !in o) ==> r == Some([])
    ensures r.Some? && r.value != [] ==> exists k :: 0 <= k < |keys| && keys[k] in o && o[keys[k]] == JArr(r.value)
    decreases |keys|
  {
    if |keys| == 0 then Some([])
    else if keys[0] in o then GetArray(o, keys[0])
    else FirstArray(o, keys[1..])
  }

  /**
   * The array the sections are read from: a top-level array; the
   * "sections" array; the object itself when it has "s"; or the first of
   * "data", "items", "results" that is present.
   */
  function SectionItems(response: Json): Option<seq<Json>>
  {
    match response
    case JArr(items) => Some(items)
    case JObj(o) =>
      if "sections" in o then GetArray(o, "sections")
      else if "s" in o then Some([response])
      else FirstArray(o, ["data", "items", "results"])
    case _ => None
  }

  /** One section: "s" or "title", "f" or "file", "sp" or "startPage" (1), "ep" or "endPage" (the start page). */
  function SectionOf(item: Object, i: int, documents: seq<DocumentContent>): (r: SemanticSection)
    ensures r.title ==
      if "s" in item && item["s"].JStr? then item["s"].s
      else if "title" in item && item["title"].JStr? then item["title"].s
      else Numbered("Section ", i)
    ensures var named :=
      if "f" in item && item["f"].JStr? then item["f"].s
      else if "file" in item && item["file"].JStr? then item["file"].s
      else "";
      r.fileName == if named == "" && |documents| > 0 then documents[0].fileName else named
    ensures r.startPage ==
      if "sp" in item && item["sp"].JInt? then item["sp"].n
      else if "startPage" in item && item["startPage"].JInt? then item["startPage"].n
      else 1
    ensures r.endPage ==
      if "ep" in item && item["ep"].JInt? then item["ep"].n
      else if "endPage" in item && item["endPage"].JInt? then item["endPage"].n
      else r.startPage
  {
    var title := OptString(item, "s", OptString(item, "title", Numbered("Section ", i)));
    var file := OptString(item, "f", OptString(item, "file", ""));
    var sp := OptInt(item, "sp", OptInt(item, "startPage", 1));
    var ep := OptInt(item, "ep", OptInt(item, "endPage", sp));
    SemanticSection(title, if file == "" && |documents| > 0 then documents[0].fileName else file, sp, ep)
  }

  /** A text document with at least one page. */
  predicate HasText(d: DocumentContent)
  {
    !d.isImage && |d.pages| > 0
  }

  /** The fallback section of a document: page 1 to its last page. */
  function WholeDocument(d: DocumentContent): SemanticSection
    requires |d.pages| > 0
  {
    SemanticSection("Full Document: " + d.fileName, d.fileName, 1, d.pages[|d.pages| - 1].pageNumber)
  }

  /** The fallback: one whole-document section per text document that has pages, in document order. */
  function WholeDocuments(documents: seq<DocumentContent>): (r: seq<SemanticSection>)
    ensures |r| <= |documents|
    ensures forall s :: s in r <==> exists d :: d in documents && HasText(d) && s == WholeDocument(d)
    decreases |documents|
  {
    if |documents| == 0 then []
    else
      var init := WholeDocuments(documents[..|documents| - 1]);
      var d := documents[|documents| - 1];
      assert forall e :: e in documents <==> e in documents[..|documents| - 1] || e == d;
      if HasText(d) then init + [WholeDocument(d)] else init
  }

  /**
   * parseSemanticSections: one section per element of the array, or the
   * whole-document fallback when the array is empty; None when the answer
   * does not parse, the chosen key holds no array, or an element is not an
   * object.
   */
  function SemanticSections(response: Json, documents: seq<DocumentContent>): (r: Option<seq<SemanticSection>>)
    ensures r.None? <==> SectionItems(response).None? || !AllObjects(SectionItems(response).value)
    ensures r.Some? && |SectionItems(response).value| > 0 ==> |r.value| == |SectionItems(response).value|
    ensures r.Some? && SectionItems(response).value == [] ==> r.value == WholeDocuments(documents)
  {
    match SectionItems(response)
    case None => None
    case Some(items) =>
      if !AllObjects(items) then None
      else if |items| == 0 then Some(WholeDocuments(documents))
      else Some(seq(|items|, i requires 0 <= i < |items| => SectionOf(items[i].fields, i, documents)))
  }

  /** The array parseSemanticSections reads, or None where reading it throws. */
  method ReadSectionItems(response: Json) returns (r: Option<seq<Json>>)
    ensures r == SectionItems(response)
  {
    if response.JArr? {
      return Some(response.items);
    } else if response.JObj? {
      var o := response.fields;
      if "sections" in o {
        return GetArray(o, "sections");
      } else if "s" in o {
        return Some([response]);
      }
      var keys := ["data", "items", "results"];
      var k := 0;
      while k < |keys|
        invariant 0 <= k <= |keys|
        invariant FirstArray(o, keys) == FirstArray(o, keys[k..])
      {
        if keys[k] in o {
          return GetArray(o, keys[k]);
        }
        assert keys[k..][1..] == keys[k + 1..];
        k := k + 1;
      }
      return Some([]);
    }
    return None;
  }

  /** The fallback loop of parseSemanticSections. */
  method FallbackSections(documents: seq<DocumentContent>) returns (sections: seq<SemanticSection>)
    ensures sections == WholeDocuments(documents)
  {
    sections := [];
    var j := 0;
    while j < |documents|
      invariant 0 <= j <= |documents|
      invariant sections == WholeDocuments(documents[..j])
    {
      assert documents[..j + 1][..j] == documents[..j];
      var doc := documents[j];
      if !doc.isImage && |doc.pages| > 0 {
        sections := sections + [WholeDocument(doc)];
      }
      j := j + 1;
    }
    assert documents[..j] == documents;
  }

  /** parseSemanticSections with its loops. */
  method ParseSemanticSections(response: Json, documents: seq<DocumentContent>) returns (r: Option<seq<SemanticSection>>)
    ensures r == SemanticSections(response, documents)
  {
    var read := ReadSectionItems(response);
    if read.None? {
      return None;
    }
    var items := read.value;
    var parsed := ParseSections(items, documents);
    if parsed.None? {
      return None;
    }
    var sections := parsed.value;
    if |sections| == 0 {
      sections := FallbackSections(documents);
    } else {
      assert sections == seq(|items|, k requires 0 <= k < |items| => SectionOf(items[k].fields, k, documents));
    }
    return Some(sections);
  }

  /** The element loop of parseSemanticSections: getJSONObject throws on the first element that is not an object. */
  method ParseSections(items: seq<Json>, documents: seq<DocumentContent>) returns (r: Option<seq<SemanticSection>>)
    ensures r.None? <==> !AllObjects(items)
    ensures r.Some? ==> |r.value| == |items|
    ensures r.Some? ==> forall k :: 0 <= k < |items| ==> r.value[k] == SectionOf(items[k].fields, k, documents)
  {
    var sections: seq<SemanticSection> := [];
    var i := 0;
    while i < |items|
      invariant 0 <= i <= |items|
      invariant |sections| == i
      invariant forall k :: 0 <= k < i ==> items[k].JObj? && sections[k] == SectionOf(items[k].fields, k, documents)
    {
      if !items[i].JObj? {
        return None;
      }
      SectionAppended(sections, items, i, documents);
      sections := sections + [SectionOf(items[i].fields, i, documents)];
      i := i + 1;
    }
    return Some(sections);
  }

  /** One more section read keeps the earlier ones and reads element i at position i. */
  lemma {:induction false} SectionAppended(sections: seq<SemanticSection>, items: seq<Json>, i: int, documents: seq<DocumentContent>)
    requires 0 <= i < |items| && |sections| == i && items[i].JObj?
    requires forall k :: 0 <= k < i ==> items[k].JObj? && sections[k] == SectionOf(items[k].fields, k, documents)
    ensures forall k :: 0 <= k < i + 1 ==>
      (items[k].JObj? && (sections + [SectionOf(items[i].fields, i, documents)])[k] == SectionOf(items[k].fields, k, documents))
  {
  }

  /**
   * How a section element is read: the short key before the long one, the
   * first document when no file is named, and a one-page section when no
   * end page is given.
   */
  lemma {:induction false} SectionFields(item: Object, i: int, documents: seq<DocumentContent>)
    ensures var r := SectionOf(item, i, documents);
      && ("s" in item && item["s"].JStr? ==> r.title == item["s"].s)
      && (!("s" in item && item["s"].JStr?) && "title" in item && item["title"].JStr? ==> r.title == item["title"].s)
      && (|documents| > 0 && OptString(item, "f", OptString(item, "file", "")) == "" ==> r.fileName == documents[0].fileName)
      && (!("ep" in item && item["ep"].JInt?) && !("endPage" in item && item["endPage"].JInt?) ==> r.endPage == r.startPage)
  {
  }

  /** A section element without any of the keys: numbered title, the first document, pages 1 to 1. */
  lemma {:induction false} SectionDefaults(i: int, documents: seq<DocumentContent>)
    ensures SectionOf(map[], i, documents) ==
      SemanticSection(Numbered("Section ", i), if |documents| > 0 then documents[0].fileName else "", 1, 1)
  {
  }

  /** A start page without an end page makes a one-page section, on whichever of the two keys it is given. */
  lemma {:induction false} EndDefaultsToStart(item: Object, i: int, documents: seq<DocumentContent>)
    requires "ep" !in item && "endPage" !in item
    ensures SectionOf(item, i, documents).endPage == SectionOf(item, i, documents).startPage
  {
  }

  /** An object with "s" and no "sections" is itself the only section. */
  lemma {:induction false} SingleSectionObject(o: Object, documents: seq<DocumentContent>)
    requires "sections" !in o && "s" in o && o["s"].JStr?
    ensures SemanticSections(JObj(o), documents) == Some([SectionOf(o, 0, documents)])
    ensures SectionOf(o, 0, documents).title == o["s"].s
  {
    assert SectionItems(JObj(o)) == Some([JObj(o)]);
    assert AllObjects([JObj(o)]);
    var r := SemanticSections(JObj(o), documents).value;
    assert |r| == 1 && r[0] == SectionOf(o, 0, documents);
    assert r == [SectionOf(o, 0, documents)];
  }

  /** Of "data", "items" and "results" the first present key decides: "data" wins over "items". */
  lemma {:induction false} DataBeforeItems(o: Object, documents: seq<DocumentContent>)
    requires "sections" !in o && "s" !in o && "data" in o && "items" in o
    ensures SectionItems(JObj(o)) == GetArray(o, "data")
  {
  }

  /**
   * An object with none of the recognised keys, or an empty array, yields
   * the fallback: one section [1, last page] per text document with pages.
   */
  lemma {:induction false} UnrecognisedAnswerFallsBack(o: Object, documents: seq<DocumentContent>)
    requires forall key :: key in ["sections", "s", "data", "items", "results"] ==> key !in o
    ensures SemanticSections(JObj(o), documents) == Some(WholeDocuments(documents))
    ensures SemanticSections(JArr([]), documents) == Some(WholeDocuments(documents))
  {
    assert "sections" !in o && "s" !in o;
    var keys := ["data", "items", "results"];
    assert forall k :: 0 <= k < |keys| ==> keys[k] !in o;
  }

  /** Every text document with pages gets its whole-document section, and nothing else does. */
  lemma {:induction false} FallbackCoversDocuments(documents: seq<DocumentContent>, d: DocumentContent)
    requires d in documents
    ensures HasText(d) ==> WholeDocument(d) in WholeDocuments(documents)
    ensures forall s :: s in WholeDocuments(documents) ==> s.startPage == 1 && s.title == "Full Document: " + s.fileName
  {
  }

  // ---------------------------------------------------------------- parseTopicOutlines

  /** The topics array: a top-level array, "topics", "ts", or else the object itself as the only topic. */
  function TopicItems(response: Json): Option<seq<Json>>
  {
    match response
    case JArr(items) => Some(items)
    case JObj(o) =>
      if "topics" in o then GetArray(o, "topics")
      else if "ts" in o then GetArray(o, "ts")
      else Some([response])
    case _ => None
  }

  /** A page reference: "f" or "file" (""), "sp" or "startPage" (1), "ep" or "endPage" (the start page). */
  function RefOf(ref: Object): (r: SectionRef)
    ensures "f" in ref && ref["f"].JStr? ==> r.fileName == ref["f"].s
    ensures !("sp" in ref && ref["sp"].JInt?) && !("startPage" in ref && ref["startPage"].JInt?) ==> r.startPage == 1
    ensures !("ep" in ref && ref["ep"].JInt?) && !("endPage" in ref && ref["endPage"].JInt?) ==> r.endPage == r.startPage
  {
    var sp := OptInt(ref, "sp", OptInt(ref, "startPage", 1));
    SectionRef(OptString(ref, "f", OptString(ref, "file", "")), sp, OptInt(ref, "ep", OptInt(ref, "endPage", sp)))
  }

  /** The references of a topic element: none without "refs"; otherwise an array of objects, or None. */
  function RefsOf(item: Object): (r: Option<seq<SectionRef>>)
    ensures "refs" !in item ==> r == Some([])
    ensures r.None? <==> "refs" in item && (GetArray(item, "refs").None? || !AllObjects(item["refs"].items))
    ensures "refs" in item && r.Some? ==> |r.value| == |item["refs"].items|
  {
    if "refs" !in item then Some([])
    else match GetArray(item, "refs")
      case None => None
      case Some(a) =>
        if AllObjects(a) then Some(seq(|a|, j requires 0 <= j < |a| => RefOf(a[j].fields))) else None
  }

  /** One topic element: the title "t", "title" or "Topic i+1", with its references. */
  function OutlineOf(item: Json, i: int): (r: Option<TopicOutline>)
    ensures r.Some? ==> item.JObj? && RefsOf(item.fields) == Some(r.value.sectionRefs)
    ensures item.JObj? && RefsOf(item.fields).Some? ==> r.Some?
  {
    if !item.JObj? then None
    else match RefsOf(item.fields)
      case None => None
      case Some(refs) => Some(TopicOutline(OptString(item.fields, "t", OptString(item.fields, "title", Numbered("Topic ", i))), refs))
  }

  predicate AllOutlines(items: seq<Json>)
  {
    forall i :: 0 <= i < |items| ==> OutlineOf(items[i], i).Some?
  }

  /** parseTopicOutlines: one outline per element, in order, or None when the answer or any element throws. */
  function TopicOutlines(response: Json): (r: Option<seq<TopicOutline>>)
    ensures r.None? <==> TopicItems(response).None? || !AllOutlines(TopicItems(response).value)
    ensures r.Some? ==> |r.value| == |TopicItems(response).value|
  {
    match TopicItems(response)
    case None => None
    case Some(items) =>
      if AllOutlines(items) then Some(seq(|items|, i requires 0 <= i < |items| => OutlineOf(items[i], i).value))
      else None
  }

  /** parseTopicOutlines with its two loops. */
  method ParseTopicOutlines(response: Json) returns (r: Option<seq<TopicOutline>>)
    ensures r == TopicOutlines(response)
  {
    var items: seq<Json>;
    if response.JArr? {
      items := response.items;
    } else if response.JObj? {
      var o := response.fields;
      if "topics" in o {
        if !o["topics"].JArr? {
          return None;
        }
        items := o["topics"].items;
      } else if "ts" in o {
        if !o["ts"].JArr? {
          return None;
        }
        items := o["ts"].items;
      } else {
        items := [response];
      }
    } else {
      return None;
    }
    var outlines: seq<TopicOutline> := [];
    var i := 0;
    while i < |items|
      invariant 0 <= i <= |items|
      invariant |outlines| == i
      invariant forall k :: 0 <= k < i ==> OutlineOf(items[k], k) == Some(outlines[k])
    {
      if !items[i].JObj? {
        assert OutlineOf(items[i], i).None?;
        return None;
      }
      var item := items[i].fields;
      var title := OptString(item, "t", OptString(item, "title", Numbered("Topic ", i)));
      var refs: seq<SectionRef> := [];
      if "refs" in item {
        if !item["refs"].JArr? {
          assert OutlineOf(items[i], i).None?;
          return None;
        }
        var a := item["refs"].items;
        var j := 0;
        while j < |a|
          invariant 0 <= j <= |a|
          invariant |refs| == j
          invariant forall k :: 0 <= k < j ==> a[k].JObj? && refs[k] == RefOf(a[k].fields)
        {
          if !a[j].JObj? {
            assert !AllObjects(a);
            assert OutlineOf(items[i], i).None?;
            return None;
          }
          refs := refs + [RefOf(a[j].fields)];
          j := j + 1;
        }
        assert AllObjects(a);
        assert refs == seq(|a|, k requires 0 <= k < |a| => RefOf(a[k].fields));
      }
      assert OutlineOf(items[i], i) == Some(TopicOutline(title, refs));
      outlines := outlines + [TopicOutline(title, refs)];
      i := i + 1;
    }
    assert TopicItems(response) == Some(items);
    assert outlines == seq(|items|, k requires 0 <= k < |items| => OutlineOf(items[k], k).value);
    return Some(outlines);
  }

  /** A reference without page keys covers page 1 only; one without a file name is "". */
  lemma {:induction false} RefDefaults()
    ensures RefOf(map[]) == SectionRef("", 1, 1)
  {
  }

  /** An object with neither "topics" nor "ts" is itself the only topic, titled by "t". */
  lemma {:induction false} SingleTopicObject(o: Object)
    requires "topics" !in o && "ts" !in o && "refs" !in o && "t" in o && o["t"].JStr?
    ensures TopicOutlines(JObj(o)) == Some([TopicOutline(o["t"].s, [])])
  {
    assert OutlineOf(JObj(o), 0) == Some(TopicOutline(o["t"].s, []));
    assert TopicItems(JObj(o)) == Some([JObj(o)]);
    assert AllOutlines([JObj(o)]);
    var r := TopicOutlines(JObj(o)).value;
    assert |r| == 1 && r[0] == TopicOutline(o["t"].s, []);
    assert r == [TopicOutline(o["t"].s, [])];
  }

  // ---------------------------------------------------------------- parseChallengeOutlines

  /** The challenges array: a top-level array, or the "challenges" array of an object ([] when it has none). */
  function ChallengeItems(response: Json): Option<seq<Json>>
  {
    match response
    case JArr(items) => Some(items)
    case JObj(o) => Some(if GetArray(o, "challenges").Some? then o["challenges"].items else [])
    case _ => None
  }

  /** One challenge outline: "t" (else "Challenge i+1") and "d" (else ""). */
  function ChallengeOutlineOf(item: Object, i: int): (r: ChallengeOutline)
    ensures "t" in item && item["t"].JStr? ==> r.title == item["t"].s
    ensures !("t" in item && item["t"].JStr?) ==> r.title == Numbered("Challenge ", i)
    ensures !("d" in item && item["d"].JStr?) ==> r.description == ""
  {
    ChallengeOutline(OptString(item, "t", Numbered("Challenge ", i)), OptString(item, "d", ""))
  }

  /** parseChallengeOutlines: one outline per element, or None when the answer or any element is not an object. */
  function ChallengeOutlines(response: Json): (r: Option<seq<ChallengeOutline>>)
    ensures r.None? <==> ChallengeItems(response).None? || !AllObjects(ChallengeItems(response).value)
    ensures r.Some? ==> |r.value| == |ChallengeItems(response).value|
  {
    match ChallengeItems(response)
    case None => None
    case Some(items) =>
      if AllObjects(items) then Some(seq(|items|, i requires 0 <= i < |items| => ChallengeOutlineOf(items[i].fields, i)))
      else None
  }

  /** parseChallengeOutlines with its loop. */
  method ParseChallengeOutlines(response: Json) returns (r: Option<seq<ChallengeOutline>>)
    ensures r == ChallengeOutlines(response)
  {
    var items: seq<Json>;
    if response.JArr? {
      items := response.items;
    } else if response.JObj? {
      var a := GetArray(response.fields, "challenges");
      items := if a.Some? then a.value else [];
    } else {
      return None;
    }
    var outlines: seq<ChallengeOutline> := [];
    var i := 0;
    while i < |items|
      invariant 0 <= i <= |items|
      invariant AllObjects(items[..i])
      invariant |outlines| == i
      invariant forall k :: 0 <= k < i ==> outlines[k] == ChallengeOutlineOf(items[k].fields, k)
    {
      if !items[i].JObj? {
        return None;
      }
      outlines := outlines + [ChallengeOutlineOf(items[i].fields, i)];
      i := i + 1;
    }
    assert items[..i] == items;
    assert ChallengeItems(response) == Some(items);
    assert outlines == seq(|items|, k requires 0 <= k < |items| => ChallengeOutlineOf(items[k].fields, k));
    return Some(outlines);
  }

  /** An object whose "challenges" is missing or not an array has no challenges, and does not throw. */
  lemma {:induction false} NoChallengesArray(o: Object)
    requires GetArray(o, "challenges").None?
    ensures ChallengeOutlines(JObj(o)) == Some([])
  {
  }

  /** An element without keys is "Challenge i+1" with an empty description. */
  lemma {:induction false} ChallengeDefaults(i: int)
    ensures ChallengeOutlineOf(map[], i) == ChallengeOutline(Numbered("Challenge ", i), "")
  {
  }
}
