/**
 * addRelevantContentToPrompt: the parts of a topic's generation prompt
 * that carry document content. For every page reference of the topic and
 * every document it selects (the reference names the document, or names
 * none), an image goes in once as its inline-data part, and a text
 * document contributes one text part: a header with the file name and the
 * referenced pages not yet included. A set of keys ("img:<name>",
 * "<name>:<page>") keeps any image or page from going in twice. When no
 * key was recorded at all, every document goes in whole instead.
 *
 * The source appends a text part only when it is longer than 50
 * characters, yet records the page keys whatever the length; BlockRule
 * names that rule and the evidently intended one (a part whenever a page
 * was gathered), and everything here is stated for both.
 */
module Prompts {
  import opened Text
  import opened Json
  import opened Outlines

  /** When a text document's part is appended: as written, or as evidently intended. */
  datatype BlockRule = LongerThan50 | AnyPage

  /** A reference selects a document it names, and every document when it names none. */
  predicate Selects(ref: SectionRef, doc: DocumentContent)
  {
    doc.fileName == ref.fileName || ref.fileName == ""
  }

  predicate InRange(ref: SectionRef, page: PageContent)
  {
    ref.startPage <= page.pageNumber <= ref.endPage
  }

  /** An entry of the set of content already added: "<name>:<page>" for a page, "img:<name>" for an image. */
  datatype Key = PageKey(fileName: string, pageNumber: int) | ImageKey(fileName: string)

  function Header(fileName: string): string
  {
    "\n\n=== " + fileName + " ===\n"
  }

  function PageBlock(page: PageContent): string
  {
    "\n--- Page " + IntToString(page.pageNumber) + " ---\n" + page.text
  }

  function TextPart(text: string): Object
  {
    map["text" := JStr(text)]
  }

  predicate NoDup(s: seq<Key>)
  {
    forall i, j :: 0 <= i < j < |s| ==> s[i] != s[j]
  }

  // ---------------------------------------------------------------- which keys a topic selects

  /** The keys of the in-range pages of one document. */
  function PagesKeys(fileName: string, ref: SectionRef, pages: seq<PageContent>): set<Key>
  {
    set p | p in pages && InRange(ref, p) :: PageKey(fileName, p.pageNumber)
  }

  /** The keys one reference selects in one document. */
  function DocKeys(ref: SectionRef, doc: DocumentContent): set<Key>
  {
    if !Selects(ref, doc) then {}
    else if doc.isImage then {ImageKey(doc.fileName)}
    else PagesKeys(doc.fileName, ref, doc.pages)
  }

  function DocsKeys(ref: SectionRef, documents: seq<DocumentContent>): set<Key>
  {
    set d, k | d in documents && k in DocKeys(ref, d) :: k
  }

  /** Every key any reference of the topic selects in any document. */
  function SelectedKeys(refs: seq<SectionRef>, documents: seq<DocumentContent>): set<Key>
  {
    set r, k | r in refs && k in DocsKeys(r, documents) :: k
  }

  // ---------------------------------------------------------------- the loops, as functions

  /** The text built for one document so far, the keys recorded, and the page keys this document added, in order. */
  datatype Gather = Gather(text: string, added: set<Key>, keys: seq<Key>)

  /** The loop over a document's pages: each in-range page not yet recorded is appended and recorded. */
  function GatherPages(fileName: string, ref: SectionRef, pages: seq<PageContent>, text: string, added: set<Key>): (g: Gather)
    ensures g.added == added + PagesKeys(fileName, ref, pages)
    ensures NoDup(g.keys)
    ensures forall i :: 0 <= i < |g.keys| ==> g.keys[i] in g.added && g.keys[i] !in added
    ensures g.keys == [] <==> PagesKeys(fileName, ref, pages) <= added
    ensures g.keys == [] ==> g.text == text
    decreases |pages|
  {
    if |pages| == 0 then Gather(text, added, [])
    else
      var g := GatherPages(fileName, ref, pages[..|pages| - 1], text, added);
      var p := pages[|pages| - 1];
      var key := PageKey(fileName, p.pageNumber);
      PagesKeysSnoc(fileName, ref, pages[..|pages| - 1], p);
      assert pages[..|pages| - 1] + [p] == pages;
      if InRange(ref, p) && key !in g.added then Gather(g.text + PageBlock(p), g.added + {key}, g.keys + [key])
      else g
  }

  lemma {:induction false} PagesKeysSnoc(fileName: string, ref: SectionRef, pages: seq<PageContent>, p: PageContent)
    ensures PagesKeys(fileName, ref, pages + [p]) ==
      PagesKeys(fileName, ref, pages) + if InRange(ref, p) then {PageKey(fileName, p.pageNumber)} else {}
  {
    assert forall q :: q in pages + [p] <==> q in pages || q == p;
  }

  /** Whether the part of a text document is appended. */
  predicate Keep(rule: BlockRule, g: Gather)
  {
    match rule
    case LongerThan50 => |g.text| > 50
    case AnyPage => |g.keys| > 0
  }

  /**
   * The state of the outer loops: the prompt parts, the keys recorded,
   * and (for the statement of the rule) the page keys gathered and the
   * page keys whose text went into an appended part.
   */
  datatype Acc = Acc(parts: seq<Object>, added: set<Key>, gathered: seq<Key>, delivered: seq<Key>)

  /** Every gathered key is recorded, and none was gathered twice. */
  predicate Tracked(acc: Acc)
  {
    NoDup(acc.gathered) && forall i :: 0 <= i < |acc.gathered| ==> acc.gathered[i] in acc.added
  }

  lemma {:induction false} NoDupAppend(a: seq<Key>, b: seq<Key>, s: set<Key>)
    ensures NoDup(a) && NoDup(b) && (forall i :: 0 <= i < |a| ==> a[i] in s) && (forall i :: 0 <= i < |b| ==> b[i] !in s) ==>
      NoDup(a + b)
  {
    forall i, j | NoDup(a) && NoDup(b) && (forall i :: 0 <= i < |a| ==> a[i] in s) && (forall i :: 0 <= i < |b| ==> b[i] !in s) && 0 <= i < j < |a + b|
      ensures (a + b)[i] != (a + b)[j]
    {
      if j < |a| {
        assert (a + b)[i] == a[i] && (a + b)[j] == a[j];
      } else if i < |a| {
        assert (a + b)[i] == a[i] && (a + b)[j] == b[j - |a|];
      } else {
        assert (a + b)[i] == b[i - |a|] && (a + b)[j] == b[j - |a|];
      }
    }
  }

  /** One document under one reference. */
  function DocStep(rule: BlockRule, ref: SectionRef, doc: DocumentContent, acc: Acc): (r: Acc)
    ensures r.added == acc.added + DocKeys(ref, doc)
    ensures |r.parts| >= |acc.parts| && r.parts[..|acc.parts|] == acc.parts
    ensures Tracked(acc) ==> Tracked(r)
    ensures rule == AnyPage && acc.delivered == acc.gathered ==> r.delivered == r.gathered
  {
    if !Selects(ref, doc) then acc
    else if doc.isImage then
      var key := ImageKey(doc.fileName);
      if key in acc.added then acc
      else acc.(parts := acc.parts + [doc.imageData], added := acc.added + {key})
    else
      var g := GatherPages(doc.fileName, ref, doc.pages, Header(doc.fileName), acc.added);
      NoDupAppend(acc.gathered, g.keys, acc.added);
      var r := acc.(added := g.added, gathered := acc.gathered + g.keys);
      if Keep(rule, g) then r.(parts := acc.parts + [TextPart(g.text)], delivered := acc.delivered + g.keys)
      else r
  }

  /** The loop over the documents for one reference. */
  function DocsStep(rule: BlockRule, ref: SectionRef, documents: seq<DocumentContent>, acc: Acc): (r: Acc)
    ensures r.added == acc.added + DocsKeys(ref, documents)
    ensures |r.parts| >= |acc.parts| && r.parts[..|acc.parts|] == acc.parts
    ensures Tracked(acc) ==> Tracked(r)
    ensures rule == AnyPage && acc.delivered == acc.gathered ==> r.delivered == r.gathered
    decreases |documents|
  {
    if |documents| == 0 then acc
    else
      var n := |documents| - 1;
      DocsKeysSnoc(ref, documents[..n], documents[n]);
      assert documents[..n] + [documents[n]] == documents;
      DocStep(rule, ref, documents[n], DocsStep(rule, ref, documents[..n], acc))
  }

  /** The loop over the references of the topic. */
  function RefsStep(rule: BlockRule, refs: seq<SectionRef>, documents: seq<DocumentContent>, acc: Acc): (r: Acc)
    ensures r.added == acc.added + SelectedKeys(refs, documents)
    ensures |r.parts| >= |acc.parts| && r.parts[..|acc.parts|] == acc.parts
    ensures Tracked(acc) ==> Tracked(r)
    ensures rule == AnyPage && acc.delivered == acc.gathered ==> r.delivered == r.gathered
    decreases |refs|
  {
    if |refs| == 0 then acc
    else
      var n := |refs| - 1;
      SelectedKeysSnoc(refs[..n], refs[n], documents);
      assert refs[..n] + [refs[n]] == refs;
      DocsStep(rule, refs[n], documents, RefsStep(rule, refs[..n], documents, acc))
  }

  lemma {:induction false} DocsKeysSnoc(ref: SectionRef, documents: seq<DocumentContent>, d: DocumentContent)
    ensures DocsKeys(ref, documents + [d]) == DocsKeys(ref, documents) + DocKeys(ref, d)
  {
    forall k | k in DocsKeys(ref, documents + [d])
      ensures k in DocsKeys(ref, documents) + DocKeys(ref, d)
    {
      var e :| e in documents + [d] && k in DocKeys(ref, e);
      if e != d {
        assert e in documents;
      }
    }
    assert d in documents + [d];
    forall k | k in DocsKeys(ref, documents)
      ensures k in DocsKeys(ref, documents + [d])
    {
      var e :| e in documents && k in DocKeys(ref, e);
      assert e in documents + [d];
    }
  }

  lemma {:induction false} SelectedKeysSnoc(refs: seq<SectionRef>, ref: SectionRef, documents: seq<DocumentContent>)
    ensures SelectedKeys(refs + [ref], documents) == SelectedKeys(refs, documents) + DocsKeys(ref, documents)
  {
    forall k | k in SelectedKeys(refs + [ref], documents)
      ensures k in SelectedKeys(refs, documents) + DocsKeys(ref, documents)
    {
      var r :| r in refs + [ref] && k in DocsKeys(r, documents);
      if r != ref {
        assert r in refs;
      }
    }
    assert ref in refs + [ref];
    forall k | k in SelectedKeys(refs, documents)
      ensures k in SelectedKeys(refs + [ref], documents)
    {
      var r :| r in refs && k in DocsKeys(r, documents);
      assert r in refs + [ref];
    }
  }

  // ---------------------------------------------------------------- the fallback

  /** All pages of a document, each under its page header. */
  function AllPages(pages: seq<PageContent>): string
    decreases |pages|
  {
    if |pages| == 0 then "" else AllPages(pages[..|pages| - 1]) + PageBlock(pages[|pages| - 1])
  }

  function WholePart(doc: DocumentContent): Object
  {
    if doc.isImage then doc.imageData else TextPart(Header(doc.fileName) + AllPages(doc.pages))
  }

  /** The fallback: every document whole, one part each, in document order. */
  function AllContent(documents: seq<DocumentContent>): (r: seq<Object>)
    ensures |r| == |documents|
    ensures forall i :: 0 <= i < |documents| ==> r[i] == WholePart(documents[i])
    decreases |documents|
  {
    if |documents| == 0 then [] else AllContent(documents[..|documents| - 1]) + [WholePart(documents[|documents| - 1])]
  }

  /**
   * addRelevantContentToPrompt under a rule: the references' parts
   * appended to the parts already there, followed by every document whole
   * when no key at all was recorded.
   */
  function RelevantContent(rule: BlockRule, refs: seq<SectionRef>, documents: seq<DocumentContent>, parts: seq<Object>): (r: Acc)
    ensures |r.parts| >= |parts| && r.parts[..|parts|] == parts
    ensures r.added == SelectedKeys(refs, documents)
    ensures Tracked(r)
    ensures rule == AnyPage ==> r.delivered == r.gathered
  {
    var a := RefsStep(rule, refs, documents, Acc(parts, {}, [], []));
    if a.added == {} then a.(parts := a.parts + AllContent(documents)) else a
  }

  /** A reference selects a key exactly when it selects an image, or an in-range page of a text document. */
  lemma {:induction false} SomethingSelected(refs: seq<SectionRef>, documents: seq<DocumentContent>)
    ensures SelectedKeys(refs, documents) != {} <==>
      exists r, d :: r in refs && d in documents && Selects(r, d) && (d.isImage || exists p :: p in d.pages && InRange(r, p))
  {
    if SelectedKeys(refs, documents) != {} {
      var k :| k in SelectedKeys(refs, documents);
      var r :| r in refs && k in DocsKeys(r, documents);
      var d :| d in documents && k in DocKeys(r, d);
      if !d.isImage {
        var p :| p in d.pages && InRange(r, p) && k == PageKey(d.fileName, p.pageNumber);
      }
    }
    if exists r, d :: r in refs && d in documents && Selects(r, d) && (d.isImage || exists p :: p in d.pages && InRange(r, p)) {
      var r, d :| r in refs && d in documents && Selects(r, d) && (d.isImage || exists p :: p in d.pages && InRange(r, p));
      var k;
      if d.isImage {
        k := ImageKey(d.fileName);
      } else {
        var p :| p in d.pages && InRange(r, p);
        k := PageKey(d.fileName, p.pageNumber);
      }
      assert k in DocKeys(r, d);
      assert k in DocsKeys(r, documents);
      assert k in SelectedKeys(refs, documents);
    }
  }

  /**
   * The fallback replaces the references' content only when nothing was
   * selected; then, under the intended rule, the prompt gets exactly every
   * document whole.
   */
  lemma {:induction false} FallbackExactlyWhenNothingSelected(rule: BlockRule, refs: seq<SectionRef>, documents: seq<DocumentContent>, parts: seq<Object>)
    ensures SelectedKeys(refs, documents) != {} ==>
      RelevantContent(rule, refs, documents, parts).parts == RefsStep(rule, refs, documents, Acc(parts, {}, [], [])).parts
    ensures rule == AnyPage && SelectedKeys(refs, documents) == {} ==>
      RelevantContent(rule, refs, documents, parts).parts == parts + AllContent(documents)
  {
    if rule == AnyPage && SelectedKeys(refs, documents) == {} {
      NoPartsWithoutKeys(refs, documents, Acc(parts, {}, [], []));
    }
  }

  /** Under the intended rule, a loop that records no key appends no part. */
  lemma {:induction false} NoPartsWithoutKeys(refs: seq<SectionRef>, documents: seq<DocumentContent>, acc: Acc)
    requires SelectedKeys(refs, documents) <= acc.added
    ensures RefsStep(AnyPage, refs, documents, acc).parts == acc.parts
    decreases |refs|
  {
    if |refs| > 0 {
      var n := |refs| - 1;
      SelectedKeysSnoc(refs[..n], refs[n], documents);
      assert refs[..n] + [refs[n]] == refs;
      NoPartsWithoutKeys(refs[..n], documents, acc);
      var mid := RefsStep(AnyPage, refs[..n], documents, acc);
      assert mid.added == acc.added;
      NoDocPartsWithoutKeys(refs[n], documents, mid);
    }
  }

  lemma {:induction false} NoDocPartsWithoutKeys(ref: SectionRef, documents: seq<DocumentContent>, acc: Acc)
    requires DocsKeys(ref, documents) <= acc.added
    ensures DocsStep(AnyPage, ref, documents, acc).parts == acc.parts
    decreases |documents|
  {
    if |documents| > 0 {
      var n := |documents| - 1;
      DocsKeysSnoc(ref, documents[..n], documents[n]);
      assert documents[..n] + [documents[n]] == documents;
      NoDocPartsWithoutKeys(ref, documents[..n], acc);
      var mid := DocsStep(AnyPage, ref, documents[..n], acc);
      var d := documents[n];
      if Selects(ref, d) && !d.isImage {
        assert PagesKeys(d.fileName, ref, d.pages) <= mid.added;
      }
    }
  }

  /** The one-page reference of the example below gathers its page under the document header. */
  lemma {:induction false} ShortPageGathered()
    ensures GatherPages("a.txt", SectionRef("a.txt", 1, 1), [PageContent(1, "hi")], Header("a.txt"), {}) ==
      Gather(Header("a.txt") + PageBlock(PageContent(1, "hi")), {PageKey("a.txt", 1)}, [PageKey("a.txt", 1)])
  {
    assert [PageContent(1, "hi")][..0] == [];
    assert GatherPages("a.txt", SectionRef("a.txt", 1, 1), [], Header("a.txt"), {}) == Gather(Header("a.txt"), {}, []);
  }

  /** The text of that page under its document's header is 34 characters long. */
  lemma {:induction false} ShortPageText()
    ensures |Header("a.txt") + PageBlock(PageContent(1, "hi"))| == 34
  {
    assert IntToString(1) == "1";
  }

  /**
   * The source as written: a one-page reference to a short page records
   * the page's key, so the fallback is skipped, yet the 34-character part
   * is dropped; the prompt receives no document content at all.
   */
  lemma {:induction false} ShortPageIsLost()
    ensures var written := RelevantContent(LongerThan50, [SectionRef("a.txt", 1, 1)], [DocumentContent("a.txt", [PageContent(1, "hi")], false, map[])], []);
            PageKey("a.txt", 1) in written.added && written.gathered == [PageKey("a.txt", 1)] && written.delivered == [] && written.parts == []
  {
    var doc := DocumentContent("a.txt", [PageContent(1, "hi")], false, map[]);
    var ref := SectionRef("a.txt", 1, 1);
    ShortPageGathered();
    ShortPageText();
    var acc := DocStep(LongerThan50, ref, doc, Acc([], {}, [], []));
    assert acc == Acc([], {PageKey("a.txt", 1)}, [PageKey("a.txt", 1)], []);
    assert [doc][..0] == [] && [ref][..0] == [];
    assert DocsStep(LongerThan50, ref, [doc], Acc([], {}, [], [])) == acc;
    assert RefsStep(LongerThan50, [ref], [doc], Acc([], {}, [], [])) == acc;
  }

  /** Under the intended rule the same page goes into the prompt. */
  lemma {:induction false} ShortPageDelivered()
    ensures var intended := RelevantContent(AnyPage, [SectionRef("a.txt", 1, 1)], [DocumentContent("a.txt", [PageContent(1, "hi")], false, map[])], []);
            intended.delivered == [PageKey("a.txt", 1)] && intended.parts == [TextPart(Header("a.txt") + PageBlock(PageContent(1, "hi")))]
  {
    var doc := DocumentContent("a.txt", [PageContent(1, "hi")], false, map[]);
    var ref := SectionRef("a.txt", 1, 1);
    ShortPageGathered();
    var acc := DocStep(AnyPage, ref, doc, Acc([], {}, [], []));
    assert acc == Acc([TextPart(Header("a.txt") + PageBlock(PageContent(1, "hi")))], {PageKey("a.txt", 1)}, [PageKey("a.txt", 1)], [PageKey("a.txt", 1)]);
    assert [doc][..0] == [] && [ref][..0] == [];
    assert DocsStep(AnyPage, ref, [doc], Acc([], {}, [], [])) == acc;
    assert RefsStep(AnyPage, [ref], [doc], Acc([], {}, [], [])) == acc;
  }

  // ---------------------------------------------------------------- the method

  /** The loop over one document's pages: the text with the new pages appended, the keys, and how many pages were new. */
  method GatherText(fileName: string, ref: SectionRef, pages: seq<PageContent>, added0: set<Key>)
    returns (text: string, added: set<Key>, found: nat)
    ensures var g := GatherPages(fileName, ref, pages, Header(fileName), added0);
            text == g.text && added == g.added && found == |g.keys|
  {
    text := Header(fileName);
    added := added0;
    found := 0;
    ghost var keys: seq<Key> := [];
    var k := 0;
    while k < |pages|
      invariant 0 <= k <= |pages|
      invariant Gather(text, added, keys) == GatherPages(fileName, ref, pages[..k], Header(fileName), added0)
      invariant found == |keys|
    {
      assert pages[..k + 1][..k] == pages[..k];
      var page := pages[k];
      if ref.startPage <= page.pageNumber <= ref.endPage {
        var key := PageKey(fileName, page.pageNumber);
        if key !in added {
          text := text + PageBlock(page);
          added := added + {key};
          keys := keys + [key];
          found := found + 1;
        }
      }
      k := k + 1;
    }
    assert pages[..k] == pages;
  }

  /** One document under one reference: its image, or its text part with the new pages. */
  method AddDocument(rule: BlockRule, ref: SectionRef, doc: DocumentContent, ghost acc: Acc, parts0: seq<Object>, added0: set<Key>)
    returns (parts: seq<Object>, added: set<Key>)
    requires parts0 == acc.parts && added0 == acc.added
    ensures parts == DocStep(rule, ref, doc, acc).parts && added == DocStep(rule, ref, doc, acc).added
  {
    parts, added := parts0, added0;
    if doc.fileName == ref.fileName || ref.fileName == "" {
      if doc.isImage {
        var key := ImageKey(doc.fileName);
        if key !in added {
          parts := parts + [doc.imageData];
          added := added + {key};
        }
      } else {
        var text, found;
        text, added, found := GatherText(doc.fileName, ref, doc.pages, added);
        var keep := if rule == LongerThan50 then |text| > 50 else found > 0;
        if keep {
          parts := parts + [TextPart(text)];
        }
      }
    }
  }

  /** The text of a whole document under its header. */
  method WholeText(doc: DocumentContent) returns (text: string)
    ensures text == Header(doc.fileName) + AllPages(doc.pages)
  {
    var body := "";
    var k := 0;
    while k < |doc.pages|
      invariant 0 <= k <= |doc.pages|
      invariant body == AllPages(doc.pages[..k])
    {
      assert doc.pages[..k + 1][..k] == doc.pages[..k];
      body := body + PageBlock(doc.pages[k]);
      k := k + 1;
    }
    assert doc.pages[..k] == doc.pages;
    text := Header(doc.fileName) + body;
  }

  /** The fallback loop: every document whole, appended to the parts. */
  method AppendAllContent(documents: seq<DocumentContent>, parts0: seq<Object>) returns (parts: seq<Object>)
    ensures parts == parts0 + AllContent(documents)
  {
    parts := parts0;
    var j := 0;
    while j < |documents|
      invariant 0 <= j <= |documents|
      invariant parts == parts0 + AllContent(documents[..j])
    {
      assert documents[..j + 1][..j] == documents[..j];
      var doc := documents[j];
      if doc.isImage {
        parts := parts + [doc.imageData];
      } else {
        var text := WholeText(doc);
        parts := parts + [TextPart(text)];
      }
      j := j + 1;
    }
    assert documents[..j] == documents;
  }

  /** The loop over the documents for one reference. */
  method AddReference(rule: BlockRule, ref: SectionRef, documents: seq<DocumentContent>, ghost acc: Acc, parts0: seq<Object>, added0: set<Key>)
    returns (parts: seq<Object>, added: set<Key>)
    requires parts0 == acc.parts && added0 == acc.added
    ensures parts == DocsStep(rule, ref, documents, acc).parts && added == DocsStep(rule, ref, documents, acc).added
  {
    parts, added := parts0, added0;
    ghost var cur := acc;
    var j := 0;
    while j < |documents|
      invariant 0 <= j <= |documents|
      invariant cur == DocsStep(rule, ref, documents[..j], acc)
      invariant parts == cur.parts && added == cur.added
    {
      DocsStepNext(rule, ref, documents, j, acc);
      parts, added := AddDocument(rule, ref, documents[j], cur, parts, added);
      cur := DocStep(rule, ref, documents[j], cur);
      j := j + 1;
    }
    assert documents[..j] == documents;
  }

  lemma {:induction false} DocsStepNext(rule: BlockRule, ref: SectionRef, documents: seq<DocumentContent>, j: int, acc: Acc)
    requires 0 <= j < |documents|
    ensures DocsStep(rule, ref, documents[..j + 1], acc) == DocStep(rule, ref, documents[j], DocsStep(rule, ref, documents[..j], acc))
  {
    assert documents[..j + 1][..j] == documents[..j];
  }

  lemma {:induction false} RefsStepNext(rule: BlockRule, refs: seq<SectionRef>, i: int, documents: seq<DocumentContent>, acc: Acc)
    requires 0 <= i < |refs|
    ensures RefsStep(rule, refs[..i + 1], documents, acc) == DocsStep(rule, refs[i], documents, RefsStep(rule, refs[..i], documents, acc))
  {
    assert refs[..i + 1][..i] == refs[..i];
  }

  /** addRelevantContentToPrompt: appends to the prompt parts, returned in place of the source's list. */
  method AddRelevantContentToPrompt(rule: BlockRule, topic: TopicOutline, documents: seq<DocumentContent>, promptParts: seq<Object>)
    returns (parts: seq<Object>)
    ensures parts == RelevantContent(rule, topic.sectionRefs, documents, promptParts).parts
  {
    var refs := topic.sectionRefs;
    parts := promptParts;
    var added: set<Key> := {};
    ghost var acc := Acc(promptParts, {}, [], []);
    var i := 0;
    while i < |refs|
      invariant 0 <= i <= |refs|
      invariant acc == RefsStep(rule, refs[..i], documents, Acc(promptParts, {}, [], []))
      invariant parts == acc.parts && added == acc.added
    {
      RefsStepNext(rule, refs, i, documents, Acc(promptParts, {}, [], []));
      parts, added := AddReference(rule, refs[i], documents, acc, parts, added);
      acc := DocsStep(rule, refs[i], documents, acc);
      i := i + 1;
    }
    assert refs[..i] == refs;
    if added == {} {
      parts := AppendAllContent(documents, parts);
    }
  }
}
