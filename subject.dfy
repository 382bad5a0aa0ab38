/**
 * A subject: its id, title, description and topics. Progress is
 * aggregated over the topics; the topics are loaded lazily by merging the
 * generated JSON files of the subject, and the subject converts to and
 * from JSON.
 *
 * The Topic methods the aggregation calls (isCompleted,
 * getTotalChallenges, getCompletedChallenges, getTotalAttempts,
 * getBestScore) are not part of Topic as it stands, which holds only a
 * title; they are parameters here, and what is proved holds for any
 * definition of them.
 */
module Subjects {
  import opened Wrappers
  import opened Text
  import opened Json
  import opened Containers
  import opened Challenges
  import ScoreManager
  import ContainerFactory

  // ---------------------------------------------------------------- aggregation

  /** The sum of f over the topics (getTotalChallenges, getCompletedChallenges, getTotalAttempts). */
  function SumOf(ts: seq<Topic>, f: Topic -> int): (r: int)
    ensures (forall i :: 0 <= i < |ts| ==> f(ts[i]) >= 0) ==> r >= 0 && forall i :: 0 <= i < |ts| ==> f(ts[i]) <= r
    decreases |ts|
  {
    if |ts| == 0 then 0 else SumOf(ts[..|ts| - 1], f) + f(ts[|ts| - 1])
  }

  /** The number of topics p holds for (getCompletedTopics). */
  function CountOf(ts: seq<Topic>, p: Topic -> bool): (r: nat)
    ensures r <= |ts|
    ensures r == |ts| <==> forall i :: 0 <= i < |ts| ==> p(ts[i])
    ensures r == 0 <==> forall i :: 0 <= i < |ts| ==> !p(ts[i])
    decreases |ts|
  {
    if |ts| == 0 then 0 else CountOf(ts[..|ts| - 1], p) + (if p(ts[|ts| - 1]) then 1 else 0)
  }

  /** getBestScore: the highest topic best score, and 0 if none is higher. */
  function BestOf(ts: seq<Topic>, best: Topic -> int): (r: int)
    ensures r >= 0 && forall i :: 0 <= i < |ts| ==> best(ts[i]) <= r
    ensures r == 0 || exists i :: 0 <= i < |ts| && best(ts[i]) == r
    decreases |ts|
  {
    if |ts| == 0 then 0
    else
      var b := BestOf(ts[..|ts| - 1], best);
      if best(ts[|ts| - 1]) > b then best(ts[|ts| - 1]) else b
  }

  /** Java's int division, which truncates toward zero. */
  function TruncDiv(a: int, b: int): (q: int)
    requires b != 0
    ensures a >= 0 && b > 0 ==> q == a / b
  {
    var m := (if a < 0 then -a else a) / (if b < 0 then -b else b);
    if (a < 0) != (b < 0) then -m else m
  }

  /** getProgressPercentage: completed*100/total, and 0 without challenges. */
  function Percentage(completed: int, total: int): (r: int)
    ensures total == 0 ==> r == 0
  {
    if total == 0 then 0 else TruncDiv(completed * 100, total)
  }

  /** isCompleted: there are challenges and all of them are completed. */
  predicate AllCompleted(completed: int, total: int)
  {
    total > 0 && completed == total
  }

  /**
   * With no more completed challenges than challenges, the percentage lies
   * in 0..100 and reaches 100 exactly when the subject counts as completed.
   */
  lemma {:induction false} PercentageBounds(completed: int, total: int)
    requires 0 <= completed <= total
    ensures 0 <= Percentage(completed, total) <= 100
    ensures Percentage(completed, total) == 100 <==> AllCompleted(completed, total)
  {
    if total > 0 {
      ScoreManager.Percent(completed, total);
    }
  }

  // ---------------------------------------------------------------- topics preview

  const SEPARATOR := " • "
  const ELLIPSIS := " • …"

  function TitlesOf(ts: seq<Topic>): (r: seq<string>)
    ensures |r| == |ts| && forall i :: 0 <= i < |ts| ==> r[i] == ts[i].title
  {
    seq(|ts|, i requires 0 <= i < |ts| => ts[i].title)
  }

  /**
   * getTopicsPreview: "" without topics; otherwise the first
   * min(n, maxTopics) titles joined with " • ", and " • …" after them
   * exactly when there are more than maxTopics topics.
   */
  function Preview(titles: seq<string>, maxTopics: int): (r: string)
    ensures |titles| == 0 ==> r == ""
    ensures 0 < |titles| <= maxTopics ==> r == Join(titles, SEPARATOR)
    ensures 0 < maxTopics < |titles| ==> r == Join(titles[..maxTopics], SEPARATOR) + ELLIPSIS
    ensures 0 < |titles| && maxTopics <= 0 ==> r == ELLIPSIS
  {
    if |titles| == 0 then ""
    else
      var count := if |titles| < maxTopics then |titles| else maxTopics;
      var shown := if count <= 0 then [] else titles[..count];
      assert count == |titles| ==> shown == titles;
      Join(shown, SEPARATOR) + (if |titles| > maxTopics then ELLIPSIS else "")
  }

  /** Joining one more part appends the separator and the part. */
  lemma {:induction false} JoinSnoc(parts: seq<string>, x: string, sep: string)
    ensures Join(parts + [x], sep) == if |parts| == 0 then x else Join(parts, sep) + sep + x
    decreases |parts|
  {
    if |parts| == 1 {
      assert parts + [x] == [parts[0], x];
      assert (parts + [x])[1..] == [x];
    } else if |parts| > 1 {
      assert (parts + [x])[1..] == parts[1..] + [x];
      JoinSnoc(parts[1..], x, sep);
    }
  }

  /** The preview loop of getTopicsPreview over the titles. */
  method BuildPreview(titles: seq<string>, maxTopics: int) returns (r: string)
    ensures r == Preview(titles, maxTopics)
  {
    if |titles| == 0 {
      return "";
    }
    var sb := "";
    var count := if |titles| < maxTopics then |titles| else maxTopics;
    var i := 0;
    while i < count
      invariant 0 <= i <= |titles| && (count > 0 ==> i <= count) && (count <= 0 ==> i == 0)
      invariant sb == Join(titles[..i], SEPARATOR)
    {
      if i > 0 {
        sb := sb + SEPARATOR;
      }
      JoinSnoc(titles[..i], titles[i], SEPARATOR);
      assert titles[..i + 1] == titles[..i] + [titles[i]];
      sb := sb + titles[i];
      i := i + 1;
    }
    assert titles[..i] == if count <= 0 then [] else titles[..count];
    if |titles| > maxTopics {
      sb := sb + ELLIPSIS;
    }
    return sb;
  }

  // ---------------------------------------------------------------- the generated-content merge

  /** The name the merge processes last. */
  const CONTENT_FILE := "content.json"

  /** String.compareTo(b) <= 0: a is a prefix of b or is smaller at the first difference. */
  predicate LexLessEq(a: string, b: string)
    decreases |a|
  {
    |a| == 0 || (|b| > 0 && (a[0] < b[0] || (a[0] == b[0] && LexLessEq(a[1..], b[1..]))))
  }

  lemma {:induction false} LexTotal(a: string, b: string)
    ensures LexLessEq(a, b) || LexLessEq(b, a)
    decreases |a|
  {
    if |a| > 0 && |b| > 0 && a[0] == b[0] {
      LexTotal(a[1..], b[1..]);
    }
  }

  /** The sort comparator's verdict compare(a, b) <= 0: content.json after all else, the rest by name. */
  predicate NameOrder(a: string, b: string)
  {
    a != CONTENT_FILE && (b == CONTENT_FILE || LexLessEq(a, b))
  }

  /** A generated JSON file: its name and the topics it holds, in file order. */
  datatype GeneratedFile = GeneratedFile(name: string, topics: seq<Topic>)

  /** Neighbours are in comparator order, or both are named content.json. */
  predicate SortedForMerge(fs: seq<GeneratedFile>)
  {
    forall i :: 0 <= i < |fs| - 1 ==>
      NameOrder(fs[i].name, fs[i + 1].name) || fs[i].name == fs[i + 1].name == CONTENT_FILE
  }

  /** Inserting `f` into a sorted list of files. */
  function Insert(f: GeneratedFile, fs: seq<GeneratedFile>): (r: seq<GeneratedFile>)
    requires SortedForMerge(fs)
    ensures SortedForMerge(r) && multiset(r) == multiset(fs) + multiset{f}
    ensures |r| > 0 && (r[0] == f || (|fs| > 0 && r[0] == fs[0]))
    decreases |fs|
  {
    if |fs| == 0 || NameOrder(f.name, fs[0].name) || f.name == fs[0].name == CONTENT_FILE then [f] + fs
    else
      LexTotal(f.name, fs[0].name);
      assert fs == [fs[0]] + fs[1..];
      [fs[0]] + Insert(f, fs[1..])
  }

  /** Arrays.sort of the listing with the merge's comparator. */
  function SortFiles(fs: seq<GeneratedFile>): (r: seq<GeneratedFile>)
    ensures SortedForMerge(r) && multiset(r) == multiset(fs)
    decreases |fs|
  {
    if |fs| == 0 then []
    else
      assert fs == [fs[0]] + fs[1..];
      Insert(fs[0], SortFiles(fs[1..]))
  }

  /** In a sorted listing, every file after a content.json is named content.json too: it comes last. */
  lemma {:induction false} ContentFileLast(fs: seq<GeneratedFile>, i: int)
    requires SortedForMerge(fs) && 0 <= i < |fs| && fs[i].name == CONTENT_FILE
    ensures forall j :: i <= j < |fs| ==> fs[j].name == CONTENT_FILE
    decreases |fs| - i
  {
    if i < |fs| - 1 {
      assert !NameOrder(fs[i].name, fs[i + 1].name);
      ContentFileLast(fs, i + 1);
    }
  }

  /** The listing filter of loadGeneratedContentFromStorage: the name ends in ".json", ignoring case. */
  predicate IsJsonName(name: string)
  {
    EndsWith(ToLower(name), ".json")
  }

  /**
   * The names the listing filter keeps: every file whose name ends in
   * ".json", ignoring case, as often as it is listed, and no other.
   */
  function JsonFiles(fs: seq<GeneratedFile>): (r: seq<GeneratedFile>)
    ensures forall k :: 0 <= k < |r| ==> IsJsonName(r[k].name)
    ensures forall f :: f in r <==> f in fs && IsJsonName(f.name)
    decreases |fs|
  {
    if |fs| == 0 then []
    else
      var last := fs[|fs| - 1];
      assert fs == fs[..|fs| - 1] + [last];
      JsonFiles(fs[..|fs| - 1]) + (if IsJsonName(last.name) then [last] else [])
  }

  /** Every ".json" file is kept as often as it is listed, and no other file is kept. */
  lemma {:induction false} JsonFilesCounts(fs: seq<GeneratedFile>, f: GeneratedFile)
    ensures multiset(JsonFiles(fs))[f] == if IsJsonName(f.name) then multiset(fs)[f] else 0
    decreases |fs|
  {
    if |fs| > 0 {
      var init, last := fs[..|fs| - 1], fs[|fs| - 1];
      assert fs == init + [last];
      JsonFilesCounts(init, f);
    }
  }

  /** The filter keeps the listing's order: filtering a concatenation concatenates the filtered parts. */
  lemma {:induction false} JsonFilesAppend(a: seq<GeneratedFile>, b: seq<GeneratedFile>)
    ensures JsonFiles(a + b) == JsonFiles(a) + JsonFiles(b)
    decreases |b|
  {
    if |b| == 0 {
      assert a + b == a;
    } else {
      var init, last := b[..|b| - 1], b[|b| - 1];
      var extra := if IsJsonName(last.name) then [last] else [];
      assert (a + b)[..|a + b| - 1] == a + init;
      assert (a + b)[|a + b| - 1] == last;
      assert JsonFiles(a + b) == JsonFiles(a + init) + extra;
      assert JsonFiles(b) == JsonFiles(init) + extra;
      JsonFilesAppend(a, init);
      calc {
        JsonFiles(a + b);
        JsonFiles(a + init) + extra;
        (JsonFiles(a) + JsonFiles(init)) + extra;
        { assert (JsonFiles(a) + JsonFiles(init)) + extra == JsonFiles(a) + (JsonFiles(init) + extra); }
        JsonFiles(a) + JsonFiles(b);
      }
    }
  }

  /** The topics of the files, file after file. */
  function AllTopics(fs: seq<GeneratedFile>): seq<Topic>
    decreases |fs|
  {
    if |fs| == 0 then [] else AllTopics(fs[..|fs| - 1]) + fs[|fs| - 1].topics
  }

  /** A LinkedHashMap from title to topic: the keys in insertion order and the mapping. */
  datatype Linked = Linked(keys: seq<string>, values: map<string, Topic>)

  ghost predicate LinkedValid(m: Linked)
  {
    (forall i, j :: 0 <= i < j < |m.keys| ==> m.keys[i] != m.keys[j]) &&
    (forall k :: k in m.values <==> k in m.keys)
  }

  /** put(k, v): a new key goes to the end; an existing key keeps its place and takes the new value. */
  function Put(m: Linked, k: string, v: Topic): (r: Linked)
    requires LinkedValid(m)
    ensures LinkedValid(r) && r.values == m.values[k := v]
    ensures k in m.values ==> r.keys == m.keys
    ensures k !in m.values ==> r.keys == m.keys + [k]
  {
    if k in m.values then Linked(m.keys, m.values[k := v]) else Linked(m.keys + [k], m.values[k := v])
  }

  /** The map after putting every topic with a non-empty title, in order. */
  function Merged(ts: seq<Topic>): (r: Linked)
    ensures LinkedValid(r)
    decreases |ts|
  {
    if |ts| == 0 then Linked([], map[])
    else
      var m := Merged(ts[..|ts| - 1]);
      var t := ts[|ts| - 1];
      if t.title == "" then m else Put(m, t.title, t)
  }

  /** The loop over one file's topics: put each one with a non-empty title. */
  method PutTopics(m: Linked, ghost before: seq<Topic>, ts: seq<Topic>) returns (r: Linked)
    requires m == Merged(before)
    ensures r == Merged(before + ts)
  {
    r := m;
    var i := 0;
    assert before + ts[..0] == before;
    while i < |ts|
      invariant 0 <= i <= |ts|
      invariant r == Merged(before + ts[..i])
    {
      PrefixSnoc(before, ts, i);
      MergedSnoc(before + ts[..i], ts[i]);
      if ts[i].title != "" {
        r := Put(r, ts[i].title, ts[i]);
      }
      i := i + 1;
    }
    assert ts[..i] == ts;
  }

  lemma {:induction false} PrefixSnoc(before: seq<Topic>, ts: seq<Topic>, i: int)
    requires 0 <= i < |ts|
    ensures before + ts[..i + 1] == (before + ts[..i]) + [ts[i]]
  {
    assert ts[..i + 1] == ts[..i] + [ts[i]];
  }

  /** Merging one more topic puts it, unless its title is empty. */
  lemma {:induction false} MergedSnoc(ts: seq<Topic>, t: Topic)
    ensures Merged(ts + [t]) == if t.title == "" then Merged(ts) else Put(Merged(ts), t.title, t)
  {
    assert (ts + [t])[..|ts|] == ts;
  }

  /** The loop over the sorted files. */
  method MergeFiles(files: seq<GeneratedFile>) returns (unique: Linked)
    ensures unique == Merged(AllTopics(files))
  {
    unique := Linked([], map[]);
    var f := 0;
    while f < |files|
      invariant 0 <= f <= |files|
      invariant unique == Merged(AllTopics(files[..f]))
    {
      assert files[..f + 1][..f] == files[..f];
      unique := PutTopics(unique, AllTopics(files[..f]), files[f].topics);
      f := f + 1;
    }
    assert files[..f] == files;
  }

  /** LinkedHashMap.values(): the topics in key order. */
  function Values(m: Linked): (r: seq<Topic>)
    requires LinkedValid(m)
    ensures |r| == |m.keys| && forall i :: 0 <= i < |r| ==> r[i] == m.values[m.keys[i]]
  {
    seq(|m.keys|, i requires 0 <= i < |m.keys| => m.values[m.keys[i]])
  }

  /** The merged titles are exactly the non-empty titles of the input. */
  lemma {:induction false} MergedTitles(ts: seq<Topic>, k: string)
    ensures k in Merged(ts).values <==> k != "" && exists i :: 0 <= i < |ts| && ts[i].title == k
    decreases |ts|
  {
    if |ts| > 0 {
      var init := ts[..|ts| - 1];
      MergedTitles(init, k);
      if k in Merged(init).values {
        var i :| 0 <= i < |init| && init[i].title == k;
        assert ts[i] == init[i];
      }
      if exists i :: 0 <= i < |ts| && ts[i].title == k {
        var i :| 0 <= i < |ts| && ts[i].title == k;
        if i < |ts| - 1 {
          assert init[i] == ts[i];
        }
      }
    }
  }

  /** ts[i] has title k and no later topic has it. */
  predicate LastWithTitle(ts: seq<Topic>, i: int, k: string)
  {
    0 <= i < |ts| && ts[i].title == k && forall j :: i < j < |ts| ==> ts[j].title != k
  }

  /** The topic kept under a title is the last one with that title: later files win. */
  lemma {:induction false} MergedKeepsLast(ts: seq<Topic>, k: string)
    requires k in Merged(ts).values
    ensures exists i :: LastWithTitle(ts, i, k) && ts[i] == Merged(ts).values[k]
    decreases |ts|
  {
    MergedTitles(ts, k);
    var init := ts[..|ts| - 1];
    var t := ts[|ts| - 1];
    var m := Merged(init);
    assert ts == init + [t];
    MergedSnoc(init, t);
    if t.title == k {
      assert Merged(ts).values[k] == t;
      assert LastWithTitle(ts, |ts| - 1, k);
    } else {
      assert k in m.values && Merged(ts).values[k] == m.values[k];
      MergedKeepsLast(init, k);
      var i :| LastWithTitle(init, i, k) && init[i] == m.values[k];
      LastWithTitleSnoc(init, t, i, k);
    }
  }

  /** A later topic with another title leaves the last topic with title k where it was. */
  lemma {:induction false} LastWithTitleSnoc(init: seq<Topic>, t: Topic, i: int, k: string)
    requires LastWithTitle(init, i, k) && t.title != k
    ensures LastWithTitle(init + [t], i, k) && (init + [t])[i] == init[i]
  {
    var ts := init + [t];
    assert forall j :: i < j < |ts| - 1 ==> ts[j] == init[j];
  }

  /**
   * A title keeps the place of its first occurrence: for two merged titles,
   * the earlier one occurs before every occurrence of the later one.
   */
  lemma {:induction false} MergedOrder(ts: seq<Topic>, a: int, b: int, j: int)
    requires 0 <= a < b < |Merged(ts).keys| && 0 <= j < |ts| && ts[j].title == Merged(ts).keys[b]
    ensures exists i :: 0 <= i < j && ts[i].title == Merged(ts).keys[a]
    decreases |ts|
  {
    var init := ts[..|ts| - 1];
    var t := ts[|ts| - 1];
    var m := Merged(init);
    var keys := Merged(ts).keys;
    assert forall i :: 0 <= i < |init| ==> init[i] == ts[i];
    if t.title == "" || t.title in m.values {
      assert keys == m.keys;
      if j == |ts| - 1 {
        MergedTitles(init, keys[a]);
        var i :| 0 <= i < |init| && init[i].title == keys[a];
      } else {
        assert init[j].title == m.keys[b];
        MergedOrder(init, a, b, j);
      }
    } else {
      assert keys == m.keys + [t.title];
      if b < |m.keys| {
        if j == |ts| - 1 {
          assert false;
        }
        assert init[j].title == m.keys[b];
        MergedOrder(init, a, b, j);
      } else {
        assert keys[a] == m.keys[a] && keys[a] in m.values;
        MergedTitles(init, keys[a]);
        var i :| 0 <= i < |init| && init[i].title == keys[a];
        if j < |ts| - 1 {
          assert init[j].title == t.title;
          MergedTitles(init, t.title);
          assert false;
        }
      }
    }
  }

  // ---------------------------------------------------------------- JSON

  /** Subject's fields as a value. */
  datatype SubjectData = SubjectData(
    subjectId: int, title: Option<string>, description: Option<string>, topics: Option<seq<Topic>>)

  /** A list that is null or empty is not written. */
  predicate Written<T>(l: Option<seq<T>>) { l.Some? && |l.value| > 0 }

  /** challengeToJSON. */
  function ChallengeJson(c: ChallengeData): (r: Object)
    ensures "title" in r && r["title"] == JStr(c.title)
    ensures "description" in r && r["description"] == JStr(c.description)
    ensures "completed" in r && r["completed"] == JBool(c.completed)
    ensures "bestScore" in r && r["bestScore"] == JInt(c.bestScore)
    ensures "attempts" in r && r["attempts"] == JInt(c.attempts)
    ensures "containers" in r <==> Written(c.containerlist)
  {
    var base := map["title" := JStr(c.title), "description" := JStr(c.description), "completed" := JBool(c.completed),
      "bestScore" := JInt(c.bestScore), "attempts" := JInt(c.attempts)];
    if Written(c.containerlist) then
      var cs := c.containerlist.value;
      base["containers" := JArr(seq(|cs|, i requires 0 <= i < |cs| => JObj(ContainerFactory.ToJson(cs[i]))))]
    else base
  }

  function ChallengesJson(cs: seq<ChallengeData>): (r: seq<Json>)
    ensures |r| == |cs| && forall i :: 0 <= i < |cs| ==> r[i] == JObj(ChallengeJson(cs[i]))
  {
    seq(|cs|, i requires 0 <= i < |cs| => JObj(ChallengeJson(cs[i])))
  }

  /** topicToJSON. */
  function TopicJson(t: Topic): (r: Object)
    ensures "title" in r && r["title"] == JStr(t.title)
    ensures "challenges" in r <==> Written(t.challenges)
  {
    var base := map["title" := JStr(t.title)];
    if Written(t.challenges) then base["challenges" := JArr(ChallengesJson(t.challenges.value))] else base
  }

  function TopicsJson(ts: seq<Topic>): (r: seq<Json>)
    ensures |r| == |ts| && forall i :: 0 <= i < |ts| ==> r[i] == JObj(TopicJson(ts[i]))
  {
    seq(|ts|, i requires 0 <= i < |ts| => JObj(TopicJson(ts[i])))
  }

  /** toJSON: put with a null value leaves the key out. */
  function SubjectJson(s: SubjectData): (r: Object)
    ensures "subjectId" in r && r["subjectId"] == JInt(s.subjectId)
    ensures "title" in r <==> s.title.Some?
    ensures "description" in r <==> s.description.Some?
    ensures "topics" in r <==> Written(s.topics)
  {
    var withId := map["subjectId" := JInt(s.subjectId)];
    var withTitle := if s.title.Some? then withId["title" := JStr(s.title.value)] else withId;
    var withDescription := if s.description.Some? then withTitle["description" := JStr(s.description.value)] else withTitle;
    if Written(s.topics) then withDescription["topics" := JArr(TopicsJson(s.topics.value))] else withDescription
  }

  /** challengeFromJSON: title and description are required; completed and bestScore are read when present. */
  function ChallengeFromJson(o: Object): (r: Option<ChallengeData>)
    ensures r.Some? ==> r.value.attempts == 0 && r.value.containerlist.None? && r.value.bestScore >= 0
  {
    var title := GetString(o, "title");
    var description := GetString(o, "description");
    if title.None? || description.None? then None
    else if Has(o, "completed") && GetBool(o, "completed").None? then None
    else if Has(o, "bestScore") && GetInt(o, "bestScore").None? then None
    else
      var completed := if Has(o, "completed") then GetBool(o, "completed").value else false;
      var best := if Has(o, "bestScore") && GetInt(o, "bestScore").value > 0 then GetInt(o, "bestScore").value else 0;
      Some(ChallengeData(title.value, description.value, completed, best, 0, None))
  }

  /** Reading each element with getJSONObject and challengeFromJSON. */
  function ChallengesFromJson(items: seq<Json>): (r: Option<seq<ChallengeData>>)
    ensures r.Some? ==> |r.value| == |items|
    decreases |items|
  {
    if |items| == 0 then Some([])
    else
      var init := ChallengesFromJson(items[..|items| - 1]);
      var last := items[|items| - 1];
      if init.None? || !last.JObj? then None
      else
        var c := ChallengeFromJson(last.fields);
        if c.None? then None else Some(init.value + [c.value])
  }

  /** topicFromJSON: the title is required; challenges are set only when the key is present. */
  function TopicFromJson(o: Object): (r: Option<Topic>)
    ensures r.Some? ==> GetString(o, "title") == Some(r.value.title)
    ensures r.Some? ==> (r.value.challenges.Some? <==> Has(o, "challenges"))
  {
    var title := GetString(o, "title");
    if title.None? then None
    else if !Has(o, "challenges") then Some(Topic(title.value, None))
    else
      var items := GetArray(o, "challenges");
      if items.None? then None
      else
        var cs := ChallengesFromJson(items.value);
        if cs.None? then None else Some(Topic(title.value, cs))
  }

  function TopicsFromJson(items: seq<Json>): (r: Option<seq<Topic>>)
    ensures r.Some? ==> |r.value| == |items|
    decreases |items|
  {
    if |items| == 0 then Some([])
    else
      var init := TopicsFromJson(items[..|items| - 1]);
      var last := items[|items| - 1];
      if init.None? || !last.JObj? then None
      else
        var t := TopicFromJson(last.fields);
        if t.None? then None else Some(init.value + [t.value])
  }

  /** fromJSON: subjectId is required; title, description and topics are read when present. */
  function SubjectFromJson(o: Object): (r: Option<SubjectData>)
    ensures r.Some? ==> GetInt(o, "subjectId") == Some(r.value.subjectId)
    ensures r.Some? ==> (r.value.topics.Some? <==> Has(o, "topics"))
  {
    var id := GetInt(o, "subjectId");
    if id.None? then None
    else if Has(o, "title") && GetString(o, "title").None? then None
    else if Has(o, "description") && GetString(o, "description").None? then None
    else
      var title := if Has(o, "title") then GetString(o, "title") else None;
      var description := if Has(o, "description") then GetString(o, "description") else None;
      if !Has(o, "topics") then Some(SubjectData(id.value, title, description, None))
      else
        var items := GetArray(o, "topics");
        if items.None? then None
        else
          var ts := TopicsFromJson(items.value);
          if ts.None? then None else Some(SubjectData(id.value, title, description, ts))
  }

  /** What fromJSON gives back for a challenge: no attempts, no containers, a best score of at least 0. */
  function ReloadedChallenge(c: ChallengeData): ChallengeData
  {
    ChallengeData(c.title, c.description, c.completed, if c.bestScore > 0 then c.bestScore else 0, 0, None)
  }

  function ReloadedChallenges(cs: seq<ChallengeData>): (r: seq<ChallengeData>)
    ensures |r| == |cs| && forall i :: 0 <= i < |cs| ==> r[i] == ReloadedChallenge(cs[i])
  {
    seq(|cs|, i requires 0 <= i < |cs| => ReloadedChallenge(cs[i]))
  }

  /** What fromJSON gives back for a topic: an empty challenge list is not written, so it comes back unset. */
  function ReloadedTopic(t: Topic): Topic
  {
    Topic(t.title, if Written(t.challenges) then Some(ReloadedChallenges(t.challenges.value)) else None)
  }

  function ReloadedTopics(ts: seq<Topic>): (r: seq<Topic>)
    ensures |r| == |ts| && forall i :: 0 <= i < |ts| ==> r[i] == ReloadedTopic(ts[i])
  {
    seq(|ts|, i requires 0 <= i < |ts| => ReloadedTopic(ts[i]))
  }

  function Reloaded(s: SubjectData): SubjectData
  {
    SubjectData(s.subjectId, s.title, s.description, if Written(s.topics) then Some(ReloadedTopics(s.topics.value)) else None)
  }

  lemma {:induction false} ChallengeRoundTrip(c: ChallengeData)
    ensures ChallengeFromJson(ChallengeJson(c)) == Some(ReloadedChallenge(c))
  {
    var o := ChallengeJson(c);
    assert GetString(o, "title") == Some(c.title) && GetString(o, "description") == Some(c.description);
    assert GetBool(o, "completed") == Some(c.completed) && GetInt(o, "bestScore") == Some(c.bestScore);
  }

  lemma {:induction false} ChallengesRoundTrip(cs: seq<ChallengeData>)
    ensures ChallengesFromJson(ChallengesJson(cs)) == Some(ReloadedChallenges(cs))
    decreases |cs|
  {
    if |cs| > 0 {
      ChallengesRoundTrip(cs[..|cs| - 1]);
      ChallengesRoundTripLast(cs);
    }
  }

  /** The step of ChallengesRoundTrip: the last challenge read back is appended to the others. */
  lemma {:induction false} ChallengesRoundTripLast(cs: seq<ChallengeData>)
    requires |cs| > 0
    requires ChallengesFromJson(ChallengesJson(cs[..|cs| - 1])) == Some(ReloadedChallenges(cs[..|cs| - 1]))
    ensures ChallengesFromJson(ChallengesJson(cs)) == Some(ReloadedChallenges(cs))
  {
    var init, last := cs[..|cs| - 1], cs[|cs| - 1];
    ChallengesLast(cs);
    ChallengeRoundTrip(last);
    ChallengesFromJsonLast(ChallengesJson(cs), ReloadedChallenges(init), ChallengeJson(last), ReloadedChallenge(last));
  }

  /** Writing, and reloading, a non-empty list is doing so for all but the last challenge, then the last. */
  lemma {:induction false} ChallengesLast(cs: seq<ChallengeData>)
    requires |cs| > 0
    ensures ChallengesJson(cs)[..|cs| - 1] == ChallengesJson(cs[..|cs| - 1])
    ensures ChallengesJson(cs)[|cs| - 1] == JObj(ChallengeJson(cs[|cs| - 1]))
    ensures ReloadedChallenges(cs[..|cs| - 1]) + [ReloadedChallenge(cs[|cs| - 1])] == ReloadedChallenges(cs)
  {
  }

  /** Reading one more challenge object appends what it reads. */
  lemma {:induction false} ChallengesFromJsonLast(items: seq<Json>, init: seq<ChallengeData>, o: Object, c: ChallengeData)
    requires |items| > 0 && items[|items| - 1] == JObj(o)
    requires ChallengesFromJson(items[..|items| - 1]) == Some(init) && ChallengeFromJson(o) == Some(c)
    ensures ChallengesFromJson(items) == Some(init + [c])
  {
  }

  lemma {:induction false} TopicRoundTrip(t: Topic)
    ensures TopicFromJson(TopicJson(t)) == Some(ReloadedTopic(t))
  {
    var o := TopicJson(t);
    assert GetString(o, "title") == Some(t.title);
    if Written(t.challenges) {
      assert GetArray(o, "challenges") == Some(ChallengesJson(t.challenges.value));
      ChallengesRoundTrip(t.challenges.value);
    }
  }

  lemma {:induction false} TopicsRoundTrip(ts: seq<Topic>)
    ensures TopicsFromJson(TopicsJson(ts)) == Some(ReloadedTopics(ts))
    decreases |ts|
  {
    if |ts| > 0 {
      var init := ts[..|ts| - 1];
      var items := TopicsJson(ts);
      assert items[..|ts| - 1] == TopicsJson(init);
      TopicsRoundTrip(init);
      TopicRoundTrip(ts[|ts| - 1]);
      assert items[|ts| - 1] == JObj(TopicJson(ts[|ts| - 1]));
      assert ReloadedTopics(init) + [ReloadedTopic(ts[|ts| - 1])] == ReloadedTopics(ts);
    }
  }

  /**
   * fromJSON(toJSON()) keeps the id, title, description and topic titles,
   * and each challenge's title, description, completion and best score
   * (raised to at least 0); attempts and containers are not read back,
   * and an empty list comes back unset.
   */
  lemma {:induction false} SubjectRoundTrip(s: SubjectData)
    ensures SubjectFromJson(SubjectJson(s)) == Some(Reloaded(s))
  {
    var o := SubjectJson(s);
    assert GetInt(o, "subjectId") == Some(s.subjectId);
    assert s.title.Some? ==> GetString(o, "title") == Some(s.title.value);
    assert s.description.Some? ==> GetString(o, "description") == Some(s.description.value);
    if Written(s.topics) {
      assert GetArray(o, "topics") == Some(TopicsJson(s.topics.value));
      TopicsRoundTrip(s.topics.value);
    }
  }

  /** saveToStorage's document: {"topics": [...]} with each topic written as toJSON writes it. */
  function ContentDocument(ts: seq<Topic>): (r: Object)
    ensures r.Keys == {"topics"} && "topics" in r && r["topics"].JArr? && |r["topics"].items| == |ts|
  {
    map["topics" := JArr(TopicsJson(ts))]
  }

  /** The topics saveToStorage writes are those toJSON writes. */
  lemma {:induction false} SavedTopicsMatchToJson(s: SubjectData)
    requires Written(s.topics)
    ensures "topics" in SubjectJson(s) && ContentDocument(s.topics.value)["topics"] == SubjectJson(s)["topics"]
  {
  }

  // ---------------------------------------------------------------- the subject

  class Subject {
    const subjectId: int
    var title: Option<string>
    var description: Option<string>
    var topics: Option<seq<Topic>>

    function Value(): SubjectData
      reads this
    {
      SubjectData(subjectId, title, description, topics)
    }

    constructor (id: int)
      ensures Value() == SubjectData(id, None, None, None)
    {
      subjectId := id;
      title := None;
      description := None;
      topics := None;
    }

    method SetTitle(t: Option<string>)
      modifies this
      ensures Value() == old(Value()).(title := t)
    {
      title := t;
    }

    method SetDescription(d: Option<string>)
      modifies this
      ensures Value() == old(Value()).(description := d)
    {
      description := d;
    }

    method SetTopics(ts: Option<seq<Topic>>)
      modifies this
      ensures Value() == old(Value()).(topics := ts)
    {
      topics := ts;
    }

    /** getTopics(): creates the empty list on first use and returns it from then on. */
    method GetTopics() returns (r: seq<Topic>)
      modifies this
      ensures old(topics).Some? ==> r == old(topics).value
      ensures old(topics).None? ==> r == []
      ensures Value() == old(Value()).(topics := Some(r))
    {
      if topics.None? {
        topics := Some([]);
      }
      r := topics.value;
    }

    /**
     * loadGeneratedContentFromStorage on the subject's listing: the .json
     * files sorted with content.json last, their topics merged by title.
     * The topics are replaced only when the merge holds a topic.
     */
    method LoadGeneratedContent(listing: seq<GeneratedFile>) returns (loaded: bool)
      modifies this
      ensures var m := Merged(AllTopics(SortFiles(JsonFiles(listing))));
        loaded == (|m.keys| > 0) &&
        Value() == if loaded then old(Value()).(topics := Some(Values(m))) else old(Value())
    {
      var files := SortFiles(JsonFiles(listing));
      if |files| == 0 {
        assert Merged(AllTopics(files)).keys == [];
        return false;
      }
      var unique := MergeFiles(files);
      if |unique.keys| > 0 {
        topics := Some(Values(unique));
        return true;
      }
      return false;
    }

    /** getTopics(context): on first use, an empty list, then the merged generated content if there is any. */
    method GetTopicsFromStorage(listing: seq<GeneratedFile>) returns (r: seq<Topic>)
      modifies this
      ensures var m := Merged(AllTopics(SortFiles(JsonFiles(listing))));
        old(topics).None? ==> r == (if |m.keys| > 0 then Values(m) else [])
      ensures old(topics).Some? ==> r == old(topics).value
      ensures Value() == old(Value()).(topics := Some(r))
    {
      if topics.None? {
        topics := Some([]);
        var _ := LoadGeneratedContent(listing);
      }
      r := topics.value;
    }

    /** getTopicsPreview: the preview of the topics getTopics yields, loading them on first use. */
    method GetTopicsPreview(listing: seq<GeneratedFile>, maxTopics: int) returns (preview: string)
      modifies this
      ensures topics.Some? && preview == Preview(TitlesOf(topics.value), maxTopics)
      ensures old(topics).Some? ==> topics == old(topics)
      ensures var m := Merged(AllTopics(SortFiles(JsonFiles(listing))));
        old(topics).None? ==> topics == Some(if |m.keys| > 0 then Values(m) else [])
      ensures Value() == old(Value()).(topics := topics)
    {
      var ts := GetTopicsFromStorage(listing);
      preview := BuildPreview(TitlesOf(ts), maxTopics);
    }

    /** The accumulator loop shared by getTotalChallenges, getCompletedChallenges and getTotalAttempts. */
    method SumOverTopics(f: Topic -> int) returns (r: int)
      modifies this
      ensures topics.Some? && r == SumOf(topics.value, f)
      ensures Value() == old(Value()).(topics := Some(if old(topics).None? then [] else old(topics).value))
    {
      var ts := GetTopics();
      r := 0;
      var i := 0;
      while i < |ts|
        invariant 0 <= i <= |ts|
        invariant r == SumOf(ts[..i], f)
      {
        assert ts[..i + 1][..i] == ts[..i];
        r := r + f(ts[i]);
        i := i + 1;
      }
      assert ts[..i] == ts;
    }

    /** getCompletedTopics. */
    method CompletedTopics(isCompleted: Topic -> bool) returns (r: int)
      modifies this
      ensures topics.Some? && r == CountOf(topics.value, isCompleted)
      ensures Value() == old(Value()).(topics := Some(if old(topics).None? then [] else old(topics).value))
    {
      var ts := GetTopics();
      r := 0;
      var i := 0;
      while i < |ts|
        invariant 0 <= i <= |ts|
        invariant r == CountOf(ts[..i], isCompleted)
      {
        assert ts[..i + 1][..i] == ts[..i];
        if isCompleted(ts[i]) {
          r := r + 1;
        }
        i := i + 1;
      }
      assert ts[..i] == ts;
    }

    /** getBestScore. */
    method BestScore(best: Topic -> int) returns (r: int)
      modifies this
      ensures topics.Some? && r == BestOf(topics.value, best)
      ensures Value() == old(Value()).(topics := Some(if old(topics).None? then [] else old(topics).value))
    {
      var ts := GetTopics();
      r := 0;
      var i := 0;
      while i < |ts|
        invariant 0 <= i <= |ts|
        invariant r == BestOf(ts[..i], best)
      {
        assert ts[..i + 1][..i] == ts[..i];
        if best(ts[i]) > r {
          r := best(ts[i]);
        }
        i := i + 1;
      }
      assert ts[..i] == ts;
    }

    /** getProgressPercentage over the topics' challenge counts. */
    method ProgressPercentage(totalOf: Topic -> int, completedOf: Topic -> int) returns (r: int)
      modifies this
      ensures topics.Some? && r == Percentage(SumOf(topics.value, completedOf), SumOf(topics.value, totalOf))
      ensures Value() == old(Value()).(topics := Some(if old(topics).None? then [] else old(topics).value))
    {
      var total := SumOverTopics(totalOf);
      if total == 0 {
        return 0;
      }
      var completed := SumOverTopics(completedOf);
      r := TruncDiv(completed * 100, total);
    }

    /** isCompleted over the topics' challenge counts. */
    method IsCompleted(totalOf: Topic -> int, completedOf: Topic -> int) returns (r: bool)
      modifies this
      ensures topics.Some? && r == AllCompleted(SumOf(topics.value, completedOf), SumOf(topics.value, totalOf))
      ensures Value() == old(Value()).(topics := Some(if old(topics).None? then [] else old(topics).value))
    {
      var total := SumOverTopics(totalOf);
      if total <= 0 {
        return false;
      }
      var completed := SumOverTopics(completedOf);
      r := completed == total;
    }

    /**
     * saveToStorage: nothing happens and false comes back while the topics
     * are unset or empty; otherwise the document written to content.json,
     * and whether the write succeeded.
     */
    method SaveToStorage(writeSucceeds: bool) returns (ok: bool, written: Option<Object>)
      ensures !Written(topics) ==> !ok && written.None?
      ensures Written(topics) ==> ok == writeSucceeds && written == Some(ContentDocument(topics.value))
    {
      if topics.None? || |topics.value| == 0 {
        return false, None;
      }
      return writeSucceeds, Some(ContentDocument(topics.value));
    }
  }
}
