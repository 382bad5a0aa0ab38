/**
 * SubjectGenerationService: turns the generated JSON into topics,
 * challenges and containers, checks what came out, and finds the stored
 * subjects by their directory names.
 *
 * Every container is built by ContentContainerFactory.createFromJson,
 * which takes ids from the factory's counter; the specification functions
 * thread that counter through explicitly. An exception that escapes a
 * parser is None.
 */
module SubjectGeneration {
  import opened Wrappers
  import opened Text
  import opened Json
  import opened Containers
  import opened Challenges
  import opened ContainerFactory
  import Subjects

  const UNTITLED_CHALLENGE := "Untitled Challenge"
  const SUBJECT_PREFIX := "subject_"

  // ---------------------------------------------------------------- containers of a challenge

  /** createFromJson never yields a QUIZ: the tag has no case for it. */
  lemma {:induction false} CreateNeverQuiz(o: Object, next: int, order: KeyOrder)
    ensures Create(o, next, order).0.Built? ==> TypeOf(Create(o, next, order).0.container.content) != QUIZ
  {
    match GetString(o, "type")
    case None =>
    case Some(tag) =>
      match KindOf(ToUpper(tag))
      case None =>
      case Some(t) =>
        if t == RECAP {
          var r := CreateRecap(next, o, next + 1, order);
          assert r.0.Built? ==> r.0.container.content.RecapContent?;
        }
  }

  /**
   * One element of the containers array: getJSONObject(i) and then
   * createFromJson. An element that is not an object throws before the
   * factory is called.
   */
  function ContainerStep(item: Json, next: int, order: KeyOrder): (r: (Outcome, int))
    ensures !item.JObj? ==> r == (Threw, next)
    ensures r.0.Built? ==> r.0.container.id == next && r.1 > next && TypeOf(r.0.container.content) != QUIZ
    ensures r.1 >= next
  {
    if !item.JObj? then (Threw, next)
    else
      CreateNeverQuiz(item.fields, next, order);
      Create(item.fields, next, order)
  }

  /**
   * The container loop of parseChallenge: the containers built, in order,
   * the number skipped (null or a JSONException, both caught per element),
   * the counter afterwards, and whether a NumberFormatException escaped
   * the loop, which ends it. Without one every element is either kept or
   * skipped; the kept ones carry increasing ids taken from the counter,
   * and none is a QUIZ.
   */
  function ParseContainers(items: seq<Json>, next: int, order: KeyOrder): (r: (seq<Container>, nat, int, bool))
    ensures !r.3 ==> |r.0| + r.1 == |items|
    ensures r.3 ==> |r.0| + r.1 < |items|
    ensures r.2 >= next
    ensures forall k :: 0 <= k < |r.0| ==> next <= r.0[k].id < r.2 && TypeOf(r.0[k].content) != QUIZ
    ensures forall k, l :: 0 <= k < l < |r.0| ==> r.0[k].id < r.0[l].id
    decreases |items|
  {
    if |items| == 0 then ([], 0, next, false)
    else
      var (kept, skipped, n, aborted) := ParseContainers(items[..|items| - 1], next, order);
      if aborted then (kept, skipped, n, true)
      else
        var (out, after) := ContainerStep(items[|items| - 1], n, order);
        if out.Aborted? then (kept, skipped, after, true)
        else if out.Built? then (kept + [out.container], skipped, after, false)
        else (kept, skipped + 1, after, false)
  }

  lemma {:induction false} ParseContainersNext(items: seq<Json>, i: int, next: int, order: KeyOrder)
    requires 0 <= i < |items| && !ParseContainers(items[..i], next, order).3
    ensures var p := ParseContainers(items[..i], next, order);
            var s := ContainerStep(items[i], p.2, order);
            ParseContainers(items[..i + 1], next, order) ==
              if s.0.Aborted? then (p.0, p.1, s.1, true)
              else if s.0.Built? then (p.0 + [s.0.container], p.1, s.1, false)
              else (p.0, p.1 + 1, s.1, false)
  {
    var pre := items[..i + 1];
    assert pre[..|pre| - 1] == items[..i];
    assert pre[|pre| - 1] == items[i];
    ParseContainersLast(pre, next, order);
  }

  /** ParseContainers unfolded once, at the last element of a non-empty array. */
  lemma {:induction false} ParseContainersLast(items: seq<Json>, next: int, order: KeyOrder)
    requires |items| > 0 && !ParseContainers(items[..|items| - 1], next, order).3
    ensures var p := ParseContainers(items[..|items| - 1], next, order);
            var s := ContainerStep(items[|items| - 1], p.2, order);
            ParseContainers(items, next, order) ==
              if s.0.Aborted? then (p.0, p.1, s.1, true)
              else if s.0.Built? then (p.0 + [s.0.container], p.1, s.1, false)
              else (p.0, p.1 + 1, s.1, false)
  {
  }

  /** Once a container aborts the loop, the rest of the array is not read: the outcome stays that of the prefix. */
  lemma {:induction false} ContainersStopAtAbort(items: seq<Json>, j: int, next: int, order: KeyOrder)
    requires 0 <= j <= |items| && ParseContainers(items[..j], next, order).3
    ensures ParseContainers(items, next, order) == ParseContainers(items[..j], next, order)
    decreases |items|
  {
    if j < |items| {
      var init := items[..|items| - 1];
      assert init[..j] == items[..j];
      ContainersStopAtAbort(init, j, next, order);
    } else {
      assert items[..j] == items;
    }
  }

  /** With nothing skipped or aborted, the prefix neither skipped nor aborted and the last element was an object that built. */
  lemma {:induction false} NothingSkippedLast(items: seq<Json>, next: int, order: KeyOrder)
    requires |items| > 0 && ParseContainers(items, next, order).1 == 0 && !ParseContainers(items, next, order).3
    ensures ParseContainers(items[..|items| - 1], next, order).1 == 0 && !ParseContainers(items[..|items| - 1], next, order).3
    ensures |ParseContainers(items, next, order).0| == |ParseContainers(items[..|items| - 1], next, order).0| + 1
    ensures items[|items| - 1].JObj?
  {
    var prev := ParseContainers(items[..|items| - 1], next, order);
    var step := ContainerStep(items[|items| - 1], prev.2, order);
    assert step.0.Built?;
  }

  /** With no element skipped and none aborting, every element built a container. */
  lemma {:induction false} NothingSkipped(items: seq<Json>, next: int, order: KeyOrder)
    requires ParseContainers(items, next, order).1 == 0 && !ParseContainers(items, next, order).3
    ensures |ParseContainers(items, next, order).0| == |items|
    ensures forall k :: 0 <= k < |items| ==> items[k].JObj?
    decreases |items|
  {
    if |items| > 0 {
      var init := items[..|items| - 1];
      NothingSkippedLast(items, next, order);
      NothingSkipped(init, next, order);
      AllObjects(items, init);
    }
  }

  lemma {:induction false} AllObjects(items: seq<Json>, init: seq<Json>)
    requires |items| > 0 && items[|items| - 1].JObj? && init == items[..|items| - 1]
    requires forall k :: 0 <= k < |init| ==> init[k].JObj?
    ensures forall k :: 0 <= k < |items| ==> items[k].JObj?
  {
    assert forall k :: 0 <= k < |init| ==> init[k] == items[k];
  }

  /**
   * parseChallenge: the title defaults to "Untitled Challenge" and the
   * description to ""; the container list is set only when "containers"
   * is present, and the call throws when it is not an array or when a
   * container's NumberFormatException escapes the loop.
   */
  function ParseChallenge(o: Object, next: int, order: KeyOrder): (r: (Option<ChallengeData>, int))
    ensures r.0.None? <==> (Has(o, "containers") &&
      (GetArray(o, "containers").None? || ParseContainers(GetArray(o, "containers").value, next, order).3))
    ensures r.0.Some? ==> r.0.value.title == OptString(o, "title", UNTITLED_CHALLENGE)
    ensures r.0.Some? ==> r.0.value.description == OptString(o, "description", "")
    ensures r.0.Some? ==> !r.0.value.completed && r.0.value.bestScore == 0 && r.0.value.attempts == 0
    ensures r.0.Some? ==> (r.0.value.containerlist.Some? <==> Has(o, "containers"))
    ensures r.1 >= next
  {
    var title := OptString(o, "title", UNTITLED_CHALLENGE);
    var description := OptString(o, "description", "");
    if !Has(o, "containers") then (Some(ChallengeData(title, description, false, 0, 0, None)), next)
    else match GetArray(o, "containers")
      case None => (None, next)
      case Some(items) =>
        var (kept, _, after, aborted) := ParseContainers(items, next, order);
        if aborted then (None, after)
        else (Some(ChallengeData(title, description, false, 0, 0, Some(kept))), after)
  }

  /** A challenge object with none of the optional keys becomes an untitled, empty, unstarted challenge. */
  lemma {:induction false} BareChallenge(next: int, order: KeyOrder)
    ensures ParseChallenge(map[], next, order) == (Some(ChallengeData(UNTITLED_CHALLENGE, "", false, 0, 0, None)), next)
  {
  }

  /** The challenges loop of parseTopic: one challenge per element, in order, or None when any throws. */
  function ParseChallenges(items: seq<Json>, next: int, order: KeyOrder): (r: (Option<seq<ChallengeData>>, int))
    ensures r.1 >= next
    ensures r.0.Some? ==> |r.0.value| == |items|
    ensures r.0.Some? ==> forall k :: 0 <= k < |items| ==>
      (items[k].JObj? && r.0.value[k].title == OptString(items[k].fields, "title", UNTITLED_CHALLENGE))
    decreases |items|
  {
    if |items| == 0 then (Some([]), next)
    else
      var (init, n) := ParseChallenges(items[..|items| - 1], next, order);
      var last := items[|items| - 1];
      if init.None? || !last.JObj? then (None, n)
      else
        var (c, after) := ParseChallenge(last.fields, n, order);
        if c.None? then (None, after) else (Some(init.value + [c.value]), after)
  }

  /** Once a challenge throws, the rest of the array is not read: the outcome stays that of the prefix. */
  lemma {:induction false} ChallengesStopAtFailure(items: seq<Json>, j: int, next: int, order: KeyOrder)
    requires 0 <= j <= |items| && ParseChallenges(items[..j], next, order).0.None?
    ensures ParseChallenges(items, next, order) == ParseChallenges(items[..j], next, order)
    decreases |items|
  {
    if j < |items| {
      var init := items[..|items| - 1];
      assert init[..j] == items[..j];
      ChallengesStopAtFailure(init, j, next, order);
    } else {
      assert items[..j] == items;
    }
  }

  /** parseTopic: "title" must be a string; challenges are set only when "challenges" is present. */
  function ParseTopic(o: Object, next: int, order: KeyOrder): (r: (Option<Topic>, int))
    ensures GetString(o, "title").None? ==> r == (None, next)
    ensures r.0.Some? ==> GetString(o, "title") == Some(r.0.value.title)
    ensures r.0.Some? ==> (r.0.value.challenges.Some? <==> Has(o, "challenges"))
    ensures !Has(o, "challenges") && GetString(o, "title").Some? ==> r == (Some(Topic(GetString(o, "title").value, None)), next)
    ensures r.1 >= next
  {
    match GetString(o, "title")
    case None => (None, next)
    case Some(title) =>
      if !Has(o, "challenges") then (Some(Topic(title, None)), next)
      else match GetArray(o, "challenges")
        case None => (None, next)
        case Some(items) =>
          var (cs, after) := ParseChallenges(items, next, order);
          if cs.None? then (None, after) else (Some(Topic(title, cs)), after)
  }

  /** The topics loop of parseAndPopulateSubject: one topic per element, in order, titled as the element. */
  function ParseTopics(items: seq<Json>, next: int, order: KeyOrder): (r: (Option<seq<Topic>>, int))
    ensures r.1 >= next
    ensures r.0.Some? ==> |r.0.value| == |items|
    ensures r.0.Some? ==> forall k :: 0 <= k < |items| ==>
      (items[k].JObj? && GetString(items[k].fields, "title") == Some(r.0.value[k].title))
    decreases |items|
  {
    if |items| == 0 then (Some([]), next)
    else
      var (init, n) := ParseTopics(items[..|items| - 1], next, order);
      var last := items[|items| - 1];
      if init.None? || !last.JObj? then (None, n)
      else
        var (t, after) := ParseTopic(last.fields, n, order);
        if t.None? then (None, after) else (Some(init.value + [t.value]), after)
  }

  /** Once a topic throws, the rest of the array is not read: the outcome stays that of the prefix. */
  lemma {:induction false} TopicsStopAtFailure(items: seq<Json>, j: int, next: int, order: KeyOrder)
    requires 0 <= j <= |items| && ParseTopics(items[..j], next, order).0.None?
    ensures ParseTopics(items, next, order) == ParseTopics(items[..j], next, order)
    decreases |items|
  {
    if j < |items| {
      var init := items[..|items| - 1];
      assert init[..j] == items[..j];
      TopicsStopAtFailure(init, j, next, order);
    } else {
      assert items[..j] == items;
    }
  }

  /** parseAndPopulateSubject: the topics of root["topics"], or None when anything throws. */
  function PopulateTopics(root: Object, next: int, order: KeyOrder): (r: (Option<seq<Topic>>, int))
    ensures GetArray(root, "topics").None? ==> r == (None, next)
    ensures r.0.Some? ==> |r.0.value| == |GetArray(root, "topics").value|
    ensures r.1 >= next
  {
    match GetArray(root, "topics")
    case None => (None, next)
    case Some(items) => ParseTopics(items, next, order)
  }

  /** A topic whose element has no "challenges" needs no container and leaves the counter alone. */
  lemma {:induction false} TitlesOnlyTopics(items: seq<Json>, next: int, order: KeyOrder)
    requires forall k :: 0 <= k < |items| ==>
      items[k].JObj? && GetString(items[k].fields, "title").Some? && !Has(items[k].fields, "challenges")
    ensures ParseTopics(items, next, order).1 == next
    ensures ParseTopics(items, next, order).0.Some?
    ensures forall k :: 0 <= k < |items| ==> ParseTopics(items, next, order).0.value[k].challenges.None?
    decreases |items|
  {
    if |items| > 0 {
      var init := items[..|items| - 1];
      assert forall k :: 0 <= k < |init| ==> init[k] == items[k];
      TitlesOnlyTopics(init, next, order);
      var prev := ParseTopics(init, next, order).0.value;
      var last := items[|items| - 1].fields;
      assert ParseTopic(last, next, order) == (Some(Topic(GetString(last, "title").value, None)), next);
      assert ParseTopics(items, next, order).0.value == prev + [Topic(GetString(last, "title").value, None)];
    }
  }

  /**
   * A WIRE_CONNECTING container whose correctMatches key is not a number
   * fails the whole generation: parseInt's NumberFormatException passes
   * the per-container catch for JSONException, so no topics come out.
   */
  lemma {:induction false} UnparsableMatchKeyFailsGeneration(order: KeyOrder)
    requires Enumerates(order)
    ensures var wire := map["type" := JStr("WIRE_CONNECTING"), "instructions" := JStr("i"), "leftItems" := JArr([]),
                            "rightItems" := JArr([]), "correctMatches" := JObj(map["a" := JInt(0)])];
            var topic := map["title" := JStr("t"), "challenges" := JArr([JObj(map["containers" := JArr([JObj(wire)])])])];
            PopulateTopics(map["topics" := JArr([JObj(topic)])], 0, order).0.None?
  {
    var wire := map["type" := JStr("WIRE_CONNECTING"), "instructions" := JStr("i"), "leftItems" := JArr([]),
                    "rightItems" := JArr([]), "correctMatches" := JObj(map["a" := JInt(0)])];
    var challenge := map["containers" := JArr([JObj(wire)])];
    var topic := map["title" := JStr("t"), "challenges" := JArr([JObj(challenge)])];
    WireWithLetterKeyAborts(wire, order);
    var items := [JObj(wire)];
    assert items[..0] == [];
    assert ParseContainers(items, 0, order).3;
    assert ParseChallenge(challenge, 0, order).0.None?;
    var challenges := [JObj(challenge)];
    assert challenges[..0] == [];
    assert ParseChallenges(challenges, 0, order).0.None?;
    assert ParseTopic(topic, 0, order).0.None?;
    var topics := [JObj(topic)];
    assert topics[..0] == [];
  }

  lemma {:induction false} WireWithLetterKeyAborts(wire: Object, order: KeyOrder)
    requires Enumerates(order)
    requires wire == map["type" := JStr("WIRE_CONNECTING"), "instructions" := JStr("i"), "leftItems" := JArr([]),
                         "rightItems" := JArr([]), "correctMatches" := JObj(map["a" := JInt(0)])]
    ensures ContainerStep(JObj(wire), 0, order) == (Aborted, 1)
  {
    var mo: Object := map["a" := JInt(0)];
    assert forall k :: k in order(mo) <==> k in mo;
    assert "a" in order(mo);
    assert order(mo)[0] in mo;
    assert !IsDigit("a"[0]);
    assert ParseInt("a").None?;
    UnparsableMatchKeyAborts(0, wire, order);
    assert TypeName(WIRE_CONNECTING) == "WIRE_CONNECTING";
    CreateOfTag(wire, 0, order, WIRE_CONNECTING);
  }

  // ---------------------------------------------------------------- the parser as it runs

  /** One element of the containers array: getJSONObject(i), then createFromJson. */
  method ReadContainer(factory: ContainerFactory, item: Json, order: KeyOrder) returns (r: Outcome)
    modifies factory
    ensures (r, factory.containerIdCounter) == ContainerStep(item, old(factory.containerIdCounter), order)
  {
    if !item.JObj? {
      return Threw;
    }
    r := factory.CreateFromJson(item.fields, order);
  }

  /** The container loop with its kept list and skipped count; `aborted` when parseInt's exception leaves it. */
  method ParseContainersLoop(factory: ContainerFactory, items: seq<Json>, order: KeyOrder)
    returns (containers: seq<Container>, skippedCount: nat, aborted: bool)
    modifies factory
    ensures (containers, skippedCount, factory.containerIdCounter, aborted) ==
      ParseContainers(items, old(factory.containerIdCounter), order)
  {
    containers := [];
    skippedCount := 0;
    aborted := false;
    var i := 0;
    while i < |items|
      invariant 0 <= i <= |items|
      invariant (containers, skippedCount, factory.containerIdCounter, false) ==
        ParseContainers(items[..i], old(factory.containerIdCounter), order)
    {
      ParseContainersNext(items, i, old(factory.containerIdCounter), order);
      var container := ReadContainer(factory, items[i], order);
      if container.Aborted? {
        ContainersStopAtAbort(items, i + 1, old(factory.containerIdCounter), order);
        return containers, skippedCount, true;
      } else if container.Built? {
        containers := containers + [container.container];
      } else {
        skippedCount := skippedCount + 1;
      }
      i := i + 1;
    }
    assert items[..i] == items;
  }

  method ParseChallengeObject(factory: ContainerFactory, o: Object, order: KeyOrder) returns (r: Option<ChallengeData>)
    modifies factory
    ensures (r, factory.containerIdCounter) == ParseChallenge(o, old(factory.containerIdCounter), order)
  {
    var title := OptString(o, "title", UNTITLED_CHALLENGE);
    var description := OptString(o, "description", "");
    if !Has(o, "containers") {
      return Some(ChallengeData(title, description, false, 0, 0, None));
    }
    var items := GetArray(o, "containers");
    if items.None? {
      return None;
    }
    var containers, _, aborted := ParseContainersLoop(factory, items.value, order);
    if aborted {
      return None;
    }
    return Some(ChallengeData(title, description, false, 0, 0, Some(containers)));
  }

  method ParseTopicObject(factory: ContainerFactory, o: Object, order: KeyOrder) returns (r: Option<Topic>)
    modifies factory
    ensures (r, factory.containerIdCounter) == ParseTopic(o, old(factory.containerIdCounter), order)
  {
    var title := GetString(o, "title");
    if title.None? {
      return None;
    }
    if !Has(o, "challenges") {
      return Some(Topic(title.value, None));
    }
    var items := GetArray(o, "challenges");
    if items.None? {
      return None;
    }
    var challenges := ParseChallengesLoop(factory, items.value, order);
    if challenges.None? {
      return None;
    }
    return Some(Topic(title.value, challenges));
  }

  /** The challenge loop of parseTopic: the first challenge that throws ends the topic. */
  method ParseChallengesLoop(factory: ContainerFactory, items: seq<Json>, order: KeyOrder) returns (r: Option<seq<ChallengeData>>)
    modifies factory
    ensures (r, factory.containerIdCounter) == ParseChallenges(items, old(factory.containerIdCounter), order)
  {
    var challenges: seq<ChallengeData> := [];
    var i := 0;
    while i < |items|
      invariant 0 <= i <= |items|
      invariant (Some(challenges), factory.containerIdCounter) ==
        ParseChallenges(items[..i], old(factory.containerIdCounter), order)
    {
      ParseChallengesLast(items[..i + 1], old(factory.containerIdCounter), order);
      assert items[..i + 1][..i] == items[..i] && items[..i + 1][i] == items[i];
      if !items[i].JObj? {
        ChallengesStopAtFailure(items, i + 1, old(factory.containerIdCounter), order);
        return None;
      }
      var c := ParseChallengeObject(factory, items[i].fields, order);
      if c.None? {
        ChallengesStopAtFailure(items, i + 1, old(factory.containerIdCounter), order);
        return None;
      }
      challenges := challenges + [c.value];
      i := i + 1;
    }
    assert items[..i] == items;
    return Some(challenges);
  }

  /** ParseChallenges unfolded once, at the last element of a non-empty array. */
  lemma {:induction false} ParseChallengesLast(items: seq<Json>, next: int, order: KeyOrder)
    requires |items| > 0
    ensures var (init, n) := ParseChallenges(items[..|items| - 1], next, order);
            var last := items[|items| - 1];
            ParseChallenges(items, next, order) ==
              if init.None? || !last.JObj? then (None, n)
              else
                var (c, after) := ParseChallenge(last.fields, n, order);
                if c.None? then (None, after) else (Some(init.value + [c.value]), after)
  {
  }

  /** parseAndPopulateSubject: the subject's topics are set only when the whole parse succeeds. */
  method PopulateSubject(factory: ContainerFactory, subject: Subjects.Subject, root: Object, order: KeyOrder)
    returns (ok: bool)
    modifies factory, subject
    ensures var (ts, after) := PopulateTopics(root, old(factory.containerIdCounter), order);
      factory.containerIdCounter == after && ok == ts.Some? &&
      subject.Value() == if ok then old(subject.Value()).(topics := ts) else old(subject.Value())
  {
    var items := GetArray(root, "topics");
    if items.None? {
      return false;
    }
    var topics: seq<Topic> := [];
    var i := 0;
    while i < |items.value|
      invariant 0 <= i <= |items.value|
      invariant (Some(topics), factory.containerIdCounter) ==
        ParseTopics(items.value[..i], old(factory.containerIdCounter), order)
      invariant subject.Value() == old(subject.Value())
    {
      assert items.value[..i + 1][..i] == items.value[..i];
      if !items.value[i].JObj? {
        TopicsStopAtFailure(items.value, i + 1, old(factory.containerIdCounter), order);
        return false;
      }
      var t := ParseTopicObject(factory, items.value[i].fields, order);
      if t.None? {
        TopicsStopAtFailure(items.value, i + 1, old(factory.containerIdCounter), order);
        return false;
      }
      topics := topics + [t.value];
      i := i + 1;
    }
    assert items.value[..i] == items.value;
    subject.SetTopics(Some(topics));
    return true;
  }

  // ---------------------------------------------------------------- validateContent

  datatype ValidationResult = ValidationResult(
    valid: bool, topicCount: int, challengeCount: int, containerCount: int, message: string)

  /** The containers of a challenge list; a challenge whose list is unset counts none. */
  function ChallengeContainers(cs: seq<ChallengeData>): (r: nat)
    decreases |cs|
  {
    if |cs| == 0 then 0
    else
      var c := cs[|cs| - 1];
      ChallengeContainers(cs[..|cs| - 1]) + (if c.containerlist.Some? then |c.containerlist.value| else 0)
  }

  /** Σ |challenges| over the topics whose challenges are set. */
  function ChallengeCount(ts: seq<Topic>): (r: nat)
    decreases |ts|
  {
    if |ts| == 0 then 0
    else
      var t := ts[|ts| - 1];
      ChallengeCount(ts[..|ts| - 1]) + (if t.challenges.Some? then |t.challenges.value| else 0)
  }

  /** Σ |containers| over every set challenge list of every topic. */
  function ContainerCount(ts: seq<Topic>): (r: nat)
    decreases |ts|
  {
    if |ts| == 0 then 0
    else
      var t := ts[|ts| - 1];
      ContainerCount(ts[..|ts| - 1]) + (if t.challenges.Some? then ChallengeContainers(t.challenges.value) else 0)
  }

  /** The report validateContent returns for the topics getTopics() hands it. */
  function Validation(ts: seq<Topic>): (r: ValidationResult)
    ensures r.valid <==> |ts| > 0
    ensures !r.valid ==> r == ValidationResult(false, 0, 0, 0, "No topics generated")
    ensures r.valid ==> r.topicCount == |ts| && r.challengeCount == ChallengeCount(ts) && r.containerCount == ContainerCount(ts)
  {
    if |ts| == 0 then ValidationResult(false, 0, 0, 0, "No topics generated")
    else
      ValidationResult(true, |ts|, ChallengeCount(ts), ContainerCount(ts),
        "Generated " + IntToString(|ts|) + " topics, " + IntToString(ChallengeCount(ts)) + " challenges, " +
        IntToString(ContainerCount(ts)) + " containers")
  }

  /** The totals add up topic list by topic list. */
  lemma {:induction false} CountsAdd(a: seq<Topic>, b: seq<Topic>)
    ensures ChallengeCount(a + b) == ChallengeCount(a) + ChallengeCount(b)
    ensures ContainerCount(a + b) == ContainerCount(a) + ContainerCount(b)
    decreases |b|
  {
    if |b| == 0 {
      assert a + b == a;
    } else {
      assert (a + b)[..|a + b| - 1] == a + b[..|b| - 1];
      CountsAdd(a, b[..|b| - 1]);
    }
  }

  /** Topics without challenge lists count no challenges and no containers. */
  lemma {:induction false} NoChallengesCountNothing(ts: seq<Topic>)
    requires forall k :: 0 <= k < |ts| ==> ts[k].challenges.None?
    ensures ChallengeCount(ts) == 0 && ContainerCount(ts) == 0
    decreases |ts|
  {
    if |ts| > 0 {
      NoChallengesCountNothing(ts[..|ts| - 1]);
    }
  }

  /** validateContent: reads the topics through getTopics(), then the two counting loops. */
  method ValidateContent(subject: Subjects.Subject) returns (result: ValidationResult)
    modifies subject
    ensures subject.topics.Some? && result == Validation(subject.topics.value)
    ensures old(subject.topics).Some? ==> subject.topics == old(subject.topics)
  {
    var topics := subject.GetTopics();
    if |topics| == 0 {
      return ValidationResult(false, 0, 0, 0, "No topics generated");
    }
    var totalChallenges := 0;
    var totalContainers := 0;
    var i := 0;
    while i < |topics|
      invariant 0 <= i <= |topics|
      invariant totalChallenges == ChallengeCount(topics[..i]) && totalContainers == ContainerCount(topics[..i])
    {
      assert topics[..i + 1][..i] == topics[..i];
      var challenges := topics[i].challenges;
      if challenges.Some? {
        totalChallenges := totalChallenges + |challenges.value|;
        var inTopic := 0;
        var j := 0;
        while j < |challenges.value|
          invariant 0 <= j <= |challenges.value|
          invariant inTopic == ChallengeContainers(challenges.value[..j])
        {
          assert challenges.value[..j + 1][..j] == challenges.value[..j];
          var containers := challenges.value[j].containerlist;
          if containers.Some? {
            inTopic := inTopic + |containers.value|;
          }
          j := j + 1;
        }
        assert challenges.value[..j] == challenges.value;
        totalContainers := totalContainers + inTopic;
      }
      i := i + 1;
    }
    assert topics[..i] == topics;
    result := ValidationResult(true, |topics|, totalChallenges, totalContainers,
      "Generated " + IntToString(|topics|) + " topics, " + IntToString(totalChallenges) + " challenges, " +
      IntToString(totalContainers) + " containers");
  }

  // ---------------------------------------------------------------- getAllSubjectIDs

  /** An entry of the app's files directory. */
  datatype DirEntry = DirEntry(name: string, isDirectory: bool)

  /** The id a directory entry names: a directory "subject_<n>" whose suffix Integer.parseInt accepts. */
  function EntryId(e: DirEntry): (r: Option<int>)
    ensures r.Some? ==> e.isDirectory && StartsWith(e.name, SUBJECT_PREFIX)
    ensures r.Some? ==> ParseInt(e.name[|SUBJECT_PREFIX|..]) == r
  {
    if e.isDirectory && StartsWith(e.name, SUBJECT_PREFIX) then ParseInt(e.name[|SUBJECT_PREFIX|..]) else None
  }

  /** getAllSubjectIDs over a listing: the ids, in listing order; every id comes from an entry that names it. */
  function SubjectIds(entries: seq<DirEntry>): (r: seq<int>)
    ensures |r| <= |entries|
    ensures forall k :: 0 <= k < |r| ==> (exists e :: e in entries && EntryId(e) == Some(r[k]))
    decreases |entries|
  {
    if |entries| == 0 then []
    else
      var init := SubjectIds(entries[..|entries| - 1]);
      var last := entries[|entries| - 1];
      assert forall e :: e in entries[..|entries| - 1] ==> e in entries;
      match EntryId(last)
      case None => init
      case Some(id) => init + [id]
  }

  /** A directory named "subject_" followed by the decimal text of an int is always found. */
  lemma {:induction false} SubjectDirectoryFound(entries: seq<DirEntry>, n: int)
    requires IsJavaInt(n) && DirEntry(SUBJECT_PREFIX + IntToString(n), true) in entries
    ensures n in SubjectIds(entries)
  {
    SubjectEntryId(n);
    EntryIdListed(entries, DirEntry(SUBJECT_PREFIX + IntToString(n), true));
  }

  lemma {:induction false} SubjectEntryId(n: int)
    requires IsJavaInt(n)
    ensures EntryId(DirEntry(SUBJECT_PREFIX + IntToString(n), true)) == Some(n)
  {
    var name := SUBJECT_PREFIX + IntToString(n);
    assert name[..|SUBJECT_PREFIX|] == SUBJECT_PREFIX;
    assert name[|SUBJECT_PREFIX|..] == IntToString(n);
    ParseIntToString(n);
  }

  /** The id of every entry that names one is listed. */
  lemma {:induction false} EntryIdListed(entries: seq<DirEntry>, e: DirEntry)
    requires e in entries && EntryId(e).Some?
    ensures EntryId(e).value in SubjectIds(entries)
    decreases |entries|
  {
    var n := |entries| - 1;
    var init := entries[..n];
    var last := entries[n];
    assert SubjectIds(entries) == SubjectIds(init) + (if EntryId(last).Some? then [EntryId(last).value] else []);
    if last != e {
      assert e in init by {
        assert entries == init + [last];
      }
      EntryIdListed(init, e);
    }
  }

  /** Entries that are files, or directories without the prefix, contribute nothing. */
  lemma {:induction false} OtherEntriesIgnored(entries: seq<DirEntry>, other: DirEntry)
    requires !other.isDirectory || !StartsWith(other.name, SUBJECT_PREFIX)
    ensures SubjectIds(entries + [other]) == SubjectIds(entries)
  {
    assert (entries + [other])[..|entries|] == entries;
  }

  /** The directory loop of getAllSubjectIDs. */
  method GetAllSubjectIds(children: seq<DirEntry>) returns (ids: seq<int>)
    ensures ids == SubjectIds(children)
  {
    ids := [];
    var i := 0;
    while i < |children|
      invariant 0 <= i <= |children|
      invariant ids == SubjectIds(children[..i])
    {
      assert children[..i + 1][..i] == children[..i];
      var f := children[i];
      if f.isDirectory && StartsWith(f.name, SUBJECT_PREFIX) {
        var id := ParseInt(f.name[|SUBJECT_PREFIX|..]);
        if id.Some? {
          ids := ids + [id.value];
        }
      }
      i := i + 1;
    }
    assert children[..i] == children;
  }
}
