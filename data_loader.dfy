/**
 * ContentContainerDataLoader.loadContent: finds a topic of the subject by
 * title, takes the container list of one of its challenges, and copies it
 * for a lesson. Each copy gets a new id, counted up from a start value,
 * and the learner state of a newly constructed container; QUIZ containers
 * are not copied.
 */
module DataLoader {
  import opened Wrappers
  import opened Containers
  import opened Challenges

  /** The index of the first topic titled `name`, or 0 when none is. */
  function TopicIndex(topics: seq<Topic>, name: string): (r: int)
    ensures 0 <= r && (|topics| > 0 ==> r < |topics|)
    ensures r < |topics| && topics[r].title == name ==> forall j :: 0 <= j < r ==> topics[j].title != name
    ensures (exists j :: 0 <= j < |topics| && topics[j].title == name) ==> r < |topics| && topics[r].title == name
    ensures (forall j :: 0 <= j < |topics| ==> topics[j].title != name) ==> r == 0
    decreases |topics|
  {
    if |topics| == 0 then 0
    else if topics[0].title == name then 0
    else
      var k := TopicIndex(topics[1..], name);
      if k < |topics| - 1 && topics[1..][k].title == name then k + 1 else 0
  }

  /** The containers the loader copies: all but QUIZ, in order. */
  function Copyable(cs: seq<Container>): (r: seq<Container>)
    ensures |r| <= |cs|
    ensures forall k :: 0 <= k < |r| ==> TypeOf(r[k].content) != QUIZ
    ensures (forall k :: 0 <= k < |cs| ==> TypeOf(cs[k].content) != QUIZ) ==> r == cs
    decreases |cs|
  {
    if |cs| == 0 then []
    else if TypeOf(cs[|cs| - 1].content) == QUIZ then Copyable(cs[..|cs| - 1])
    else Copyable(cs[..|cs| - 1]) + [cs[|cs| - 1]]
  }

  /**
   * The copies of `cs` numbered from `start`: copy k is the k-th copyable
   * container with id start + k and fresh learner state. A RECAP copy
   * keeps its title and the very container it wraps.
   */
  function Copies(cs: seq<Container>, start: int): (r: seq<Container>)
    ensures |r| == |Copyable(cs)|
    ensures forall k :: 0 <= k < |r| ==> r[k] == Container(start + k, FreshState(Copyable(cs)[k].content))
  {
    var src := Copyable(cs);
    seq(|src|, k requires 0 <= k < |src| => Container(start + k, FreshState(src[k].content)))
  }

  /** A challenge's container list, created empty on first use. */
  function ContainerList(c: ChallengeData): seq<Container>
  {
    if c.containerlist.None? then [] else c.containerlist.value
  }

  /**
   * loadContent on the subject's topics. None is the exception Java
   * throws: no topic at all, a chosen topic whose challenges were never
   * set, or a challenge position outside the list.
   */
  function Load(topics: seq<Topic>, topicName: string, challengePosition: int, start: int): (r: Option<seq<Container>>)
    ensures r.None? <==> (|topics| == 0 || topics[TopicIndex(topics, topicName)].challenges.None? ||
      !(0 <= challengePosition < |topics[TopicIndex(topics, topicName)].challenges.value|))
  {
    if |topics| == 0 then None
    else
      var challenges := topics[TopicIndex(topics, topicName)].challenges;
      if challenges.None? || !(0 <= challengePosition < |challenges.value|) then None
      else Some(Copies(ContainerList(challenges.value[challengePosition]), start))
  }

  /** One step of the copy loop: the copy of `c` with the next id, or nothing for QUIZ. */
  function CopyOf(c: Container, id: int): (r: Option<Container>)
    ensures r.None? <==> TypeOf(c.content) == QUIZ
    ensures r.Some? ==> r.value == Container(id, FreshState(c.content))
  {
    if TypeOf(c.content) == QUIZ then None else Some(Container(id, FreshState(c.content)))
  }

  lemma {:induction false} CopiesSnoc(cs: seq<Container>, c: Container, start: int)
    ensures Copies(cs + [c], start) ==
      Copies(cs, start) + (if TypeOf(c.content) == QUIZ then [] else [Container(start + |Copies(cs, start)|, FreshState(c.content))])
  {
    assert (cs + [c])[..|cs + [c]| - 1] == cs;
  }

  /** The copy loop of loadContent. */
  method CopyContainers(containers: seq<Container>, start: int) returns (populated: seq<Container>)
    ensures populated == Copies(containers, start)
  {
    populated := [];
    var next := start;
    var i := 0;
    while i < |containers|
      invariant 0 <= i <= |containers|
      invariant populated == Copies(containers[..i], start)
      invariant next == start + |populated|
    {
      var copy := CopyOf(containers[i], next);
      CopiesSnoc(containers[..i], containers[i], start);
      assert containers[..i + 1] == containers[..i] + [containers[i]];
      if copy.Some? {
        populated := populated + [copy.value];
        next := next + 1;
      }
      i := i + 1;
    }
    assert containers[..i] == containers;
  }

  /** loadContent: the topic lookup loop, then the copy loop. */
  method LoadContent(topics: seq<Topic>, topicName: string, challengePosition: int, start: int)
    returns (r: Option<seq<Container>>)
    ensures r == Load(topics, topicName, challengePosition, start)
  {
    var topicId := 0;
    var i := 0;
    while i < |topics|
      invariant 0 <= i <= |topics|
      invariant forall j :: 0 <= j < i ==> topics[j].title != topicName
    {
      if topics[i].title == topicName {
        topicId := i;
        break;
      }
      i := i + 1;
    }
    if |topics| == 0 {
      return None;
    }
    assert topicId == TopicIndex(topics, topicName);
    var challenges := topics[topicId].challenges;
    if challenges.None? || !(0 <= challengePosition < |challenges.value|) {
      return None;
    }
    var populated := CopyContainers(ContainerList(challenges.value[challengePosition]), start);
    return Some(populated);
  }

  /** The ids of a load are start, start + 1, ... in output order, so they are distinct. */
  lemma {:induction false} LoadedIds(topics: seq<Topic>, topicName: string, challengePosition: int, start: int)
    requires Load(topics, topicName, challengePosition, start).Some?
    ensures var cs := Load(topics, topicName, challengePosition, start).value;
      (forall k :: 0 <= k < |cs| ==> cs[k].id == start + k) &&
      (forall k, l :: 0 <= k < l < |cs| ==> cs[k].id != cs[l].id)
  {
  }

  /**
   * A copy keeps the kind and the lesson content of its source; only the
   * learner state is reset, and a sorting task starts in the correct order.
   */
  lemma {:induction false} CopyKeepsPayload(c: Container, id: int)
    requires TypeOf(c.content) != QUIZ
    ensures var r := CopyOf(c, id).value;
      TypeOf(r.content) == TypeOf(c.content) &&
      (c.content.MultipleChoiceContent? ==> r.content.quiz == c.content.quiz.(userSelectedIndices := [])) &&
      (c.content.ReverseQuizContent? ==> r.content.reverse == c.content.reverse.(userSelectedIndex := -1)) &&
      (c.content.ErrorSpottingContent? ==> r.content.spotting == c.content.spotting.(userSelectedIndex := -1)) &&
      (c.content.SortingTaskContent? ==> r.content.sorting.correctOrder == r.content.sorting.currentOrder == c.content.sorting.correctOrder) &&
      (c.content.FillInTheGapsContent? ==>
        var g := r.content.gaps;
        g.textTemplate == c.content.gaps.textTemplate && g.correctWords == c.content.gaps.correctWords &&
        g.wordOptions == c.content.gaps.wordOptions && g.userFilledWords == [] && g.userClickOrder == [] &&
        g.currentGapIndex == 0) &&
      ((c.content.RecapContent? || c.content.WireConnectingContent? || c.content.TitleContent? ||
        c.content.TextContent? || c.content.VideoContent?) ==> r.content == c.content)
  {
  }

  /** Copying a loaded lesson again changes nothing but the ids. */
  lemma {:induction false} CopiesIdempotent(cs: seq<Container>, start: int, start2: int)
    ensures var r := Copies(cs, start);
      var r2 := Copies(r, start2);
      |r2| == |r| && forall k :: 0 <= k < |r| ==> r2[k] == r[k].(id := start2 + k)
  {
    var r := Copies(cs, start);
    assert forall k :: 0 <= k < |r| ==> TypeOf(r[k].content) != QUIZ;
    assert Copyable(r) == r;
    forall k | 0 <= k < |r|
      ensures FreshState(FreshState(Copyable(cs)[k].content)) == FreshState(Copyable(cs)[k].content)
    {
      FreshStateIdempotent(Copyable(cs)[k].content);
    }
  }

  lemma {:induction false} FreshStateIdempotent(c: Content)
    ensures FreshState(FreshState(c)) == FreshState(c)
  {
  }
}
