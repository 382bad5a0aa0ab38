/**
 * ContentContainerFactory: builds containers from JSON objects and writes
 * them back. Every createFromJson call that gets past reading "type" takes
 * the next id from a counter, even when the tag is unknown (null result)
 * or a later field is missing (the call throws). Writing a container and
 * reading it back gives the same lesson content with fresh learner state
 * and new ids.
 */
module ContainerFactory {
  import opened Wrappers
  import opened Text
  import opened Json
  import opened Containers

  /**
   * What createFromJson yields: a container, null, a JSONException
   * (Threw), or the NumberFormatException of Integer.parseInt (Aborted),
   * which no catch clause for JSONException stops.
   */
  datatype Outcome = Built(container: Container) | NoContainer | Threw | Aborted

  /** How the correctMatches loop ends: the map, getInt's JSONException, or parseInt's NumberFormatException. */
  datatype MatchesRead = Matches(m: map<int, int>) | ValueThrew | KeyThrew

  /**
   * The order in which the JSON library hands out an object's keys.
   * org.json does not fix it; it matters only when two keys of
   * correctMatches name the same number.
   */
  type KeyOrder = Object -> seq<string>

  /** `order` lists exactly the keys of every object. */
  ghost predicate Enumerates(order: KeyOrder)
  {
    forall o: Object {:trigger order(o)} :: forall k :: k in order(o) <==> k in o
  }

  // ---------------------------------------------------------------- reading fields

  /** The type a tag names, after upper-casing; QUIZ has no case and gives null. */
  function KindOf(tag: string): (r: Option<ContainerType>)
    ensures r.Some? ==> r.value != QUIZ && TypeName(r.value) == tag
    ensures r.None? ==> forall t :: t != QUIZ ==> TypeName(t) != tag
  {
    match tag
    case "TITLE" => Some(TITLE)
    case "TEXT" => Some(TEXT)
    case "MULTIPLE_CHOICE_QUIZ" => Some(MULTIPLE_CHOICE_QUIZ)
    case "FILL_IN_THE_GAPS" => Some(FILL_IN_THE_GAPS)
    case "SORTING_TASK" => Some(SORTING_TASK)
    case "ERROR_SPOTTING" => Some(ERROR_SPOTTING)
    case "REVERSE_QUIZ" => Some(REVERSE_QUIZ)
    case "WIRE_CONNECTING" => Some(WIRE_CONNECTING)
    case "RECAP" => Some(RECAP)
    case "VIDEO" => Some(VIDEO)
    case _ => None
  }

  /** getJSONArray(key) read with getString(i): None when either throws. */
  function StringsAt(o: Object, key: string): (r: Option<seq<string>>)
    ensures r.Some? ==> key in o && o[key] == JArr(StringArray(r.value).items)
  {
    match GetArray(o, key)
    case None => None
    case Some(a) =>
      var r := Strings(a);
      if r.Some? then
        assert a == StringArray(r.value).items;
        r
      else None
  }

  /** getJSONArray(key) read with getInt(i): None when either throws. */
  function IntsAt(o: Object, key: string): (r: Option<seq<int>>)
    ensures r.Some? ==> key in o && o[key] == JArr(IntArray(r.value).items)
  {
    match GetArray(o, key)
    case None => None
    case Some(a) =>
      var r := Ints(a);
      if r.Some? then
        assert a == IntArray(r.value).items;
        r
      else None
  }

  /**
   * An optional string field: absent gives Some(None); present gives
   * Some(Some(s)) when it is a string, None (getString throws) otherwise.
   */
  function OptionalString(o: Object, key: string): (r: Option<Option<string>>)
    ensures key !in o ==> r == Some(None)
    ensures key in o ==> (r.Some? <==> o[key].JStr?) && (r.Some? ==> r.value == Some(o[key].s))
  {
    if key !in o then Some(None)
    else match GetString(o, key)
      case None => None
      case Some(s) => Some(Some(s))
  }

  /** An optional boolean field with a default; None when present but not a boolean. */
  function OptionalBool(o: Object, key: string, default: bool): (r: Option<bool>)
    ensures key !in o ==> r == Some(default)
    ensures key in o ==> (r.Some? <==> o[key].JBool?) && (r.Some? ==> r.value == o[key].b)
  {
    if key !in o then Some(default) else GetBool(o, key)
  }

  /**
   * The correctMatches loop: each key, in the library's order, is parsed
   * with Integer.parseInt and mapped to getInt(key); a later key naming the
   * same number overwrites an earlier one. The first key that is not a
   * number ends the loop with KeyThrew, the first value that is not an int
   * with ValueThrew.
   */
  function ReadMatches(o: Object, keys: seq<string>, acc: map<int, int>): (r: MatchesRead)
    ensures r.Matches? ==> acc.Keys <= r.m.Keys
    ensures r.Matches? <==> forall i :: 0 <= i < |keys| ==> ParseInt(keys[i]).Some? && GetInt(o, keys[i]).Some?
    ensures r.KeyThrew? ==> exists i :: 0 <= i < |keys| && ParseInt(keys[i]).None?
    ensures r.ValueThrew? ==> exists i :: 0 <= i < |keys| && GetInt(o, keys[i]).None?
    decreases |keys|
  {
    if |keys| == 0 then Matches(acc)
    else
      match ParseInt(keys[0])
      case None => KeyThrew
      case Some(n) =>
        match GetInt(o, keys[0])
        case None => ValueThrew
        case Some(v) =>
          var r := ReadMatches(o, keys[1..], acc[n := v]);
          assert forall i :: 1 <= i < |keys| ==> keys[i] == keys[1..][i - 1];
          r
  }

  // ---------------------------------------------------------------- createFromJson

  function CreateTitle(id: int, o: Object): (r: Outcome)
    ensures r.Built? ==> r.container.id == id && r.container.content.TitleContent?
  {
    var title := GetString(o, "title");
    if title.None? then Threw else Built(Container(id, TitleContent(title.value)))
  }

  function CreateText(id: int, o: Object): (r: Outcome)
    ensures r.Built? ==> r.container.id == id && r.container.content.TextContent?
  {
    var text := GetString(o, "text");
    if text.None? then Threw else Built(Container(id, TextContent(text.value)))
  }

  /** allowMultipleAnswers defaults to false and explanationText to null. */
  function CreateMultipleChoiceQuiz(id: int, o: Object): (r: Outcome)
    ensures r.Built? ==> r.container.id == id && r.container.content.MultipleChoiceContent?
  {
    var question := GetString(o, "question");
    var options := StringsAt(o, "options");
    var correct := IntsAt(o, "correctAnswerIndices");
    var multiple := OptionalBool(o, "allowMultipleAnswers", false);
    var explanation := OptionalString(o, "explanationText");
    if question.None? || options.None? || correct.None? || multiple.None? || explanation.None? then Threw
    else Built(Container(id, MultipleChoiceContent(ChoiceQuiz(
      question.value, options.value, correct.value, multiple.value, explanation.value, []))))
  }

  function CreateFillInTheGaps(id: int, o: Object): (r: Outcome)
    ensures r.Built? ==> r.container.id == id && r.container.content.FillInTheGapsContent?
  {
    var template := GetString(o, "textTemplate");
    var words := StringsAt(o, "correctWords");
    var options := StringsAt(o, "wordOptions");
    if template.None? || words.None? || options.None? then Threw
    else Built(Container(id, FillInTheGapsContent(Gaps(template.value, words.value, options.value, [], [], 0, -1))))
  }

  /** setCorrectOrder also starts the learner's order as a copy of the correct one. */
  function CreateSortingTask(id: int, o: Object): (r: Outcome)
    ensures r.Built? ==> r.container.id == id && r.container.content.SortingTaskContent?
  {
    var instructions := GetString(o, "instructions");
    var order := StringsAt(o, "correctOrder");
    if instructions.None? || order.None? then Threw
    else Built(Container(id, SortingTaskContent(Sorting(instructions.value, order.value, order.value))))
  }

  function CreateErrorSpotting(id: int, o: Object): (r: Outcome)
    ensures r.Built? ==> r.container.id == id && r.container.content.ErrorSpottingContent?
  {
    var instructions := GetString(o, "instructions");
    var items := StringsAt(o, "items");
    var errorIndex := GetInt(o, "errorIndex");
    var explanation := OptionalString(o, "explanationText");
    if instructions.None? || items.None? || errorIndex.None? || explanation.None? then Threw
    else Built(Container(id, ErrorSpottingContent(ErrorSpotting(
      instructions.value, items.value, errorIndex.value, explanation.value, -1))))
  }

  function CreateReverseQuiz(id: int, o: Object): (r: Outcome)
    ensures r.Built? ==> r.container.id == id && r.container.content.ReverseQuizContent?
  {
    var answer := GetString(o, "answer");
    var options := StringsAt(o, "questionOptions");
    var correct := GetInt(o, "correctQuestionIndex");
    var explanation := OptionalString(o, "explanationText");
    if answer.None? || options.None? || correct.None? || explanation.None? then Threw
    else Built(Container(id, ReverseQuizContent(ReverseQuiz(
      answer.value, options.value, correct.value, explanation.value, -1))))
  }

  function CreateWireConnecting(id: int, o: Object, order: KeyOrder): (r: Outcome)
    ensures r.Built? ==> r.container.id == id && r.container.content.WireConnectingContent?
  {
    var instructions := GetString(o, "instructions");
    var left := StringsAt(o, "leftItems");
    var right := StringsAt(o, "rightItems");
    var matchesObject := GetObject(o, "correctMatches");
    if instructions.None? || left.None? || right.None? || matchesObject.None? then Threw
    else match ReadMatches(matchesObject.value, order(matchesObject.value), map[])
      case KeyThrew => Aborted
      case ValueThrew => Threw
      case Matches(m) => Built(Container(id, WireConnectingContent(Wiring(instructions.value, left.value, right.value, m))))
  }

  function CreateVideo(id: int, o: Object): (r: Outcome)
    ensures r.Built? ==> r.container.id == id && r.container.content.VideoContent?
  {
    var url := OptionalString(o, "url");
    if url.None? then Threw else Built(Container(id, VideoContent(url.value)))
  }

  /** A correctMatches key that Integer.parseInt rejects, read before any value fails, aborts the builder. */
  lemma {:induction false} UnparsableMatchKeyAborts(id: int, o: Object, order: KeyOrder)
    requires GetString(o, "instructions").Some? && StringsAt(o, "leftItems").Some? && StringsAt(o, "rightItems").Some?
    requires GetObject(o, "correctMatches").Some?
    requires var keys := order(GetObject(o, "correctMatches").value); |keys| > 0 && ParseInt(keys[0]).None?
    ensures CreateWireConnecting(id, o, order) == Aborted
  {
  }

  /** The builders of the kinds other than RECAP: the container, or Threw when a required field is missing or mistyped. */
  function Build(t: ContainerType, id: int, o: Object, order: KeyOrder): (r: Outcome)
    requires t != QUIZ && t != RECAP
    ensures r.Built? ==> r.container.id == id && TypeOf(r.container.content) == t
  {
    match t
    case TITLE => CreateTitle(id, o)
    case TEXT => CreateText(id, o)
    case MULTIPLE_CHOICE_QUIZ => CreateMultipleChoiceQuiz(id, o)
    case FILL_IN_THE_GAPS => CreateFillInTheGaps(id, o)
    case SORTING_TASK => CreateSortingTask(id, o)
    case ERROR_SPOTTING => CreateErrorSpotting(id, o)
    case REVERSE_QUIZ => CreateReverseQuiz(id, o)
    case WIRE_CONNECTING => CreateWireConnecting(id, o, order)
    case VIDEO => CreateVideo(id, o)
  }

  /**
   * createFromJson with the counter made explicit: the outcome and the
   * counter afterwards. A RECAP's wrapped container is built by a nested
   * call and takes the following ids.
   */
  function Create(o: Object, next: int, order: KeyOrder): (r: (Outcome, int))
    ensures GetString(o, "type").None? ==> r == (Threw, next)
    ensures GetString(o, "type").Some? ==> r.1 > next
    ensures r.0.Built? ==> r.0.container.id == next
    decreases JObj(o), 1
  {
    match GetString(o, "type")
    case None => (Threw, next)
    case Some(tag) =>
      match KindOf(ToUpper(tag))
      case None => (NoContainer, next + 1)
      case Some(t) =>
        if t != RECAP then (Build(t, next, o, order), next + 1)
        else
          CreateRecap(next, o, next + 1, order)
  }

  /**
   * createRecap with id `id`, the counter standing at `next`: the title
   * ("Recap" when absent), then the wrapped container, built by a nested
   * createFromJson that takes the following ids; a nested null leaves the
   * recap empty and a nested exception propagates.
   */
  function CreateRecap(id: int, o: Object, next: int, order: KeyOrder): (r: (Outcome, int))
    ensures r.1 >= next
    ensures r.0.Built? ==> r.0.container.id == id && r.0.container.content.RecapContent?
    ensures r.0.Built? && r.0.container.content.wrappedContainer.Some? ==> r.0.container.content.wrappedContainer.value.id == next
    decreases JObj(o), 0
  {
    match OptionalString(o, "recapTitle")
    case None => (Threw, next)
    case Some(title) =>
      var recapTitle := Some(if title.Some? then title.value else "Recap");
      if "wrappedContainer" !in o then (Built(Container(id, RecapContent(recapTitle, None))), next)
      else match GetObject(o, "wrappedContainer")
        case None => (Threw, next)
        case Some(inner) =>
          var (wrapped, after) := Create(inner, next, order);
          if wrapped.Threw? || wrapped.Aborted? then (wrapped, after)
          else (Built(Container(id, RecapContent(recapTitle, if wrapped.Built? then Some(wrapped.container) else None))), after)
  }

  // ---------------------------------------------------------------- containerToJson

  /** json.put(key, s) only when s is non-null. */
  function PutOptional(o: Object, key: string, s: Option<string>): (r: Object)
    ensures s.None? ==> r == o
    ensures s.Some? ==> r == o[key := JStr(s.value)]
  {
    if s.Some? then o[key := JStr(s.value)] else o
  }

  /** correctMatches as a JSON object keyed by the decimal spelling of each left index. */
  function MatchesObject(m: map<int, int>): (r: Object)
    ensures forall n :: n in m ==> IntToString(n) in r && r[IntToString(n)] == JInt(m[n])
    ensures forall k :: k in r ==> exists n :: n in m && k == IntToString(n)
  {
    IntToStringInjectiveAll();
    map n | n in m :: IntToString(n) := JInt(m[n])
  }

  lemma {:induction false} IntToStringInjectiveAll()
    ensures forall a, b :: IntToString(a) == IntToString(b) ==> a == b
  {
    forall a, b | IntToString(a) == IntToString(b)
      ensures a == b
    {
      IntToStringInjective(a, b);
    }
  }

  /** The two fields every container writes: its type's name and its id. */
  function Base(name: string, id: int): (r: Object)
    ensures GetString(r, "type") == Some(name) && GetInt(r, "id") == Some(id)
  {
    map["type" := JStr(name), "id" := JInt(id)]
  }

  /** A container whose content is one string: TITLE writes "title", TEXT writes "text". */
  function StringFieldJson(name: string, id: int, key: string, value: string): (r: Object)
    requires key != "type" && key != "id"
    ensures GetString(r, "type") == Some(name) && GetInt(r, "id") == Some(id)
    ensures GetString(r, key) == Some(value)
    ensures r.Keys == {"type", "id", key}
  {
    Base(name, id)[key := JStr(value)]
  }

  function VideoJson(id: int, url: Option<string>): (r: Object)
    ensures GetString(r, "type") == Some("VIDEO") && GetInt(r, "id") == Some(id)
    ensures OptionalString(r, "url") == Some(url)
  {
    PutOptional(Base("VIDEO", id), "url", url)
  }

  function QuizJson(id: int): (r: Object)
    ensures GetString(r, "type") == Some("QUIZ") && GetInt(r, "id") == Some(id)
  {
    Base("QUIZ", id)
  }

  function ChoiceQuizJson(id: int, q: ChoiceQuiz): (r: Object)
    ensures GetString(r, "type") == Some("MULTIPLE_CHOICE_QUIZ") && GetInt(r, "id") == Some(id)
    ensures GetString(r, "question") == Some(q.question)
    ensures StringsAt(r, "options") == Some(q.options)
    ensures IntsAt(r, "correctAnswerIndices") == Some(q.correctAnswerIndices)
    ensures OptionalBool(r, "allowMultipleAnswers", false) == Some(q.allowMultipleAnswers)
    ensures OptionalString(r, "explanationText") == Some(q.explanationText)
  {
    StringsOfStringArray(q.options);
    IntsOfIntArray(q.correctAnswerIndices);
    PutOptional(Base("MULTIPLE_CHOICE_QUIZ", id)
      ["question" := JStr(q.question)]
      ["options" := StringArray(q.options)]
      ["correctAnswerIndices" := IntArray(q.correctAnswerIndices)]
      ["allowMultipleAnswers" := JBool(q.allowMultipleAnswers)], "explanationText", q.explanationText)
  }

  function GapsJson(id: int, g: Gaps): (r: Object)
    ensures GetString(r, "type") == Some("FILL_IN_THE_GAPS") && GetInt(r, "id") == Some(id)
    ensures GetString(r, "textTemplate") == Some(g.textTemplate)
    ensures StringsAt(r, "correctWords") == Some(g.correctWords)
    ensures StringsAt(r, "wordOptions") == Some(g.wordOptions)
  {
    StringsOfStringArray(g.correctWords);
    StringsOfStringArray(g.wordOptions);
    Base("FILL_IN_THE_GAPS", id)
      ["textTemplate" := JStr(g.textTemplate)]
      ["correctWords" := StringArray(g.correctWords)]
      ["wordOptions" := StringArray(g.wordOptions)]
  }

  function SortingJson(id: int, t: Sorting): (r: Object)
    ensures GetString(r, "type") == Some("SORTING_TASK") && GetInt(r, "id") == Some(id)
    ensures GetString(r, "instructions") == Some(t.instructions)
    ensures StringsAt(r, "correctOrder") == Some(t.correctOrder)
  {
    StringsOfStringArray(t.correctOrder);
    Base("SORTING_TASK", id)["instructions" := JStr(t.instructions)]["correctOrder" := StringArray(t.correctOrder)]
  }

  function ErrorSpottingJson(id: int, e: ErrorSpotting): (r: Object)
    ensures GetString(r, "type") == Some("ERROR_SPOTTING") && GetInt(r, "id") == Some(id)
    ensures GetString(r, "instructions") == Some(e.instructions)
    ensures StringsAt(r, "items") == Some(e.items)
    ensures GetInt(r, "errorIndex") == Some(e.errorIndex)
    ensures OptionalString(r, "explanationText") == Some(e.explanationText)
  {
    StringsOfStringArray(e.items);
    PutOptional(Base("ERROR_SPOTTING", id)
      ["instructions" := JStr(e.instructions)]
      ["items" := StringArray(e.items)]
      ["errorIndex" := JInt(e.errorIndex)], "explanationText", e.explanationText)
  }

  function ReverseQuizJson(id: int, q: ReverseQuiz): (r: Object)
    ensures GetString(r, "type") == Some("REVERSE_QUIZ") && GetInt(r, "id") == Some(id)
    ensures GetString(r, "answer") == Some(q.answer)
    ensures StringsAt(r, "questionOptions") == Some(q.questionOptions)
    ensures GetInt(r, "correctQuestionIndex") == Some(q.correctQuestionIndex)
    ensures OptionalString(r, "explanationText") == Some(q.explanationText)
  {
    StringsOfStringArray(q.questionOptions);
    PutOptional(Base("REVERSE_QUIZ", id)
      ["answer" := JStr(q.answer)]
      ["questionOptions" := StringArray(q.questionOptions)]
      ["correctQuestionIndex" := JInt(q.correctQuestionIndex)], "explanationText", q.explanationText)
  }

  function WiringJson(id: int, w: Wiring): (r: Object)
    ensures GetString(r, "type") == Some("WIRE_CONNECTING") && GetInt(r, "id") == Some(id)
    ensures GetString(r, "instructions") == Some(w.instructions)
    ensures StringsAt(r, "leftItems") == Some(w.leftItems)
    ensures StringsAt(r, "rightItems") == Some(w.rightItems)
    ensures GetObject(r, "correctMatches") == Some(MatchesObject(w.correctMatches))
  {
    StringsOfStringArray(w.leftItems);
    StringsOfStringArray(w.rightItems);
    Base("WIRE_CONNECTING", id)
      ["instructions" := JStr(w.instructions)]
      ["leftItems" := StringArray(w.leftItems)]
      ["rightItems" := StringArray(w.rightItems)]
      ["correctMatches" := JObj(MatchesObject(w.correctMatches))]
  }

  function RecapJson(id: int, title: Option<string>, wrapped: Option<Object>): (r: Object)
    ensures GetString(r, "type") == Some("RECAP") && GetInt(r, "id") == Some(id)
    ensures OptionalString(r, "recapTitle") == Some(title)
    ensures wrapped.None? ==> "wrappedContainer" !in r
    ensures wrapped.Some? ==> GetObject(r, "wrappedContainer") == wrapped
  {
    var withTitle := PutOptional(Base("RECAP", id), "recapTitle", title);
    if wrapped.Some? then withTitle["wrappedContainer" := JObj(wrapped.value)] else withTitle
  }

  /**
   * containerToJson: "type" (the enum name) and "id" always, then the
   * fields of the kind, optional ones only when set; a RECAP writes its
   * wrapped container as a nested object.
   */
  function ToJson(c: Container): Object
    decreases c
  {
    match c.content
    case TitleContent(title) => StringFieldJson("TITLE", c.id, "title", title)
    case TextContent(text) => StringFieldJson("TEXT", c.id, "text", text)
    case VideoContent(url) => VideoJson(c.id, url)
    case QuizContent => QuizJson(c.id)
    case MultipleChoiceContent(q) => ChoiceQuizJson(c.id, q)
    case FillInTheGapsContent(g) => GapsJson(c.id, g)
    case SortingTaskContent(t) => SortingJson(c.id, t)
    case ErrorSpottingContent(e) => ErrorSpottingJson(c.id, e)
    case ReverseQuizContent(q) => ReverseQuizJson(c.id, q)
    case WireConnectingContent(w) => WiringJson(c.id, w)
    case RecapContent(title, wrapped) =>
      RecapJson(c.id, title, if wrapped.Some? then Some(ToJson(wrapped.value)) else None)
  }

  // ---------------------------------------------------------------- round trip

  /** Every correctMatches key, here and in wrapped containers, is a Java int, as a Java map key must be. */
  predicate JavaKeys(c: Container)
    decreases c
  {
    match c.content
    case WireConnectingContent(w) => forall n :: n in w.correctMatches ==> IsJavaInt(n)
    case RecapContent(_, wrapped) => wrapped.Some? ==> JavaKeys(wrapped.value)
    case _ => true
  }

  /**
   * What reading back a written container gives: QUIZ has no case and
   * yields null; every other kind comes back with the same lesson content,
   * fresh learner state and the next id, a RECAP its title (or "Recap")
   * and its wrapped container under the ids that follow.
   */
  function Reloaded(c: Container, next: int): (r: (Outcome, int))
    ensures r.1 > next && !r.0.Threw? && !r.0.Aborted?
    ensures r.0.NoContainer? <==> c.content.QuizContent?
    ensures r.0.Built? ==> r.0.container.id == next && TypeOf(r.0.container.content) == TypeOf(c.content)
    decreases c
  {
    match c.content
    case QuizContent => (NoContainer, next + 1)
    case RecapContent(title, wrapped) =>
      var recapTitle := Some(if title.Some? then title.value else "Recap");
      if wrapped.None? then (Built(Container(next, RecapContent(recapTitle, None))), next + 1)
      else
        var (inner, after) := Reloaded(wrapped.value, next + 1);
        (Built(Container(next, RecapContent(recapTitle, if inner.Built? then Some(inner.container) else None))), after)
    case _ => (Built(Container(next, FreshState(c.content))), next + 1)
  }

  lemma {:induction false} ToUpperOfUpper(s: string)
    requires forall i :: 0 <= i < |s| ==> !('a' <= s[i] <= 'z')
    ensures ToUpper(s) == s
  {
  }

  /** A type's own name dispatches to that type; QUIZ's name dispatches nowhere. */
  lemma {:induction false} KindOfTypeName(t: ContainerType)
    ensures ToUpper(TypeName(t)) == TypeName(t)
    ensures t != QUIZ ==> KindOf(TypeName(t)) == Some(t)
    ensures t == QUIZ ==> KindOf(TypeName(t)) == None
  {
    match t
    case TEXT => ToUpperOfUpper("TEXT");
    case VIDEO => ToUpperOfUpper("VIDEO");
    case QUIZ => ToUpperOfUpper("QUIZ");
    case TITLE => ToUpperOfUpper("TITLE");
    case MULTIPLE_CHOICE_QUIZ => ToUpperOfUpper("MULTIPLE_CHOICE_QUIZ");
    case REVERSE_QUIZ => ToUpperOfUpper("REVERSE_QUIZ");
    case WIRE_CONNECTING => ToUpperOfUpper("WIRE_CONNECTING");
    case FILL_IN_THE_GAPS => ToUpperOfUpper("FILL_IN_THE_GAPS");
    case SORTING_TASK => ToUpperOfUpper("SORTING_TASK");
    case ERROR_SPOTTING => ToUpperOfUpper("ERROR_SPOTTING");
    case RECAP => ToUpperOfUpper("RECAP");
  }

  /** The entries of m whose key, written in decimal, is one of `keys`. */
  function Picked(m: map<int, int>, keys: seq<string>): (r: map<int, int>)
    ensures r.Keys <= m.Keys && forall n :: n in r ==> r[n] == m[n]
  {
    map n | n in m && IntToString(n) in keys :: m[n]
  }

  /** One step of the correctMatches loop on a key that parses and holds an int. */
  lemma {:induction false} ReadMatchesStep(o: Object, keys: seq<string>, acc: map<int, int>, n: int, v: int)
    requires |keys| > 0 && ParseInt(keys[0]) == Some(n) && GetInt(o, keys[0]) == Some(v)
    ensures ReadMatches(o, keys, acc) == ReadMatches(o, keys[1..], acc[n := v])
  {
  }

  /** A key of a written correctMatches object names an entry of the map and parses back to it. */
  lemma {:induction false} MatchesObjectKey(m: map<int, int>, k: string) returns (n: int)
    requires forall n :: n in m ==> IsJavaInt(n)
    requires k in MatchesObject(m)
    ensures n in m && k == IntToString(n)
    ensures ParseInt(k) == Some(n) && GetInt(MatchesObject(m), k) == Some(m[n])
  {
    n :| n in m && k == IntToString(n);
    ParseIntToString(n);
  }

  /**
   * Reading a written correctMatches object back, key by key in any order
   * that lists only its keys, adds exactly the entries whose keys were read.
   */
  lemma {:induction false} ReadMatchesOfObject(m: map<int, int>, keys: seq<string>, acc: map<int, int>)
    requires forall n :: n in m ==> IsJavaInt(n)
    requires forall i :: 0 <= i < |keys| ==> keys[i] in MatchesObject(m)
    ensures ReadMatches(MatchesObject(m), keys, acc) == Matches(acc + Picked(m, keys))
    decreases |keys|
  {
    if |keys| == 0 {
      assert Picked(m, keys) == map[];
      assert acc + map[] == acc;
    } else {
      var n0 := MatchesObjectKey(m, keys[0]);
      ReadMatchesStep(MatchesObject(m), keys, acc, n0, m[n0]);
      ReadMatchesOfObject(m, keys[1..], acc[n0 := m[n0]]);
      PickedCons(m, keys, n0, acc);
    }
  }

  lemma {:induction false} PickedCons(m: map<int, int>, keys: seq<string>, n0: int, acc: map<int, int>)
    requires |keys| > 0 && n0 in m && keys[0] == IntToString(n0)
    ensures acc[n0 := m[n0]] + Picked(m, keys[1..]) == acc + Picked(m, keys)
  {
    var p, q := Picked(m, keys), Picked(m, keys[1..]);
    PickedConsKeys(m, keys, n0);
    assert p == q[n0 := m[n0]];
    var l, r := acc[n0 := m[n0]] + q, acc + p;
    assert l.Keys == r.Keys;
    forall n | n in l
      ensures l[n] == r[n]
    {
      if n in q {
        assert l[n] == q[n] && r[n] == p[n];
      }
    }
  }

  lemma {:induction false} PickedConsKeys(m: map<int, int>, keys: seq<string>, n0: int)
    requires |keys| > 0 && n0 in m && keys[0] == IntToString(n0)
    ensures Picked(m, keys) == Picked(m, keys[1..])[n0 := m[n0]]
  {
    IntToStringInjectiveAll();
    assert forall k :: k in keys <==> k == keys[0] || k in keys[1..];
    var p, q := Picked(m, keys), Picked(m, keys[1..]);
    assert p.Keys == q.Keys + {n0};
  }

  /** Picking by a list that names every key of m picks all of m. */
  lemma {:induction false} PickedAll(m: map<int, int>, keys: seq<string>)
    requires forall n :: n in m ==> IntToString(n) in keys
    ensures Picked(m, keys) == m
  {
  }

  /** With a key order that lists every key, the whole map is read back. */
  lemma {:induction false} MatchesRoundTrip(m: map<int, int>, order: KeyOrder)
    requires Enumerates(order)
    requires forall n :: n in m ==> IsJavaInt(n)
    ensures ReadMatches(MatchesObject(m), order(MatchesObject(m)), map[]) == Matches(m)
  {
    var keys := order(MatchesObject(m));
    OrderListsMatches(m, order);
    ReadMatchesOfObject(m, keys, map[]);
    PickedAll(m, keys);
    assert map[] + Picked(m, keys) == m;
  }

  /** A key order that enumerates lists every key of a written correctMatches object, and only those. */
  lemma {:induction false} OrderListsMatches(m: map<int, int>, order: KeyOrder)
    requires Enumerates(order)
    ensures forall i :: 0 <= i < |order(MatchesObject(m))| ==> order(MatchesObject(m))[i] in MatchesObject(m)
    ensures forall n :: n in m ==> IntToString(n) in order(MatchesObject(m))
  {
    var o := MatchesObject(m);
    assert forall k :: k in order(o) <==> k in o;
  }

  /** An object tagged with the name of a kind other than QUIZ and RECAP is built by that kind's builder with the next id. */
  lemma {:induction false} CreateOfTag(o: Object, next: int, order: KeyOrder, t: ContainerType)
    requires t != QUIZ && t != RECAP && GetString(o, "type") == Some(TypeName(t))
    ensures Create(o, next, order) == (Build(t, next, o, order), next + 1)
  {
    KindOfTypeName(t);
  }

  /** The fields each builder reads with get*, which throws when one is missing. */
  function RequiredKeys(t: ContainerType): set<string>
  {
    match t
    case TITLE => {"title"}
    case TEXT => {"text"}
    case MULTIPLE_CHOICE_QUIZ => {"question", "options", "correctAnswerIndices"}
    case FILL_IN_THE_GAPS => {"textTemplate", "correctWords", "wordOptions"}
    case SORTING_TASK => {"instructions", "correctOrder"}
    case ERROR_SPOTTING => {"instructions", "items", "errorIndex"}
    case REVERSE_QUIZ => {"answer", "questionOptions", "correctQuestionIndex"}
    case WIRE_CONNECTING => {"instructions", "leftItems", "rightItems", "correctMatches"}
    case _ => {}
  }

  /** A builder one of whose required fields is missing throws. */
  lemma {:induction false} MissingRequiredFieldThrows(t: ContainerType, id: int, o: Object, order: KeyOrder, key: string)
    requires t != QUIZ && t != RECAP && key in RequiredKeys(t) && key !in o
    ensures Build(t, id, o, order) == Threw
  {
  }

  /** Tag case is ignored: "text" builds a TEXT container. */
  lemma {:induction false} LowerCaseTag(o: Object, next: int, order: KeyOrder)
    requires GetString(o, "type") == Some("text")
    ensures Create(o, next, order) == (Build(TEXT, next, o, order), next + 1)
  {
    assert ToUpper("text") == "TEXT";
  }

  /** An unknown tag yields null and still uses up one id. */
  lemma {:induction false} UnknownTag(o: Object, next: int, order: KeyOrder)
    requires GetString(o, "type").Some? && KindOf(ToUpper(GetString(o, "type").value)).None?
    ensures Create(o, next, order) == (NoContainer, next + 1)
  {
  }

  /** A type tag naming no kind yields null; QUIZ is such a tag. */
  lemma {:induction false} QuizTagUnknown(o: Object, next: int, order: KeyOrder)
    requires GetString(o, "type") == Some("QUIZ")
    ensures Create(o, next, order) == (NoContainer, next + 1)
  {
    KindOfTypeName(QUIZ);
    UnknownTag(o, next, order);
  }

  /** A RECAP takes the next id and the container it wraps the one after. */
  lemma {:induction false} RecapIds(o: Object, next: int, order: KeyOrder)
    requires GetString(o, "type") == Some("RECAP") && OptionalString(o, "recapTitle").Some?
    requires GetObject(o, "wrappedContainer").Some?
    ensures var (r, _) := Create(o, next, order);
      r.Built? ==> (r.container.id == next && r.container.content.RecapContent? &&
        (r.container.content.wrappedContainer.Some? ==> r.container.content.wrappedContainer.value.id == next + 1))
  {
    KindOfTypeName(RECAP);
  }

  /** A RECAP whose wrapped container builds is built around it, and the counter ends where the nested call left it. */
  lemma {:induction false} RecapAround(o: Object, next: int, order: KeyOrder, title: string, inner: Object)
    requires GetString(o, "type") == Some("RECAP") && OptionalString(o, "recapTitle") == Some(Some(title))
    requires GetObject(o, "wrappedContainer") == Some(inner) && Create(inner, next + 1, order).0.Built?
    ensures Create(o, next, order) ==
      (Built(Container(next, RecapContent(Some(title), Some(Create(inner, next + 1, order).0.container)))), Create(inner, next + 1, order).1)
  {
    KindOfTypeName(RECAP);
  }

  lemma {:induction false} TitleRoundTrip(c: Container, next: int, order: KeyOrder)
    requires c.content.TitleContent?
    ensures Create(ToJson(c), next, order) == Reloaded(c, next)
  {
    CreateOfTag(ToJson(c), next, order, TITLE);
  }

  lemma {:induction false} TextRoundTrip(c: Container, next: int, order: KeyOrder)
    requires c.content.TextContent?
    ensures Create(ToJson(c), next, order) == Reloaded(c, next)
  {
    CreateOfTag(ToJson(c), next, order, TEXT);
  }

  lemma {:induction false} VideoRoundTrip(c: Container, next: int, order: KeyOrder)
    requires c.content.VideoContent?
    ensures Create(ToJson(c), next, order) == Reloaded(c, next)
  {
    CreateOfTag(ToJson(c), next, order, VIDEO);
  }

  lemma {:induction false} ChoiceQuizRoundTrip(c: Container, next: int, order: KeyOrder)
    requires c.content.MultipleChoiceContent?
    ensures Create(ToJson(c), next, order) == Reloaded(c, next)
  {
    CreateOfTag(ToJson(c), next, order, MULTIPLE_CHOICE_QUIZ);
  }

  lemma {:induction false} GapsRoundTrip(c: Container, next: int, order: KeyOrder)
    requires c.content.FillInTheGapsContent?
    ensures Create(ToJson(c), next, order) == Reloaded(c, next)
  {
    CreateOfTag(ToJson(c), next, order, FILL_IN_THE_GAPS);
  }

  lemma {:induction false} SortingRoundTrip(c: Container, next: int, order: KeyOrder)
    requires c.content.SortingTaskContent?
    ensures Create(ToJson(c), next, order) == Reloaded(c, next)
  {
    CreateOfTag(ToJson(c), next, order, SORTING_TASK);
  }

  lemma {:induction false} ErrorSpottingRoundTrip(c: Container, next: int, order: KeyOrder)
    requires c.content.ErrorSpottingContent?
    ensures Create(ToJson(c), next, order) == Reloaded(c, next)
  {
    CreateOfTag(ToJson(c), next, order, ERROR_SPOTTING);
  }

  lemma {:induction false} ReverseQuizRoundTrip(c: Container, next: int, order: KeyOrder)
    requires c.content.ReverseQuizContent?
    ensures Create(ToJson(c), next, order) == Reloaded(c, next)
  {
    CreateOfTag(ToJson(c), next, order, REVERSE_QUIZ);
  }

  lemma {:induction false} WiringRoundTrip(c: Container, next: int, order: KeyOrder)
    requires c.content.WireConnectingContent? && JavaKeys(c) && Enumerates(order)
    ensures Create(ToJson(c), next, order) == Reloaded(c, next)
  {
    CreateOfTag(ToJson(c), next, order, WIRE_CONNECTING);
    MatchesRoundTrip(c.content.wiring.correctMatches, order);
  }

  /**
   * containerToJson followed by createFromJson: every kind but QUIZ comes
   * back with its lesson content and fresh learner state under new ids
   * (the ids in the JSON are not read), QUIZ comes back as null.
   */
  lemma {:induction false} RoundTrip(c: Container, next: int, order: KeyOrder)
    requires Enumerates(order) && JavaKeys(c)
    ensures Create(ToJson(c), next, order) == Reloaded(c, next)
    decreases c, 1
  {
    match c.content
    case TitleContent(_) => TitleRoundTrip(c, next, order);
    case TextContent(_) => TextRoundTrip(c, next, order);
    case VideoContent(_) => VideoRoundTrip(c, next, order);
    case QuizContent => QuizTagUnknown(ToJson(c), next, order);
    case MultipleChoiceContent(_) => ChoiceQuizRoundTrip(c, next, order);
    case FillInTheGapsContent(_) => GapsRoundTrip(c, next, order);
    case SortingTaskContent(_) => SortingRoundTrip(c, next, order);
    case ErrorSpottingContent(_) => ErrorSpottingRoundTrip(c, next, order);
    case ReverseQuizContent(_) => ReverseQuizRoundTrip(c, next, order);
    case WireConnectingContent(_) => WiringRoundTrip(c, next, order);
    case RecapContent(_, _) => RecapRoundTrip(c, next, order);
  }

  lemma {:induction false} RecapRoundTrip(c: Container, next: int, order: KeyOrder)
    requires c.content.RecapContent? && Enumerates(order) && JavaKeys(c)
    ensures Create(ToJson(c), next, order) == Reloaded(c, next)
    decreases c, 0
  {
    KindOfTypeName(RECAP);
    var wrapped := c.content.wrappedContainer;
    if wrapped.Some? {
      RoundTrip(wrapped.value, next + 1, order);
    }
  }

  // ---------------------------------------------------------------- the counter

  /** The loop copying a JSON array of strings into a list; None when an element is not a string. */
  method ReadStrings(o: Object, key: string) returns (r: Option<seq<string>>)
    ensures r == StringsAt(o, key)
  {
    var a := GetArray(o, key);
    if a.None? {
      return None;
    }
    var items := a.value;
    var list: seq<string> := [];
    var i := 0;
    while i < |items|
      invariant 0 <= i <= |items| && |list| == i
      invariant forall j :: 0 <= j < i ==> items[j] == JStr(list[j])
    {
      if !items[i].JStr? {
        return None;
      }
      list := list + [items[i].s];
      i := i + 1;
    }
    assert items == StringArray(list).items;
    StringsOfStringArray(list);
    return Some(list);
  }

  /** The correctMatches loop over the keys in the library's order. */
  method ReadMatchesLoop(o: Object, keys: seq<string>) returns (r: MatchesRead)
    ensures r == ReadMatches(o, keys, map[])
  {
    var matches: map<int, int> := map[];
    var i := 0;
    while i < |keys|
      invariant 0 <= i <= |keys|
      invariant ReadMatches(o, keys, map[]) == ReadMatches(o, keys[i..], matches)
    {
      var n := ParseInt(keys[i]);
      if n.None? {
        return KeyThrew;
      }
      var v := GetInt(o, keys[i]);
      if v.None? {
        return ValueThrew;
      }
      assert keys[i..][1..] == keys[i + 1..];
      matches := matches[n.value := v.value];
      i := i + 1;
    }
    return Matches(matches);
  }

  /** createWireConnecting: the two item loops and the correctMatches loop. */
  method CreateWireConnectingFromJson(id: int, o: Object, order: KeyOrder) returns (r: Outcome)
    ensures r == CreateWireConnecting(id, o, order)
  {
    var instructions := GetString(o, "instructions");
    if instructions.None? {
      return Threw;
    }
    var left := ReadStrings(o, "leftItems");
    if left.None? {
      return Threw;
    }
    var right := ReadStrings(o, "rightItems");
    if right.None? {
      return Threw;
    }
    var matchesObject := GetObject(o, "correctMatches");
    if matchesObject.None? {
      return Threw;
    }
    var matches := ReadMatchesLoop(matchesObject.value, order(matchesObject.value));
    if matches.KeyThrew? {
      return Aborted;
    } else if matches.ValueThrew? {
      return Threw;
    }
    return Built(Container(id, WireConnectingContent(Wiring(instructions.value, left.value, right.value, matches.m))));
  }

  /** ContentContainerFactory's static id counter and the calls that use it. */
  class ContainerFactory {
    var containerIdCounter: int

    constructor ()
      ensures containerIdCounter == 0
    {
      containerIdCounter := 0;
    }

    method ResetIdCounter()
      modifies this
      ensures containerIdCounter == 0
    {
      containerIdCounter := 0;
    }

    /**
     * createFromJson: reads the tag, takes an id from the counter, and
     * dispatches on the upper-cased tag; a RECAP reads its wrapped
     * container with a nested call.
     */
    method CreateFromJson(o: Object, order: KeyOrder) returns (r: Outcome)
      modifies this
      ensures (r, containerIdCounter) == Create(o, old(containerIdCounter), order)
      decreases JObj(o), 1
    {
      var tag := GetString(o, "type");
      if tag.None? {
        return Threw;
      }
      var id := containerIdCounter;
      containerIdCounter := containerIdCounter + 1;
      var kind := KindOf(ToUpper(tag.value));
      if kind.None? {
        return NoContainer;
      }
      if kind.value == RECAP {
        r := CreateRecapFromJson(id, o, order);
      } else if kind.value == WIRE_CONNECTING {
        r := CreateWireConnectingFromJson(id, o, order);
      } else {
        r := Build(kind.value, id, o, order);
      }
    }

    /** createRecap: the title if present, then the wrapped container if present. */
    method CreateRecapFromJson(id: int, o: Object, order: KeyOrder) returns (r: Outcome)
      modifies this
      ensures var (outcome, after) := CreateRecap(id, o, old(containerIdCounter), order);
        r == outcome && containerIdCounter == after
      decreases JObj(o), 0
    {
      var title := OptionalString(o, "recapTitle");
      if title.None? {
        return Threw;
      }
      var recapTitle := Some(if title.value.Some? then title.value.value else "Recap");
      if "wrappedContainer" !in o {
        return Built(Container(id, RecapContent(recapTitle, None)));
      }
      var inner := GetObject(o, "wrappedContainer");
      if inner.None? {
        return Threw;
      }
      var wrapped := CreateFromJson(inner.value, order);
      if wrapped.Threw? || wrapped.Aborted? {
        return wrapped;
      }
      return Built(Container(id, RecapContent(recapTitle, if wrapped.Built? then Some(wrapped.container) else None)));
    }
  }
}
