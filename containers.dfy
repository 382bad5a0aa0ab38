/**
 * The content containers a lesson is made of. ContentContainer is an
 * abstract class with one subclass per kind; here the hierarchy is one
 * datatype, a container being its id together with the fields of its
 * subclass (the lesson content and the learner's current answer).
 */
module Containers {
  import opened Wrappers

  /** ContentContainer.Types, in declaration order. */
  datatype ContainerType =
    | TEXT | VIDEO | QUIZ | TITLE | MULTIPLE_CHOICE_QUIZ | REVERSE_QUIZ
    | WIRE_CONNECTING | FILL_IN_THE_GAPS | SORTING_TASK | ERROR_SPOTTING | RECAP

  /** Types.name(): the constant's identifier. */
  function TypeName(t: ContainerType): string
  {
    match t
    case TEXT => "TEXT"
    case VIDEO => "VIDEO"
    case QUIZ => "QUIZ"
    case TITLE => "TITLE"
    case MULTIPLE_CHOICE_QUIZ => "MULTIPLE_CHOICE_QUIZ"
    case REVERSE_QUIZ => "REVERSE_QUIZ"
    case WIRE_CONNECTING => "WIRE_CONNECTING"
    case FILL_IN_THE_GAPS => "FILL_IN_THE_GAPS"
    case SORTING_TASK => "SORTING_TASK"
    case ERROR_SPOTTING => "ERROR_SPOTTING"
    case RECAP => "RECAP"
  }

  /** ContainerMultipleChoiceQuiz's fields. */
  datatype ChoiceQuiz = ChoiceQuiz(
    question: string, options: seq<string>, correctAnswerIndices: seq<int>,
    allowMultipleAnswers: bool, explanationText: Option<string>, userSelectedIndices: seq<int>)

  /** ContainerReverseQuiz's fields. */
  datatype ReverseQuiz = ReverseQuiz(
    answer: string, questionOptions: seq<string>, correctQuestionIndex: int,
    explanationText: Option<string>, userSelectedIndex: int)

  /** ContainerWireConnecting's fields; correctMatches maps a left index to a right index. */
  datatype Wiring = Wiring(
    instructions: string, leftItems: seq<string>, rightItems: seq<string>, correctMatches: map<int, int>)

  /** ContainerFillInTheGaps's fields. */
  datatype Gaps = Gaps(
    textTemplate: string, correctWords: seq<string>, wordOptions: seq<string>,
    userFilledWords: seq<string>, userClickOrder: seq<int>, currentGapIndex: int, userSelectedWordIndex: int)

  /** ContainerSortingTask's fields. */
  datatype Sorting = Sorting(instructions: string, correctOrder: seq<string>, currentOrder: seq<string>)

  /** ContainerErrorSpotting's fields. */
  datatype ErrorSpotting = ErrorSpotting(
    instructions: string, items: seq<string>, errorIndex: int,
    explanationText: Option<string>, userSelectedIndex: int)

  /** The fields of each ContentContainer subclass. */
  datatype Content =
    | TitleContent(title: string)
    | TextContent(text: string)
    | VideoContent(url: Option<string>)
      /** A container whose type is QUIZ; no subclass in the app carries it. */
    | QuizContent
    | MultipleChoiceContent(quiz: ChoiceQuiz)
    | ReverseQuizContent(reverse: ReverseQuiz)
    | WireConnectingContent(wiring: Wiring)
    | FillInTheGapsContent(gaps: Gaps)
    | SortingTaskContent(sorting: Sorting)
    | ErrorSpottingContent(spotting: ErrorSpotting)
    | RecapContent(recapTitle: Option<string>, wrappedContainer: Option<Container>)

  datatype Container = Container(id: int, content: Content)

  /** ContentContainer.getType(). */
  function TypeOf(c: Content): ContainerType
  {
    match c
    case TitleContent(_) => TITLE
    case TextContent(_) => TEXT
    case VideoContent(_) => VIDEO
    case QuizContent => QUIZ
    case MultipleChoiceContent(_) => MULTIPLE_CHOICE_QUIZ
    case ReverseQuizContent(_) => REVERSE_QUIZ
    case WireConnectingContent(_) => WIRE_CONNECTING
    case FillInTheGapsContent(_) => FILL_IN_THE_GAPS
    case SortingTaskContent(_) => SORTING_TASK
    case ErrorSpottingContent(_) => ERROR_SPOTTING
    case RecapContent(_, _) => RECAP
  }

  /** The six kinds the learner answers and that are graded. */
  predicate IsInteractive(t: ContainerType)
  {
    t in {MULTIPLE_CHOICE_QUIZ, REVERSE_QUIZ, FILL_IN_THE_GAPS, ERROR_SPOTTING, SORTING_TASK, WIRE_CONNECTING}
  }

  /**
   * The same lesson content with the learner state a newly constructed
   * container has: nothing selected (-1 for a single index), no gap
   * filled, and a sorting task showing its items in the correct order.
   */
  function FreshState(c: Content): (r: Content)
    ensures TypeOf(r) == TypeOf(c)
  {
    match c
    case MultipleChoiceContent(q) => MultipleChoiceContent(q.(userSelectedIndices := []))
    case ReverseQuizContent(r) => ReverseQuizContent(r.(userSelectedIndex := -1))
    case FillInTheGapsContent(g) =>
      FillInTheGapsContent(g.(userFilledWords := [], userClickOrder := [], currentGapIndex := 0, userSelectedWordIndex := -1))
    case SortingTaskContent(t) => SortingTaskContent(t.(currentOrder := t.correctOrder))
    case ErrorSpottingContent(e) => ErrorSpottingContent(e.(userSelectedIndex := -1))
    case _ => c
  }
}
