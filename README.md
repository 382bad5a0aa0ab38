# 5MinuteChallenge — a verified model of the lesson core

5MinuteChallenge is an Android learning app. A language model turns a
learner's documents into a subject. A subject holds topics, a topic holds
challenges, and a challenge is a list of exercise "containers". A lesson
shows them one by one, in five minutes.

This project models the app's lesson logic in Dafny and proves what that
logic promises:

- **Containers.** The exercise kinds (title, text, video, multiple-choice quiz,
  fill-in-the-gaps, sorting task, wire connecting, error spotting, reverse
  quiz, recap) are modelled with the rules that judge an answer and the learner's
  answer state. Fill-in-the-gaps, sorting, multiple-choice and the other
  stateful exercises are classes whose methods update fields in place.
  Each carries an invariant it keeps (the fill cursor equals the number of
  filled words, the selection never repeats an index, the current order is
  a permutation of the correct one). The marker substitution of the
  fill-in-the-gaps display texts is proved for well-formed templates.
- **The JSON factory.** `ContentContainerFactory.createFromJson` and
  `containerToJson` are modelled over an abstract JSON datatype, with the
  factory's id counter as a class field. Writing a container and reading
  it back gives the same lesson content, fresh learner state and new ids.
  QUIZ serialises but does not read back.
- **The generation pipeline of `GeminiContentProcessor`.** This covers:
  - the three readers of the model's structural answers, with their
    defaults and fallbacks;
  - the validator and expander of the compact "TOON" challenge format, and
    how a validated container builds in the factory;
  - `addRelevantContentToPrompt`, with its page ranges and de-duplication;
  - the bounded retry loops, the rate-limit back-off delays, the progress
    arithmetic and the MIME detection.
- **`SubjectGenerationService`.** Parsing the generated JSON into topics,
  challenges and containers, content validation, and the subject-directory
  name rule.
- **`Subject`.** Progress aggregation, the topics preview, the merge of
  generated content files (last file wins per topic title, first-seen
  order), `toJSON`/`fromJSON`, and the save guard.
- **`Challenge` and `ChallengeManager`.** The best score only rises. The
  manager is a map from topic to challenge list.
- **Session state machines.** `ScoreManager`, `TimerManager`, the lesson
  pipeline of `FiveMinuteActivity` (checking answers, advancing, the recap queue,
  fresh copies), and `ContentContainerDataLoader`.
- **Small helpers.** `fileutil.sanitizeFileName`, the selection set of
  `SimpleTextAdapter`, the search filters of the storage, subject and topic
  lists, the storage MIME lookup, and the topic status and progress-dot
  rules.

Strings are `seq<char>`. org.json values are the datatype `Json`, where a
`get*` accessor that would throw gives `None`, and an `opt*` accessor falls
back to its default. An exception that escapes an operation is modelled as
`None`, or as `Threw`/`Failed` where a result can also be null. What the
language model answers is an input: the k-th element of a sequence stands
for the k-th call's answer.

## Model

| member | source | states |
|---|---|---|
| Text.ToLower | app/src/main/java/com/example/a5minutechallenge/datawrapper/subject/Subject.java:481 | the lower-cased name has the same length, each ASCII capital lowered and every other character kept |
| Text.IndexOf | app/src/main/java/com/example/a5minutechallenge/datawrapper/contentcontainer/containertypes/ContainerFillInTheGaps.java:178 | a position found leaves room for the whole target |
| Text.IndexOfFirst | app/src/main/java/com/example/a5minutechallenge/datawrapper/contentcontainer/containertypes/ContainerFillInTheGaps.java:178 | the position found holds the target and none before it does; none is found only when the target occurs nowhere |
| Text.ReplaceAll | app/src/main/java/com/example/a5minutechallenge/datawrapper/contentcontainer/containertypes/ContainerFillInTheGaps.java:169 | a replacement as long as the target keeps the length, a shorter one never lengthens the text |
| Text.ReplaceAllAbsent | app/src/main/java/com/example/a5minutechallenge/datawrapper/contentcontainer/containertypes/ContainerFillInTheGaps.java:169 | where the target does not occur, replace changes nothing |
| Text.ReplaceAllSelf | app/src/main/java/com/example/a5minutechallenge/datawrapper/contentcontainer/containertypes/ContainerFillInTheGaps.java:169 | replacing the target by itself changes nothing |
| Text.ReplaceFirst | app/src/main/java/com/example/a5minutechallenge/datawrapper/contentcontainer/containertypes/ContainerFillInTheGaps.java:178 | without an occurrence the text is unchanged; otherwise it loses the target's length and gains the replacement's |
| Text.ReplaceFirstAtFirst | app/src/main/java/com/example/a5minutechallenge/datawrapper/contentcontainer/containertypes/ContainerFillInTheGaps.java:178 | the replacement stands where the first occurrence was, with the text on both sides kept |
| Text.Trim | app/src/main/java/com/example/a5minutechallenge/util/fileutil.java:20 | the result neither starts nor ends with a character up to a blank, is empty exactly when every character is one, and is otherwise the middle of the input |
| Text.IntToString | app/src/main/java/com/example/a5minutechallenge/service/ContentContainerFactory.java:322 | the text is non-empty, starts with '-' exactly for a negative number, and is all digits otherwise |
| Text.IntToStringShape | app/src/main/java/com/example/a5minutechallenge/service/ContentContainerFactory.java:322 | after an optional '-' the digits spell the magnitude of the number |
| FileUtil.ReplaceForbidden | app/src/main/java/com/example/a5minutechallenge/util/fileutil.java:15-16 | every character of the class / \ : * ? " < > \| becomes '_', every other character is kept, and the length does not change |
| FileUtil.StripDots | app/src/main/java/com/example/a5minutechallenge/util/fileutil.java:18-19 | the result is a contiguous slice of the name with only dots before and after it; it neither starts nor ends with a dot, is empty exactly when the name was all dots, and is the name itself when the name neither starts nor ends with one |
| FileUtil.SanitizeFileName | app/src/main/java/com/example/a5minutechallenge/util/fileutil.java:10-13 | a null name gives "" |
| FileUtil.SanitizedShape | app/src/main/java/com/example/a5minutechallenge/util/fileutil.java:10-28 | a sanitized name has no forbidden character, no blank at either end, and is never longer than its input |
| FileUtil.DotsOrBlanksOnly | app/src/main/java/com/example/a5minutechallenge/util/fileutil.java:19-25 | a name made only of dots, or only of blanks, sanitizes to "" |
| FileUtil.CleanNameUnchanged | app/src/main/java/com/example/a5minutechallenge/util/fileutil.java:10-28 | a name with no forbidden character and no dot or blank at either end comes back unchanged |
| FileUtil.LeadingDotSurvives | app/src/main/java/com/example/a5minutechallenge/util/fileutil.java:19-20 | as written, dots are removed before blanks, so " .x" sanitizes to ".x", which still starts with a dot |
| FileUtil.SanitizeFileNameIntended | app/src/main/java/com/example/a5minutechallenge/util/fileutil.java:18-25 | the rule the comment describes: the result has no forbidden character, is no longer than the input, neither starts nor ends with a dot or blank, and is empty exactly when the name is made only of dots and blanks |
| FileUtil.IntendedAgreesOnCleanNames | app/src/main/java/com/example/a5minutechallenge/util/fileutil.java:10-28 | on a clean name the intended rule and the written one agree, and both return the name |
| FileUtil.IntendedStripsLeadingDot | app/src/main/java/com/example/a5minutechallenge/util/fileutil.java:18-20 | the intended rule strips " .x" to "x" |
| ScoreManager.Points | app/src/main/java/com/example/a5minutechallenge/screens/fiveminute/ScoreManager.java:42-47 | a correct answer is worth at least 100 points, and 20 more than it would be one step earlier in the streak |
| ScoreManager.ScoreManager.constructor | app/src/main/java/com/example/a5minutechallenge/screens/fiveminute/ScoreManager.java:19-26 | a new manager has every counter at zero and satisfies the counter invariant |
| ScoreManager.ScoreManager.RecordCorrectAnswer | app/src/main/java/com/example/a5minutechallenge/screens/fiveminute/ScoreManager.java:33-53 | the streak grows by one and the longest streak follows it; both answer counters grow by one; the points returned are Points of the new streak and are added to the score; the invariant is kept |
| ScoreManager.ScoreManager.RecordIncorrectAnswer | app/src/main/java/com/example/a5minutechallenge/screens/fiveminute/ScoreManager.java:58-62 | the streak drops to 0 and only the answer count grows; score, correct answers and longest streak are unchanged |
| ScoreManager.ScoreManager.AddAccuracyBonus | app/src/main/java/com/example/a5minutechallenge/screens/fiveminute/ScoreManager.java:80-92 | no bonus without answers; 300 when every answer was correct; otherwise the truncated percentage, below 100; the bonus is added to the score and nothing else changes |
| ScoreManager.ScoreManager.Reset | app/src/main/java/com/example/a5minutechallenge/screens/fiveminute/ScoreManager.java:120-127 | every counter is back to zero |
| ScoreManager.ScoreOf | app/src/main/java/com/example/a5minutechallenge/screens/fiveminute/ScoreManager.java:33-62 | over a run of answers the final streak is at most the number of answers, and the score is at least 100 per answer in that streak |
| ScoreManager.Percent | app/src/main/java/com/example/a5minutechallenge/screens/fiveminute/ScoreManager.java:83-84 | the truncated percentage of c out of t is 100 when c = t and below 100 otherwise |
| ScoreManager.Replay | app/src/main/java/com/example/a5minutechallenge/screens/fiveminute/ScoreManager.java:19-62 | replaying a run of answers on a new manager gives ScoreOf's score and streak, and counts every answer |
| ScoreManager.AllCorrectScore | app/src/main/java/com/example/a5minutechallenge/screens/fiveminute/ScoreManager.java:33-53 | n correct answers in a row score 100n + 10n(n-1), ending on a streak of n |
| TimerManager.JavaDiv | app/src/main/java/com/example/a5minutechallenge/screens/fiveminute/TimerManager.java:192 | Java's int division by a positive divisor truncates toward zero |
| TimerManager.JavaRem | app/src/main/java/com/example/a5minutechallenge/screens/fiveminute/TimerManager.java:193 | Java's remainder satisfies a == (a / b) * b + r and takes the sign of the dividend |
| TimerManager.Pad2 | app/src/main/java/com/example/a5minutechallenge/screens/fiveminute/TimerManager.java:194 | "%02d" gives a leading zero and the digit for 0..9, and the plain decimal from 10 on |
| TimerManager.FormattedTime | app/src/main/java/com/example/a5minutechallenge/screens/fiveminute/TimerManager.java:191-195 | for a non-negative time Java's truncating minutes and remainder are the plain quotient and remainder: the minutes, a colon and the two-digit seconds |
| TimerManager.FormattedTimeReadsBack | app/src/main/java/com/example/a5minutechallenge/screens/fiveminute/TimerManager.java:191-195 | for 0..300 seconds the text is the minutes, a colon and two digits, the second below 6, and minutes, tens and units add back up to the seconds |
| TimerManager.FullTimeText | app/src/main/java/com/example/a5minutechallenge/screens/fiveminute/TimerManager.java:191-195 | the full five minutes read "5:00" |
| TimerManager.TimerManager.constructor | app/src/main/java/com/example/a5minutechallenge/screens/fiveminute/TimerManager.java:31-34 | a new timer holds 300 seconds, is not running and has awarded no bonus |
| TimerManager.TimerManager.Tick | app/src/main/java/com/example/a5minutechallenge/screens/fiveminute/TimerManager.java:39-62 | when stopped, or when less than a second has passed, nothing changes; otherwise the clock mark moves to now and one second is taken off, and reaching zero clamps at zero and stops the timer; the time stays within 0..300 |
| TimerManager.TimerManager.Start | app/src/main/java/com/example/a5minutechallenge/screens/fiveminute/TimerManager.java:70-80 | the timer runs afterwards; the clock mark moves to now only if it was not running; the time is unchanged |
| TimerManager.TimerManager.Pause | app/src/main/java/com/example/a5minutechallenge/screens/fiveminute/TimerManager.java:85-94 | the timer is stopped afterwards and nothing else changes |
| TimerManager.TimerManager.Stop | app/src/main/java/com/example/a5minutechallenge/screens/fiveminute/TimerManager.java:99-106 | the timer is stopped and nothing else changes |
| TimerManager.TimerManager.AddTime | app/src/main/java/com/example/a5minutechallenge/screens/fiveminute/TimerManager.java:112-123 | the time grows by the given seconds, capped at 300, and the bonus is recorded; a non-negative bonus keeps the time within range and never lowers it |
| TimerManager.TimerManager.AddCorrectAnswerBonus | app/src/main/java/com/example/a5minutechallenge/screens/fiveminute/TimerManager.java:128-130 | ten seconds are added, capped at 300, and recorded as the last bonus |
| TimerManager.TimerManager.Reset | app/src/main/java/com/example/a5minutechallenge/screens/fiveminute/TimerManager.java:178-185 | the timer is stopped and holds the full 300 seconds again |
| TimerManager.TimerManager.IsCritical | app/src/main/java/com/example/a5minutechallenge/screens/fiveminute/TimerManager.java:159-161 | critical exactly when under thirty seconds are left, and then also under a minute |
| TimerManager.TimerManager.IsWarning | app/src/main/java/com/example/a5minutechallenge/screens/fiveminute/TimerManager.java:167-169 | warning exactly when between thirty seconds and a minute are left, and then never critical |
| TimerManager.CriticalOrWarning | app/src/main/java/com/example/a5minutechallenge/screens/fiveminute/TimerManager.java:159-169 | the timer is never critical and in warning at once, and it is one of the two exactly when below 60 seconds |
| SelectionAdapter.Toggled | app/src/main/java/com/example/a5minutechallenge/screens/fiveminute/SimpleTextAdapter.java:69-82 | in single mode the selection becomes exactly {position}; in multiple mode position flips membership and every other position keeps its own |
| SelectionAdapter.ToggleTwice | app/src/main/java/com/example/a5minutechallenge/screens/fiveminute/SimpleTextAdapter.java:69-80 | in multiple mode, toggling a position twice restores the selection |
| SelectionAdapter.SimpleTextAdapter.constructor | app/src/main/java/com/example/a5minutechallenge/screens/fiveminute/SimpleTextAdapter.java:49-54 | a new adapter keeps its items and mode and selects nothing |
| SelectionAdapter.SimpleTextAdapter.SetAllowMultipleSelection | app/src/main/java/com/example/a5minutechallenge/screens/fiveminute/SimpleTextAdapter.java:60-62 | the mode changes and the selection is kept |
| SelectionAdapter.SimpleTextAdapter.ToggleSelection | app/src/main/java/com/example/a5minutechallenge/screens/fiveminute/SimpleTextAdapter.java:69-82 | the selection becomes Toggled of the old one in the current mode |
| SelectionAdapter.SimpleTextAdapter.SetSelectedIndices | app/src/main/java/com/example/a5minutechallenge/screens/fiveminute/SimpleTextAdapter.java:88-94 | the selection becomes the given set, or empty for null |
| SelectionAdapter.SimpleTextAdapter.GetSelectedIndices | app/src/main/java/com/example/a5minutechallenge/screens/fiveminute/SimpleTextAdapter.java:100-102 | the result is a copy equal to the selection |
| SelectionAdapter.SimpleTextAdapter.ClearSelection | app/src/main/java/com/example/a5minutechallenge/screens/fiveminute/SimpleTextAdapter.java:107-110 | the selection becomes empty and the mode is kept |
| ErrorSpotting.ErrorSpotting.constructor | app/src/main/java/com/example/a5minutechallenge/datawrapper/contentcontainer/containertypes/ContainerErrorSpotting.java:18-22 | a new task has no items, nothing picked (-1) against error index 0, and is graded wrong |
| ErrorSpotting.ErrorSpotting.SetInstructions | app/src/main/java/com/example/a5minutechallenge/datawrapper/contentcontainer/containertypes/ContainerErrorSpotting.java:24-27 | only the instructions change |
| ErrorSpotting.ErrorSpotting.SetItems | app/src/main/java/com/example/a5minutechallenge/datawrapper/contentcontainer/containertypes/ContainerErrorSpotting.java:33-36 | only the items change |
| ErrorSpotting.ErrorSpotting.SetErrorIndex | app/src/main/java/com/example/a5minutechallenge/datawrapper/contentcontainer/containertypes/ContainerErrorSpotting.java:42-45 | only the error index changes |
| ErrorSpotting.ErrorSpotting.SetExplanationText | app/src/main/java/com/example/a5minutechallenge/datawrapper/contentcontainer/containertypes/ContainerErrorSpotting.java:51-54 | only the explanation changes |
| ErrorSpotting.ErrorSpotting.SetUserSelectedIndex | app/src/main/java/com/example/a5minutechallenge/datawrapper/contentcontainer/containertypes/ContainerErrorSpotting.java:60-70 | only the pick changes, and the exercise is then graded correct exactly when the pick is the error index |
| ErrorSpotting.ErrorSpotting.IsCorrect | app/src/main/java/com/example/a5minutechallenge/datawrapper/contentcontainer/containertypes/ContainerErrorSpotting.java:68-70 | graded correct exactly when the picked index equals the error index; with nothing picked (-1) only an error index of -1 grades correct; a correct pick names an item exactly when the error index does |
| ReverseQuiz.ReverseQuiz.constructor | app/src/main/java/com/example/a5minutechallenge/datawrapper/contentcontainer/containertypes/ContainerReverseQuiz.java:18-22 | a new quiz has no questions, nothing picked (-1) against correct index 0, and is graded wrong |
| ReverseQuiz.ReverseQuiz.SetAnswer | app/src/main/java/com/example/a5minutechallenge/datawrapper/contentcontainer/containertypes/ContainerReverseQuiz.java:24-27 | only the answer changes |
| ReverseQuiz.ReverseQuiz.SetQuestionOptions | app/src/main/java/com/example/a5minutechallenge/datawrapper/contentcontainer/containertypes/ContainerReverseQuiz.java:33-36 | only the question options change |
| ReverseQuiz.ReverseQuiz.SetCorrectQuestionIndex | app/src/main/java/com/example/a5minutechallenge/datawrapper/contentcontainer/containertypes/ContainerReverseQuiz.java:42-45 | only the correct index changes |
| ReverseQuiz.ReverseQuiz.SetExplanationText | app/src/main/java/com/example/a5minutechallenge/datawrapper/contentcontainer/containertypes/ContainerReverseQuiz.java:51-54 | only the explanation changes |
| ReverseQuiz.ReverseQuiz.SetUserSelectedIndex | app/src/main/java/com/example/a5minutechallenge/datawrapper/contentcontainer/containertypes/ContainerReverseQuiz.java:60-70 | only the pick changes, and the quiz is then graded correct exactly when the pick is the correct question |
| ReverseQuiz.ReverseQuiz.IsCorrect | app/src/main/java/com/example/a5minutechallenge/datawrapper/contentcontainer/containertypes/ContainerReverseQuiz.java:68-70 | graded correct exactly when the picked question is the correct one; with nothing picked (-1) only a correct index of -1 grades correct; a correct pick names an option exactly when the correct index does |
| WireConnecting.MatchedIffIdentity | app/src/main/java/com/example/a5minutechallenge/datawrapper/contentcontainer/containertypes/ContainerWireConnecting.java:68-92 | when the right items are all different, the arrangement is correct exactly when every required match on a position shown on both sides points at that same position |
| WireConnecting.WireConnecting.constructor | app/src/main/java/com/example/a5minutechallenge/datawrapper/contentcontainer/containertypes/ContainerWireConnecting.java:20-25 | a new task has empty item lists and an empty match map |
| WireConnecting.WireConnecting.SetInstructions | app/src/main/java/com/example/a5minutechallenge/datawrapper/contentcontainer/containertypes/ContainerWireConnecting.java:27-30 | only the instructions change |
| WireConnecting.WireConnecting.SetLeftItems | app/src/main/java/com/example/a5minutechallenge/datawrapper/contentcontainer/containertypes/ContainerWireConnecting.java:36-39 | only the left items change |
| WireConnecting.WireConnecting.SetRightItems | app/src/main/java/com/example/a5minutechallenge/datawrapper/contentcontainer/containertypes/ContainerWireConnecting.java:45-48 | only the right items change |
| WireConnecting.WireConnecting.SetCorrectMatches | app/src/main/java/com/example/a5minutechallenge/datawrapper/contentcontainer/containertypes/ContainerWireConnecting.java:54-57 | only the match map changes |
| WireConnecting.WireConnecting.IsCorrect | app/src/main/java/com/example/a5minutechallenge/datawrapper/contentcontainer/containertypes/ContainerWireConnecting.java:68-92 | the loop returns true exactly when, for every position shown on both sides that has a required match, the match is a right position and the right item there equals the one at the position |
| MultipleChoiceQuiz.Added | app/src/main/java/com/example/a5minutechallenge/datawrapper/contentcontainer/containertypes/ContainerMultipleChoiceQuiz.java:73-81 | the chosen index is in the new selection; in single-answer mode the selection is exactly [x]; in multiple mode it holds the old indices plus x and is unchanged when x was already there; no duplicates are introduced |
| MultipleChoiceQuiz.RemovedFirst | app/src/main/java/com/example/a5minutechallenge/datawrapper/contentcontainer/containertypes/ContainerMultipleChoiceQuiz.java:83-85 | the multiset loses one x, and a selection without x is unchanged; which occurrence goes is stated by RemovedFirstPosition |
| MultipleChoiceQuiz.RemovedFirstAt | app/src/main/java/com/example/a5minutechallenge/datawrapper/contentcontainer/containertypes/ContainerMultipleChoiceQuiz.java:83-85 | if the first x sits at i, the result is the entries before i followed by those after i |
| MultipleChoiceQuiz.RemovedFirstPosition | app/src/main/java/com/example/a5minutechallenge/datawrapper/contentcontainer/containertypes/ContainerMultipleChoiceQuiz.java:83-85 | when x occurs, exactly its first occurrence is removed: some i holds x with no x before it, and the result is s[..i] + s[i+1..], so the other entries keep their order |
| MultipleChoiceQuiz.RemovedFirstNoDuplicates | app/src/main/java/com/example/a5minutechallenge/datawrapper/contentcontainer/containertypes/ContainerMultipleChoiceQuiz.java:83-85 | removing from a duplicate-free selection leaves it duplicate-free and without x |
| MultipleChoiceQuiz.AddThenRemove | app/src/main/java/com/example/a5minutechallenge/datawrapper/contentcontainer/containertypes/ContainerMultipleChoiceQuiz.java:73-85 | in multiple mode, choosing a new index and then removing it restores the selection |
| MultipleChoiceQuiz.GradedIffSameIndices | app/src/main/java/com/example/a5minutechallenge/datawrapper/contentcontainer/containertypes/ContainerMultipleChoiceQuiz.java:91-96 | with a duplicate-free selection, the answer is graded correct exactly when the correct indices are duplicate-free and hold the same indices as the selection |
| MultipleChoiceQuiz.MultipleChoiceQuiz.constructor | app/src/main/java/com/example/a5minutechallenge/datawrapper/contentcontainer/containertypes/ContainerMultipleChoiceQuiz.java:20-26 | a new quiz has empty options, correct indices and selection, and single-answer mode |
| MultipleChoiceQuiz.MultipleChoiceQuiz.SetQuestion | app/src/main/java/com/example/a5minutechallenge/datawrapper/contentcontainer/containertypes/ContainerMultipleChoiceQuiz.java:28-31 | only the question changes |
| MultipleChoiceQuiz.MultipleChoiceQuiz.SetOptions | app/src/main/java/com/example/a5minutechallenge/datawrapper/contentcontainer/containertypes/ContainerMultipleChoiceQuiz.java:37-40 | only the options change |
| MultipleChoiceQuiz.MultipleChoiceQuiz.SetCorrectAnswerIndices | app/src/main/java/com/example/a5minutechallenge/datawrapper/contentcontainer/containertypes/ContainerMultipleChoiceQuiz.java:46-49 | only the correct indices change |
| MultipleChoiceQuiz.MultipleChoiceQuiz.SetAllowMultipleAnswers | app/src/main/java/com/example/a5minutechallenge/datawrapper/contentcontainer/containertypes/ContainerMultipleChoiceQuiz.java:55-58 | only the mode changes |
| MultipleChoiceQuiz.MultipleChoiceQuiz.SetExplanationText | app/src/main/java/com/example/a5minutechallenge/datawrapper/contentcontainer/containertypes/ContainerMultipleChoiceQuiz.java:64-67 | only the explanation changes |
| MultipleChoiceQuiz.MultipleChoiceQuiz.AddUserSelectedIndex | app/src/main/java/com/example/a5minutechallenge/datawrapper/contentcontainer/containertypes/ContainerMultipleChoiceQuiz.java:73-81 | the selection becomes Added of the old one in the current mode and stays duplicate-free; nothing else changes |
| MultipleChoiceQuiz.MultipleChoiceQuiz.RemoveUserSelectedIndex | app/src/main/java/com/example/a5minutechallenge/datawrapper/contentcontainer/containertypes/ContainerMultipleChoiceQuiz.java:83-85 | the selection loses the index and stays duplicate-free; nothing else changes |
| MultipleChoiceQuiz.MultipleChoiceQuiz.IsCorrect | app/src/main/java/com/example/a5minutechallenge/datawrapper/contentcontainer/containertypes/ContainerMultipleChoiceQuiz.java:91-96 | the result is true exactly when the selection has as many entries as the correct indices and each is among them |
| SortingTask.Swapped | app/src/main/java/com/example/a5minutechallenge/datawrapper/contentcontainer/containertypes/ContainerSortingTask.java:45-52 | a swap keeps the length of the list (its contents are stated by the lemmas below) |
| SortingTask.Moved | app/src/main/java/com/example/a5minutechallenge/datawrapper/contentcontainer/containertypes/ContainerSortingTask.java:54-60 | a move keeps the length of the list (its contents are stated by the lemmas below) |
| SortingTask.SwappedPermutes | app/src/main/java/com/example/a5minutechallenge/datawrapper/contentcontainer/containertypes/ContainerSortingTask.java:45-52 | a swap keeps the same multiset of items |
| SortingTask.SwappedTwice | app/src/main/java/com/example/a5minutechallenge/datawrapper/contentcontainer/containertypes/ContainerSortingTask.java:45-52 | swapping the same two positions twice restores the list |
| SortingTask.MovedPermutes | app/src/main/java/com/example/a5minutechallenge/datawrapper/contentcontainer/containertypes/ContainerSortingTask.java:54-60 | a move keeps the same multiset of items |
| SortingTask.MovedPlaces | app/src/main/java/com/example/a5minutechallenge/datawrapper/contentcontainer/containertypes/ContainerSortingTask.java:54-60 | after a move within range, the item from `from` sits at `to`, and the other items keep their relative order |
| SortingTask.MovedBack | app/src/main/java/com/example/a5minutechallenge/datawrapper/contentcontainer/containertypes/ContainerSortingTask.java:54-60 | moving the item back from `to` to `from` restores the list |
| SortingTask.SortingTask.constructor | app/src/main/java/com/example/a5minutechallenge/datawrapper/contentcontainer/containertypes/ContainerSortingTask.java:16-20 | a new task has empty correct and current orders |
| SortingTask.SortingTask.SetInstructions | app/src/main/java/com/example/a5minutechallenge/datawrapper/contentcontainer/containertypes/ContainerSortingTask.java:22-25 | only the instructions change |
| SortingTask.SortingTask.SetCorrectOrder | app/src/main/java/com/example/a5minutechallenge/datawrapper/contentcontainer/containertypes/ContainerSortingTask.java:31-35 | the correct order is set and the learner's order starts as a copy of it, so the exercise is graded correct |
| SortingTask.SortingTask.SwapItems | app/src/main/java/com/example/a5minutechallenge/datawrapper/contentcontainer/containertypes/ContainerSortingTask.java:45-52 | the current order becomes Swapped of the old one (unchanged out of range), stays a permutation of the correct order, and the correct order is untouched |
| SortingTask.SortingTask.MoveItem | app/src/main/java/com/example/a5minutechallenge/datawrapper/contentcontainer/containertypes/ContainerSortingTask.java:54-60 | the current order becomes Moved of the old one (unchanged out of range), stays a permutation of the correct order, and the correct order is untouched |
| SortingTask.SortingTask.IsCorrect | app/src/main/java/com/example/a5minutechallenge/datawrapper/contentcontainer/containertypes/ContainerSortingTask.java:62-72 | the result is true exactly when both orders have the same length and the same item at every position |
| FillInTheGaps.Bracketed | app/src/main/java/com/example/a5minutechallenge/datawrapper/contentcontainer/containertypes/ContainerFillInTheGaps.java:167-169 | every filled word is shown as "[" + word + "]", position by position |
| FillInTheGaps.GapTexts | app/src/main/java/com/example/a5minutechallenge/datawrapper/contentcontainer/containertypes/ContainerFillInTheGaps.java:165-174 | gap i shows "[filled i]" once filled and the placeholder before, one entry per correct word |
| FillInTheGaps.GapExercise.constructor | app/src/main/java/com/example/a5minutechallenge/datawrapper/contentcontainer/containertypes/ContainerFillInTheGaps.java:21-28 | a new exercise has empty word lists, no clicks, cursor 0 and no selected chip (-1) |
| FillInTheGaps.GapExercise.SetTextTemplate | app/src/main/java/com/example/a5minutechallenge/datawrapper/contentcontainer/containertypes/ContainerFillInTheGaps.java:30-33 | only the template changes |
| FillInTheGaps.GapExercise.SetCorrectWords | app/src/main/java/com/example/a5minutechallenge/datawrapper/contentcontainer/containertypes/ContainerFillInTheGaps.java:39-42 | only the correct words change |
| FillInTheGaps.GapExercise.SetWordOptions | app/src/main/java/com/example/a5minutechallenge/datawrapper/contentcontainer/containertypes/ContainerFillInTheGaps.java:48-51 | only the word options change |
| FillInTheGaps.GapExercise.SetUserSelectedWordIndex | app/src/main/java/com/example/a5minutechallenge/datawrapper/contentcontainer/containertypes/ContainerFillInTheGaps.java:212-214 | only the selected chip changes |
| FillInTheGaps.GapExercise.FillGap | app/src/main/java/com/example/a5minutechallenge/datawrapper/contentcontainer/containertypes/ContainerFillInTheGaps.java:57-62 | while a gap is left the word is appended and the cursor advances; otherwise nothing changes; the cursor stays equal to the number of filled words |
| FillInTheGaps.GapExercise.FillGapWithIndex | app/src/main/java/com/example/a5minutechallenge/datawrapper/contentcontainer/containertypes/ContainerFillInTheGaps.java:69-78 | succeeds exactly when a gap is left and k names a chip; on success the chip's word and k are appended and the cursor advances; on failure nothing changes |
| FillInTheGaps.GapExercise.RemoveLastFilledWord | app/src/main/java/com/example/a5minutechallenge/datawrapper/contentcontainer/containertypes/ContainerFillInTheGaps.java:80-88 | on an empty list nothing changes; otherwise the last word and the last click (if any) are dropped and the cursor steps back |
| FillInTheGaps.GapExercise.RemoveFilledWord | app/src/main/java/com/example/a5minutechallenge/datawrapper/contentcontainer/containertypes/ContainerFillInTheGaps.java:90-96 | a gap in range is emptied and its word appended to the options; otherwise nothing changes; the cursor invariant is kept |
| FillInTheGaps.GapExercise.IsClickOrderCorrect | app/src/main/java/com/example/a5minutechallenge/datawrapper/contentcontainer/containertypes/ContainerFillInTheGaps.java:113-128 | true exactly when there is one click per gap, every click names a chip, and the chips read the correct words ignoring case |
| FillInTheGaps.GapExercise.IsAllGapsFilled | app/src/main/java/com/example/a5minutechallenge/datawrapper/contentcontainer/containertypes/ContainerFillInTheGaps.java:134-136 | with the cursor invariant, true exactly when there are at least as many filled words as gaps |
| FillInTheGaps.GapExercise.IsCorrect | app/src/main/java/com/example/a5minutechallenge/datawrapper/contentcontainer/containertypes/ContainerFillInTheGaps.java:138-148 | true exactly when the filled words match the correct words one for one, ignoring case |
| FillInTheGaps.GapExercise.GetDisplayTextWithPlaceholder | app/src/main/java/com/example/a5minutechallenge/datawrapper/contentcontainer/containertypes/ContainerFillInTheGaps.java:155-185 | the loops compute PlaceholderView: numbered markers from 0 or 1 take "[word]" or the placeholder; otherwise each "{}" in turn takes "[word]" and the rest the placeholder |
| FillInTheGaps.GapExercise.GetDisplayText | app/src/main/java/com/example/a5minutechallenge/datawrapper/contentcontainer/containertypes/ContainerFillInTheGaps.java:187-206 | the loops compute FilledView: only filled gaps are substituted, without brackets, and other markers are left as written |
| GapTemplates.ReplaceAllInterleave | app/src/main/java/com/example/a5minutechallenge/datawrapper/contentcontainer/containertypes/ContainerFillInTheGaps.java:169-172 | String.replace of a marker acts on the gaps alone: in a template of brace-free text and markers, every gap holding that marker takes the replacement and nothing else changes |
| GapTemplates.ReplaceFirstInterleave | app/src/main/java/com/example/a5minutechallenge/datawrapper/contentcontainer/containertypes/ContainerFillInTheGaps.java:178 | replaceFirst of a marker fills the first gap holding it and nothing else |
| GapTemplates.ReplaceNumberedInterleave | app/src/main/java/com/example/a5minutechallenge/datawrapper/contentcontainer/containertypes/ContainerFillInTheGaps.java:165-174 | replacing the numbered markers one after another puts the k-th replacement at gap k and leaves the later markers as written |
| GapTemplates.FillSimpleInterleave | app/src/main/java/com/example/a5minutechallenge/datawrapper/contentcontainer/containertypes/ContainerFillInTheGaps.java:177-179 | replacing the first "{}" by each word in turn puts the j-th word at the j-th "{}" gap |
| GapTemplates.MarkersDistinct | app/src/main/java/com/example/a5minutechallenge/datawrapper/contentcontainer/containertypes/ContainerFillInTheGaps.java:166 | no two numbered markers "{i}" can be mistaken for each other |
| GapTemplates.StyleDetected | app/src/main/java/com/example/a5minutechallenge/datawrapper/contentcontainer/containertypes/ContainerFillInTheGaps.java:159-163 | in a well-formed template the numbering is told apart correctly: numbered exactly when the markers are numbered, from 0 or from 1 as written |
| GapTemplates.PlaceholderViewShowsGaps | app/src/main/java/com/example/a5minutechallenge/datawrapper/contentcontainer/containertypes/ContainerFillInTheGaps.java:155-185 | in a well-formed template the play view shows "[word]" at each filled gap, the placeholder at each unfilled one, and the template's own text elsewhere |
| GapTemplates.UnnumberedPlaceholderView | app/src/main/java/com/example/a5minutechallenge/datawrapper/contentcontainer/containertypes/ContainerFillInTheGaps.java:175-182 | for "{}" markers, filling in sequence and then replacing the rest by the placeholder gives the same view gap by gap |
| GapTemplates.NumberedPlaceholderView | app/src/main/java/com/example/a5minutechallenge/datawrapper/contentcontainer/containertypes/ContainerFillInTheGaps.java:162-174 | for markers numbered from 0 or 1, the same view is obtained gap by gap |
| GapTemplates.FilledViewShowsWords | app/src/main/java/com/example/a5minutechallenge/datawrapper/contentcontainer/containertypes/ContainerFillInTheGaps.java:187-206 | in a well-formed template the finished view shows the i-th filled word at gap i and leaves the markers of unfilled gaps as written |
| GapTemplates.NumberedFilledView | app/src/main/java/com/example/a5minutechallenge/datawrapper/contentcontainer/containertypes/ContainerFillInTheGaps.java:194-199 | for numbered markers the finished view puts each filled word at its gap and keeps the later markers |
| FillInTheGapsExamples.ZeroBasedPlaceholder | app/src/test/java/com/example/a5minutechallenge/datawrapper/contentcontainer/containertypes/ContainerFillInTheGapsTest.java:45-48 | "{0} is the {1}" with "Java" filled shows "[Java] is the ___" |
| FillInTheGapsExamples.ZeroBasedFilled | app/src/test/java/com/example/a5minutechallenge/datawrapper/contentcontainer/containertypes/ContainerFillInTheGapsTest.java:49 | "{0} is the {1}" with "Java" filled reads "Java is the {1}" |
| FillInTheGapsExamples.OneBasedPlaceholder | app/src/test/java/com/example/a5minutechallenge/datawrapper/contentcontainer/containertypes/ContainerFillInTheGapsTest.java:14-24 | "{1} is the {2} of the {3}" with "The" filled shows "[The] is the ___ of the ___" |
| FillInTheGapsExamples.OneBasedFilled | app/src/test/java/com/example/a5minutechallenge/datawrapper/contentcontainer/containertypes/ContainerFillInTheGapsTest.java:25 | "{1} is the {2} of the {3}" with "The" filled reads "The is the {2} of the {3}" |
| FillInTheGapsExamples.UnnumberedPlaceholder | app/src/test/java/com/example/a5minutechallenge/datawrapper/contentcontainer/containertypes/ContainerFillInTheGapsTest.java:59-66 | "{} is the {}" with "Paris" filled shows "[Paris] is the ___" |
| FillInTheGapsExamples.UnnumberedFilled | app/src/test/java/com/example/a5minutechallenge/datawrapper/contentcontainer/containertypes/ContainerFillInTheGapsTest.java:67 | "{} is the {}" with "Paris" filled reads "Paris is the {}" |
| Challenges.ProgressPercentage | app/src/main/java/com/example/a5minutechallenge/datawrapper/challenge/Challenge.java:75-83 | the progress is 100 exactly when the challenge is completed and 0 exactly when it is not |
| Challenges.Challenge.constructor | app/src/main/java/com/example/a5minutechallenge/datawrapper/challenge/Challenge.java:16-22 | a new challenge keeps its title and description, is not completed, has best score 0, no attempts and no container list yet |
| Challenges.Challenge.SetTitle | app/src/main/java/com/example/a5minutechallenge/datawrapper/challenge/Challenge.java:28-30 | only the title changes |
| Challenges.Challenge.SetDescription | app/src/main/java/com/example/a5minutechallenge/datawrapper/challenge/Challenge.java:36-38 | only the description changes |
| Challenges.Challenge.SetCompleted | app/src/main/java/com/example/a5minutechallenge/datawrapper/challenge/Challenge.java:44-46 | only the completed flag changes |
| Challenges.Challenge.SetBestScore | app/src/main/java/com/example/a5minutechallenge/datawrapper/challenge/Challenge.java:57-61 | the best score becomes the larger of the stored and the new score, so it never goes down; nothing else changes |
| Challenges.Challenge.IncrementAttempts | app/src/main/java/com/example/a5minutechallenge/datawrapper/challenge/Challenge.java:67-69 | the attempts grow by one and nothing else changes |
| Challenges.Challenge.SetAttempts | app/src/main/java/com/example/a5minutechallenge/datawrapper/challenge/Challenge.java:71-73 | only the attempts change |
| Challenges.Challenge.GetContainerlist | app/src/main/java/com/example/a5minutechallenge/datawrapper/challenge/Challenge.java:85-90 | the stored list is returned; without one an empty list is created, stored and returned |
| Challenges.Challenge.SetContainerlist | app/src/main/java/com/example/a5minutechallenge/datawrapper/challenge/Challenge.java:92-94 | only the container list changes |
| Challenges.Challenge.AddContainer | app/src/main/java/com/example/a5minutechallenge/datawrapper/challenge/Challenge.java:96-98 | the container is appended to the list, which is created empty first when missing |
| Challenges.ChallengeManager.constructor | app/src/main/java/com/example/a5minutechallenge/datawrapper/challenge/ChallengeManager.java:14-16 | a new manager knows no topic |
| Challenges.ChallengeManager.SetChallengesForTopic | app/src/main/java/com/example/a5minutechallenge/datawrapper/challenge/ChallengeManager.java:34-36 | the topic's list is replaced and every other topic keeps its own |
| Challenges.ChallengeManager.GetChallengesForTopic | app/src/main/java/com/example/a5minutechallenge/datawrapper/challenge/ChallengeManager.java:43-45 | a topic that was set gives its list, any other gives null |
| Challenges.ChallengeManager.GetChallenge | app/src/main/java/com/example/a5minutechallenge/datawrapper/challenge/ChallengeManager.java:53-59 | the result is non-null exactly when the topic was set and the position is within its list, and is then the challenge at that position |
| Challenges.ChallengeManager.UpdateChallengeCompletion | app/src/main/java/com/example/a5minutechallenge/datawrapper/challenge/ChallengeManager.java:67-73 | the addressed challenge is marked completed and its best score becomes the larger of the old one and the score; with no such challenge nothing changes |
| Text.ParseIntToString | app/src/main/java/com/example/a5minutechallenge/service/ContentContainerFactory.java:206-211 | the decimal key String.valueOf writes for a Java int parses back with Integer.parseInt to the same int |
| Text.IntToStringInjective | app/src/main/java/com/example/a5minutechallenge/service/ContentContainerFactory.java:315-325 | distinct ints are written as distinct correctMatches keys |
| Text.ParseInt | app/src/main/java/com/example/a5minutechallenge/service/ContentContainerFactory.java:210 | Integer.parseInt only ever yields a value within the 32-bit int range; anything else throws (None) |
| Json.StringsOfStringArray | app/src/main/java/com/example/a5minutechallenge/service/ContentContainerFactory.java:271-280 | a list of strings written as a JSONArray reads back unchanged with getString |
| Json.IntsOfIntArray | app/src/main/java/com/example/a5minutechallenge/service/ContentContainerFactory.java:271-280 | a list of ints written as a JSONArray reads back unchanged with getInt |
| ContainerFactory.KindOf | app/src/main/java/com/example/a5minutechallenge/service/ContentContainerFactory.java:34-57 | a tag selects exactly the type whose enum name it is; QUIZ and every other string select nothing (the default branch) |
| ContainerFactory.StringsAt | app/src/main/java/com/example/a5minutechallenge/service/ContentContainerFactory.java:77-82 | a string list is read only from an array that is exactly the JSONArray of that list |
| ContainerFactory.IntsAt | app/src/main/java/com/example/a5minutechallenge/service/ContentContainerFactory.java:85-90 | an int list is read only from an array that is exactly the JSONArray of that list |
| ContainerFactory.OptionalString | app/src/main/java/com/example/a5minutechallenge/service/ContentContainerFactory.java:232-238 | an absent optional string gives null, a present string gives its value, and a present non-string throws |
| ContainerFactory.OptionalBool | app/src/main/java/com/example/a5minutechallenge/service/ContentContainerFactory.java:93-95 | an absent allowMultipleAnswers gives the default false, a present boolean gives its value, and anything else throws |
| ContainerFactory.ReadMatches | app/src/main/java/com/example/a5minutechallenge/service/ContentContainerFactory.java:206-211 | reading never loses an entry already read; the map comes back exactly when every key parses and every value is an int; parseInt's NumberFormatException (KeyThrew) needs a key it rejects, getInt's JSONException (ValueThrew) a value that is not an int |
| ContainerFactory.CreateTitle | app/src/main/java/com/example/a5minutechallenge/service/ContentContainerFactory.java:60-64 | a built container is a title with the given id |
| ContainerFactory.CreateText | app/src/main/java/com/example/a5minutechallenge/service/ContentContainerFactory.java:66-70 | a built container is a text with the given id |
| ContainerFactory.CreateMultipleChoiceQuiz | app/src/main/java/com/example/a5minutechallenge/service/ContentContainerFactory.java:72-103 | a built container is a multiple-choice quiz with the given id |
| ContainerFactory.CreateFillInTheGaps | app/src/main/java/com/example/a5minutechallenge/service/ContentContainerFactory.java:105-126 | a built container is a fill-in-the-gaps exercise with the given id |
| ContainerFactory.CreateSortingTask | app/src/main/java/com/example/a5minutechallenge/service/ContentContainerFactory.java:128-141 | a built container is a sorting task with the given id |
| ContainerFactory.CreateErrorSpotting | app/src/main/java/com/example/a5minutechallenge/service/ContentContainerFactory.java:143-162 | a built container is an error-spotting task with the given id |
| ContainerFactory.CreateReverseQuiz | app/src/main/java/com/example/a5minutechallenge/service/ContentContainerFactory.java:164-183 | a built container is a reverse quiz with the given id |
| ContainerFactory.CreateWireConnecting | app/src/main/java/com/example/a5minutechallenge/service/ContentContainerFactory.java:185-215 | a built container is a wire-connecting task with the given id |
| ContainerFactory.UnparsableMatchKeyAborts | app/src/main/java/com/example/a5minutechallenge/service/ContentContainerFactory.java:206-211 | with the other fields readable, a first correctMatches key that parseInt rejects makes the builder end with the NumberFormatException, not a JSONException |
| ContainerFactory.CreateVideo | app/src/main/java/com/example/a5minutechallenge/service/ContentContainerFactory.java:232-238 | a built container is a video with the given id |
| ContainerFactory.Build | app/src/main/java/com/example/a5minutechallenge/service/ContentContainerFactory.java:34-57 | a builder that succeeds gives a container with the given id, of the type that was dispatched on |
| ContainerFactory.Create | app/src/main/java/com/example/a5minutechallenge/service/ContentContainerFactory.java:30-58 | a missing or non-string "type" throws before an id is taken; otherwise at least one id is used up, and a built container has the first of them |
| ContainerFactory.CreateRecap | app/src/main/java/com/example/a5minutechallenge/service/ContentContainerFactory.java:217-230 | a built recap has its own id, its wrapped container (if any) has the id the counter stood at, and the counter never goes back |
| ContainerFactory.MissingRequiredFieldThrows | app/src/main/java/com/example/a5minutechallenge/service/ContentContainerFactory.java:60-215 | when a field that a builder reads with get* is missing, that builder throws |
| ContainerFactory.CreateOfTag | app/src/main/java/com/example/a5minutechallenge/service/ContentContainerFactory.java:30-57 | a tag naming a type other than QUIZ and RECAP runs that type's builder with the next id and uses exactly one id |
| ContainerFactory.LowerCaseTag | app/src/test/java/com/example/a5minutechallenge/service/ContentContainerFactoryTest.java:235-245 | the tag is upper-cased first, so "text" builds a TEXT container |
| ContainerFactory.UnknownTag | app/src/test/java/com/example/a5minutechallenge/service/ContentContainerFactoryTest.java:225-233 | an unknown tag returns null and still uses up one id |
| ContainerFactory.QuizTagUnknown | app/src/main/java/com/example/a5minutechallenge/service/ContentContainerFactory.java:34-57 | "QUIZ" has no case, so it returns null and uses up one id |
| ContainerFactory.RecapIds | app/src/main/java/com/example/a5minutechallenge/service/ContentContainerFactory.java:217-230 | a built RECAP takes id n and its wrapped container takes n + 1 |
| ContainerFactory.PutOptional | app/src/main/java/com/example/a5minutechallenge/service/ContentContainerFactory.java:277-279 | an optional field is written only when it is non-null, and then with its value |
| ContainerFactory.MatchesObject | app/src/main/java/com/example/a5minutechallenge/service/ContentContainerFactory.java:315-325 | every match is written under the decimal spelling of its left index with its right index, and every written key comes from a match |
| ContainerFactory.Base | app/src/main/java/com/example/a5minutechallenge/service/ContentContainerFactory.java:255-258 | every written container reads back "type" (the enum name) and "id" |
| ContainerFactory.StringFieldJson | app/src/main/java/com/example/a5minutechallenge/service/ContentContainerFactory.java:256-269 | a written title or text holds exactly its type, id and one string field, and reads them back |
| ContainerFactory.VideoJson | app/src/main/java/com/example/a5minutechallenge/service/ContentContainerFactory.java:337-342 | a written video reads back its type, id and optional url |
| ContainerFactory.QuizJson | app/src/main/java/com/example/a5minutechallenge/service/ContentContainerFactory.java:255-258 | a QUIZ is written with its type and id |
| ContainerFactory.ChoiceQuizJson | app/src/main/java/com/example/a5minutechallenge/service/ContentContainerFactory.java:271-280 | a written quiz reads back its question, options, correct indices, mode and optional explanation |
| ContainerFactory.GapsJson | app/src/main/java/com/example/a5minutechallenge/service/ContentContainerFactory.java:282-287 | a written exercise reads back its template, correct words and word options |
| ContainerFactory.SortingJson | app/src/main/java/com/example/a5minutechallenge/service/ContentContainerFactory.java:289-293 | a written task reads back its instructions and correct order |
| ContainerFactory.ErrorSpottingJson | app/src/main/java/com/example/a5minutechallenge/service/ContentContainerFactory.java:295-303 | a written task reads back its instructions, items, error index and optional explanation |
| ContainerFactory.ReverseQuizJson | app/src/main/java/com/example/a5minutechallenge/service/ContentContainerFactory.java:305-313 | a written quiz reads back its answer, question options, correct index and optional explanation |
| ContainerFactory.WiringJson | app/src/main/java/com/example/a5minutechallenge/service/ContentContainerFactory.java:315-325 | a written task reads back its instructions, both item lists and the written match object |
| ContainerFactory.RecapJson | app/src/main/java/com/example/a5minutechallenge/service/ContentContainerFactory.java:327-335 | a written recap reads back its optional title, and it has a wrapped container exactly when one was given |
| ContainerFactory.Reloaded | app/src/main/java/com/example/a5minutechallenge/service/ContentContainerFactory.java:247-254 | reading back a written container never throws; it gives null exactly for QUIZ, and otherwise the same type under the next id, using at least one id |
| ContainerFactory.KindOfTypeName | app/src/main/java/com/example/a5minutechallenge/service/ContentContainerFactory.java:34-57 | a type's own name is already upper case and dispatches to that type, except QUIZ, which dispatches nowhere |
| ContainerFactory.MatchesObjectKey | app/src/main/java/com/example/a5minutechallenge/service/ContentContainerFactory.java:206-211 | a key of a written match object names an entry of the map, and it parses back to that entry's key with its value |
| ContainerFactory.ReadMatchesOfObject | app/src/main/java/com/example/a5minutechallenge/service/ContentContainerFactory.java:206-211 | reading a written match object key by key adds exactly the entries whose keys were read |
| ContainerFactory.MatchesRoundTrip | app/src/main/java/com/example/a5minutechallenge/service/ContentContainerFactory.java:206-211 | with a key order that lists every key, the whole correctMatches map is read back |
| ContainerFactory.TitleRoundTrip | app/src/main/java/com/example/a5minutechallenge/service/ContentContainerFactory.java:60-64 | a written title reads back as Reloaded says |
| ContainerFactory.TextRoundTrip | app/src/main/java/com/example/a5minutechallenge/service/ContentContainerFactory.java:66-70 | a written text reads back as Reloaded says |
| ContainerFactory.VideoRoundTrip | app/src/main/java/com/example/a5minutechallenge/service/ContentContainerFactory.java:232-238 | a written video reads back as Reloaded says |
| ContainerFactory.ChoiceQuizRoundTrip | app/src/main/java/com/example/a5minutechallenge/service/ContentContainerFactory.java:72-103 | a written multiple-choice quiz reads back with the same content and an empty selection |
| ContainerFactory.GapsRoundTrip | app/src/main/java/com/example/a5minutechallenge/service/ContentContainerFactory.java:105-126 | a written exercise reads back with the same content and no gap filled |
| ContainerFactory.SortingRoundTrip | app/src/main/java/com/example/a5minutechallenge/service/ContentContainerFactory.java:128-141 | a written sorting task reads back with the same correct order, shown in that order |
| ContainerFactory.ErrorSpottingRoundTrip | app/src/main/java/com/example/a5minutechallenge/service/ContentContainerFactory.java:143-162 | a written error-spotting task reads back with the same content and nothing picked |
| ContainerFactory.ReverseQuizRoundTrip | app/src/main/java/com/example/a5minutechallenge/service/ContentContainerFactory.java:164-183 | a written reverse quiz reads back with the same content and nothing picked |
| ContainerFactory.WiringRoundTrip | app/src/main/java/com/example/a5minutechallenge/service/ContentContainerFactory.java:185-215 | a written wire-connecting task reads back with the same items and the same match map |
| ContainerFactory.RoundTrip | app/src/main/java/com/example/a5minutechallenge/service/ContentContainerFactory.java:247-346 | createFromJson(containerToJson(c)) gives every kind but QUIZ back with its lesson content and fresh learner state under new ids, and gives QUIZ back as null |
| ContainerFactory.RecapRoundTrip | app/src/main/java/com/example/a5minutechallenge/service/ContentContainerFactory.java:217-230 | a written recap reads back with its title (or "Recap") and its wrapped container under the ids that follow |
| ContainerFactory.ReadStrings | app/src/main/java/com/example/a5minutechallenge/service/ContentContainerFactory.java:77-82 | the copying loop gives exactly StringsAt |
| ContainerFactory.ReadMatchesLoop | app/src/main/java/com/example/a5minutechallenge/service/ContentContainerFactory.java:206-211 | the correctMatches loop ends exactly as ReadMatches does over the keys in the library's order: the same map, or the same kind of exception |
| ContainerFactory.CreateWireConnectingFromJson | app/src/main/java/com/example/a5minutechallenge/service/ContentContainerFactory.java:185-215 | the builder, with its three loops, gives exactly CreateWireConnecting |
| ContainerFactory.ContainerFactory.constructor | app/src/main/java/com/example/a5minutechallenge/service/ContentContainerFactory.java:21 | the counter starts at 0 |
| ContainerFactory.ContainerFactory.ResetIdCounter | app/src/main/java/com/example/a5minutechallenge/service/ContentContainerFactory.java:243-245 | the counter is back at 0, so the following calls get ids 0, 1, 2, ... |
| ContainerFactory.ContainerFactory.CreateFromJson | app/src/main/java/com/example/a5minutechallenge/service/ContentContainerFactory.java:30-58 | the call returns Create's outcome and leaves the counter where Create says |
| ContainerFactory.ContainerFactory.CreateRecapFromJson | app/src/main/java/com/example/a5minutechallenge/service/ContentContainerFactory.java:217-230 | the call returns CreateRecap's outcome and leaves the counter where CreateRecap says |
| ContainerFactory.RecapAround | app/src/main/java/com/example/a5minutechallenge/service/ContentContainerFactory.java:217-230 | a RECAP whose wrapped container builds is built around exactly that container, with id n, and the counter ends where the nested call left it |
| SubjectGeneration.CreateNeverQuiz | app/src/main/java/com/example/a5minutechallenge/service/SubjectGenerationService.java:159-166 | no container handed to a challenge is a QUIZ, since createFromJson has no case for that tag |
| SubjectGeneration.ContainerStep | app/src/main/java/com/example/a5minutechallenge/service/SubjectGenerationService.java:158-171 | an element that is not an object throws before an id is taken; a built container has the id the counter stood at, is not a QUIZ, and uses up at least one id |
| SubjectGeneration.ReadContainer | app/src/main/java/com/example/a5minutechallenge/service/SubjectGenerationService.java:159-160 | getJSONObject then createFromJson give ContainerStep's outcome and move the factory's counter as it says |
| SubjectGeneration.ParseContainers | app/src/main/java/com/example/a5minutechallenge/service/SubjectGenerationService.java:152-180 | until an element's NumberFormatException ends the loop, every element is either kept or skipped (kept + skipped = length; fewer when the loop ended early); kept containers carry strictly increasing ids taken from the counter in this call, and none is a QUIZ |
| SubjectGeneration.ParseContainersNext | app/src/main/java/com/example/a5minutechallenge/service/SubjectGenerationService.java:157-172 | one more element appends its container, adds one to the skipped count, or ends the loop with its NumberFormatException, continuing from the counter the prefix left |
| SubjectGeneration.ContainersStopAtAbort | app/src/main/java/com/example/a5minutechallenge/service/SubjectGenerationService.java:157-172 | once an element's NumberFormatException has left the loop, later elements change nothing |
| SubjectGeneration.NothingSkipped | app/src/main/java/com/example/a5minutechallenge/service/SubjectGenerationService.java:152-180 | with nothing skipped and no exception leaving the loop, every element was an object and built a container, so the list is as long as the array |
| SubjectGeneration.NothingSkippedLast | app/src/main/java/com/example/a5minutechallenge/service/SubjectGenerationService.java:157-172 | with nothing skipped and no exception leaving the loop, the same holds of the prefix, and the last element was an object that built one more container |
| SubjectGeneration.AllObjects | app/src/main/java/com/example/a5minutechallenge/service/SubjectGenerationService.java:157-172 | every element of the array is an object when the prefix's are and the last one is |
| SubjectGeneration.ParseChallenge | app/src/main/java/com/example/a5minutechallenge/service/SubjectGenerationService.java:146-183 | the title defaults to "Untitled Challenge" and the description to ""; a new challenge is unstarted; its container list is set exactly when "containers" is present, and the call throws exactly when that is not an array or a container's NumberFormatException leaves the loop |
| SubjectGeneration.BareChallenge | app/src/main/java/com/example/a5minutechallenge/service/SubjectGenerationService.java:146-150 | an object without any keys becomes an untitled, empty, unstarted challenge and takes no id |
| SubjectGeneration.ParseChallenges | app/src/main/java/com/example/a5minutechallenge/service/SubjectGenerationService.java:126-137 | one challenge per element, in order, each titled from its own element; all elements must be objects |
| SubjectGeneration.ChallengesStopAtFailure | app/src/main/java/com/example/a5minutechallenge/service/SubjectGenerationService.java:130-134 | once a challenge throws, the rest of the array is not read: the outcome is that of the prefix |
| SubjectGeneration.ParseTopic | app/src/main/java/com/example/a5minutechallenge/service/SubjectGenerationService.java:122-140 | a missing or non-string title throws before any id is taken; challenges are set exactly when "challenges" is present, and without it the topic is just its title |
| SubjectGeneration.ParseTopics | app/src/main/java/com/example/a5minutechallenge/service/SubjectGenerationService.java:108-112 | one topic per element, in order, titled as its element; all elements must be objects |
| SubjectGeneration.TopicsStopAtFailure | app/src/main/java/com/example/a5minutechallenge/service/SubjectGenerationService.java:108-112 | once a topic throws, the rest of the array is not read: the outcome is that of the prefix |
| SubjectGeneration.PopulateTopics | app/src/main/java/com/example/a5minutechallenge/service/SubjectGenerationService.java:102-114 | a missing or non-array "topics" throws before any id is taken; on success there is one topic per element |
| SubjectGeneration.TitlesOnlyTopics | app/src/main/java/com/example/a5minutechallenge/service/SubjectGenerationService.java:122-140 | topics without "challenges" all parse, take no ids, and leave their challenges unset |
| SubjectGeneration.UnparsableMatchKeyFailsGeneration | app/src/main/java/com/example/a5minutechallenge/service/SubjectGenerationService.java:102-183 | a subject whose one WIRE_CONNECTING container has the correctMatches key "a" yields no topics: the NumberFormatException is not caught per container |
| SubjectGeneration.WireWithLetterKeyAborts | app/src/main/java/com/example/a5minutechallenge/service/ContentContainerFactory.java:185-211 | that container, read as an element of the containers array, ends with parseInt's NumberFormatException after taking id 0 |
| SubjectGeneration.ParseContainersLoop | app/src/main/java/com/example/a5minutechallenge/service/SubjectGenerationService.java:152-180 | the container loop returns exactly ParseContainers's kept list, skipped count and whether a NumberFormatException left it, and moves the factory's counter as it says |
| SubjectGeneration.ParseChallengeObject | app/src/main/java/com/example/a5minutechallenge/service/SubjectGenerationService.java:146-183 | the method gives exactly ParseChallenge's outcome and counter |
| SubjectGeneration.ParseTopicObject | app/src/main/java/com/example/a5minutechallenge/service/SubjectGenerationService.java:122-140 | the method gives exactly ParseTopic's outcome and counter |
| SubjectGeneration.ParseChallengesLoop | app/src/main/java/com/example/a5minutechallenge/service/SubjectGenerationService.java:129-133 | the challenge loop gives exactly ParseChallenges's outcome and counter, stopping at the first challenge that throws |
| SubjectGeneration.PopulateSubject | app/src/main/java/com/example/a5minutechallenge/service/SubjectGenerationService.java:102-117 | the subject's topics are replaced only when the whole parse succeeds; otherwise the subject is unchanged |
| SubjectGeneration.Validation | app/src/main/java/com/example/a5minutechallenge/service/SubjectGenerationService.java:191-227 | the report is valid exactly when there are topics; an empty report says "No topics generated"; a valid one counts the topics, the set challenge lists' challenges and the set container lists' containers |
| SubjectGeneration.CountsAdd | app/src/main/java/com/example/a5minutechallenge/service/SubjectGenerationService.java:204-216 | the challenge and container totals add up over concatenated topic lists |
| SubjectGeneration.NoChallengesCountNothing | app/src/main/java/com/example/a5minutechallenge/service/SubjectGenerationService.java:205-207 | topics without challenge lists add no challenges and no containers |
| SubjectGeneration.ValidateContent | app/src/main/java/com/example/a5minutechallenge/service/SubjectGenerationService.java:191-227 | the counting loops give exactly Validation of the topics getTopics() returns, and already-set topics are left as they were |
| SubjectGeneration.EntryId | app/src/main/java/com/example/a5minutechallenge/service/SubjectGenerationService.java:246-256 | an entry gives an id only when it is a directory named "subject_" followed by text Integer.parseInt accepts, and then that value |
| SubjectGeneration.SubjectIds | app/src/main/java/com/example/a5minutechallenge/service/SubjectGenerationService.java:233-261 | at most one id per entry, and every listed id comes from an entry that names it |
| SubjectGeneration.SubjectDirectoryFound | app/src/main/java/com/example/a5minutechallenge/service/SubjectGenerationService.java:246-256 | a directory "subject_<n>" for any Java int n is found with id n |
| SubjectGeneration.SubjectEntryId | app/src/main/java/com/example/a5minutechallenge/service/SubjectGenerationService.java:249-253 | "subject_" followed by the decimal text of an int names that int |
| SubjectGeneration.EntryIdListed | app/src/main/java/com/example/a5minutechallenge/service/SubjectGenerationService.java:246-258 | the id of every entry that names one is listed |
| SubjectGeneration.OtherEntriesIgnored | app/src/main/java/com/example/a5minutechallenge/service/SubjectGenerationService.java:247-249 | files, and directories without the prefix, add nothing |
| SubjectGeneration.GetAllSubjectIds | app/src/main/java/com/example/a5minutechallenge/service/SubjectGenerationService.java:233-261 | the directory loop gives exactly SubjectIds of the listing |
| Subjects.SumOf | app/src/main/java/com/example/a5minutechallenge/datawrapper/subject/Subject.java:877-883 | with non-negative per-topic counts the total is non-negative and at least each topic's count |
| Subjects.CountOf | app/src/main/java/com/example/a5minutechallenge/datawrapper/subject/Subject.java:864-872 | the completed-topic count is at most the number of topics; it equals it exactly when every topic is completed, and it is 0 exactly when none is |
| Subjects.BestOf | app/src/main/java/com/example/a5minutechallenge/datawrapper/subject/Subject.java:928-937 | the best score is at least 0 and at least every topic's best, and it is either 0 or the best of some topic |
| Subjects.TruncDiv | app/src/main/java/com/example/a5minutechallenge/datawrapper/subject/Subject.java:903 | Java's int division agrees with mathematical division on a non-negative dividend and a positive divisor |
| Subjects.Percentage | app/src/main/java/com/example/a5minutechallenge/datawrapper/subject/Subject.java:899-904 | a subject without challenges has progress 0 (its range and its tie to isCompleted are stated by PercentageBounds) |
| Subjects.PercentageBounds | app/src/main/java/com/example/a5minutechallenge/datawrapper/subject/Subject.java:899-912 | with 0 <= completed <= total, the percentage lies in 0..100, and it is 100 exactly when isCompleted holds |
| Subjects.Preview | app/src/main/java/com/example/a5minutechallenge/datawrapper/subject/Subject.java:947-964 | no topics gives ""; with at most maxTopics topics, all titles are joined with " • "; with more and a positive maxTopics, the first maxTopics titles are joined and " • …" is appended; with a non-positive maxTopics and some topics, the preview is " • …" alone |
| Subjects.JoinSnoc | app/src/main/java/com/example/a5minutechallenge/datawrapper/subject/Subject.java:954-959 | one more title appends the separator and the title, or only the title when it is the first |
| Subjects.BuildPreview | app/src/main/java/com/example/a5minutechallenge/datawrapper/subject/Subject.java:947-964 | the StringBuilder loop gives exactly Preview |
| Subjects.Insert | app/src/main/java/com/example/a5minutechallenge/datawrapper/subject/Subject.java:487-493 | inserting a file into a listing in comparator order keeps it in order and adds exactly that file |
| Subjects.SortFiles | app/src/main/java/com/example/a5minutechallenge/datawrapper/subject/Subject.java:485-493 | the sorted listing is in comparator order (content.json after all other names, the rest ascending by name) and is a permutation of the listing |
| Subjects.ContentFileLast | app/src/main/java/com/example/a5minutechallenge/datawrapper/subject/Subject.java:485-493 | in the sorted listing, every file after a content.json is a content.json too, so its topics are merged last |
| Subjects.JsonFiles | app/src/main/java/com/example/a5minutechallenge/datawrapper/subject/Subject.java:481 | every kept name ends in ".json", ignoring case, and a file is kept exactly when it is listed and its name so ends |
| Subjects.JsonFilesCounts | app/src/main/java/com/example/a5minutechallenge/datawrapper/subject/Subject.java:481 | each ".json" file is kept as many times as the listing holds it, any other file no times |
| Subjects.JsonFilesAppend | app/src/main/java/com/example/a5minutechallenge/datawrapper/subject/Subject.java:481 | the filter keeps listing order: filtering a concatenation is the concatenation of the filtered parts |
| Subjects.Put | app/src/main/java/com/example/a5minutechallenge/datawrapper/subject/Subject.java:570 | LinkedHashMap.put: a new title is appended to the key order; an existing title keeps its place and takes the new topic |
| Subjects.Merged | app/src/main/java/com/example/a5minutechallenge/datawrapper/subject/Subject.java:500-571 | the merge map stays a valid linked map: its key order lists each title once and names exactly its keys |
| Subjects.PutTopics | app/src/main/java/com/example/a5minutechallenge/datawrapper/subject/Subject.java:518-571 | the loop over one file's topics continues the merge exactly as Merged says |
| Subjects.MergedSnoc | app/src/main/java/com/example/a5minutechallenge/datawrapper/subject/Subject.java:520-570 | a topic with an empty title is dropped; any other topic is put under its title |
| Subjects.MergeFiles | app/src/main/java/com/example/a5minutechallenge/datawrapper/subject/Subject.java:503-576 | the loop over the sorted files gives exactly the merge of all their topics, file after file |
| Subjects.Values | app/src/main/java/com/example/a5minutechallenge/datawrapper/subject/Subject.java:579 | values() lists one topic per key, in key order |
| Subjects.MergedTitles | app/src/main/java/com/example/a5minutechallenge/datawrapper/subject/Subject.java:518-571 | the merged titles are exactly the non-empty titles of the input |
| Subjects.MergedKeepsLast | app/src/main/java/com/example/a5minutechallenge/datawrapper/subject/Subject.java:569-570 | the topic kept under a title is the last one with that title, so content.json, merged last, wins |
| Subjects.MergedOrder | app/src/main/java/com/example/a5minutechallenge/datawrapper/subject/Subject.java:500-501 | a title keeps the place of its first occurrence: an earlier merged title first occurs before any occurrence of a later one |
| Subjects.ChallengeJson | app/src/main/java/com/example/a5minutechallenge/datawrapper/subject/Subject.java:792-810 | a written challenge has its title, description, completed flag, best score and attempts, and "containers" exactly when its list is non-null and non-empty |
| Subjects.ChallengesJson | app/src/main/java/com/example/a5minutechallenge/datawrapper/subject/Subject.java:782-785 | one written object per challenge, in order |
| Subjects.TopicJson | app/src/main/java/com/example/a5minutechallenge/datawrapper/subject/Subject.java:776-790 | a written topic has its title, and "challenges" exactly when its list is non-null and non-empty |
| Subjects.TopicsJson | app/src/main/java/com/example/a5minutechallenge/datawrapper/subject/Subject.java:735-738 | one written object per topic, in order |
| Subjects.SubjectJson | app/src/main/java/com/example/a5minutechallenge/datawrapper/subject/Subject.java:727-743 | the written subject has its id; title and description exactly when non-null; topics exactly when non-null and non-empty |
| Subjects.ChallengeFromJson | app/src/main/java/com/example/a5minutechallenge/datawrapper/subject/Subject.java:833-849 | a read challenge has no attempts and no containers, and a best score of at least 0 |
| Subjects.ChallengesFromJson | app/src/main/java/com/example/a5minutechallenge/datawrapper/subject/Subject.java:821-828 | one challenge per element when reading succeeds |
| Subjects.TopicFromJson | app/src/main/java/com/example/a5minutechallenge/datawrapper/subject/Subject.java:818-831 | a read topic has the required title, and challenges exactly when "challenges" is present |
| Subjects.TopicsFromJson | app/src/main/java/com/example/a5minutechallenge/datawrapper/subject/Subject.java:764-771 | one topic per element when reading succeeds |
| Subjects.SubjectFromJson | app/src/main/java/com/example/a5minutechallenge/datawrapper/subject/Subject.java:752-774 | a read subject has the required subjectId, and topics exactly when "topics" is present |
| Subjects.ChallengeRoundTrip | app/src/main/java/com/example/a5minutechallenge/datawrapper/subject/Subject.java:792-849 | a written challenge reads back with its title, description and completion, its best score raised to at least 0, and without attempts or containers |
| Subjects.ChallengesRoundTrip | app/src/main/java/com/example/a5minutechallenge/datawrapper/subject/Subject.java:782-828 | a written challenge list reads back element by element |
| Subjects.TopicRoundTrip | app/src/main/java/com/example/a5minutechallenge/datawrapper/subject/Subject.java:776-831 | a written topic reads back with its title, and with its challenges when the list was non-empty |
| Subjects.TopicsRoundTrip | app/src/main/java/com/example/a5minutechallenge/datawrapper/subject/Subject.java:735-771 | a written topic list reads back element by element |
| Subjects.SubjectRoundTrip | app/src/main/java/com/example/a5minutechallenge/datawrapper/subject/Subject.java:727-849 | fromJSON(toJSON()) keeps the id, title, description and topic titles, and each challenge's title, description, completion and best score (at least 0); attempts and containers are not read back, and an empty list comes back unset |
| Subjects.ContentDocument | app/src/main/java/com/example/a5minutechallenge/datawrapper/subject/Subject.java:380-417 | the saved document has exactly the key "topics", with one entry per topic |
| Subjects.SavedTopicsMatchToJson | app/src/main/java/com/example/a5minutechallenge/datawrapper/subject/Subject.java:383-417 | the topics saveToStorage writes are those toJSON writes |
| Subjects.Subject.constructor | app/src/main/java/com/example/a5minutechallenge/datawrapper/subject/Subject.java:38-40 | a new subject has its id and no title, description or topics |
| Subjects.Subject.SetTitle | app/src/main/java/com/example/a5minutechallenge/datawrapper/subject/Subject.java:64-67 | only the title changes |
| Subjects.Subject.SetDescription | app/src/main/java/com/example/a5minutechallenge/datawrapper/subject/Subject.java:173-176 | only the description changes |
| Subjects.Subject.SetTopics | app/src/main/java/com/example/a5minutechallenge/datawrapper/subject/Subject.java:178-180 | only the topics change |
| Subjects.Subject.GetTopics | app/src/main/java/com/example/a5minutechallenge/datawrapper/subject/Subject.java:218-223 | the first call creates and keeps an empty list; after that the same list is returned |
| Subjects.Subject.LoadGeneratedContent | app/src/main/java/com/example/a5minutechallenge/datawrapper/subject/Subject.java:472-584 | the topics become the merge of the sorted .json files exactly when the merge holds a topic, and the result says whether it did |
| Subjects.Subject.GetTopicsFromStorage | app/src/main/java/com/example/a5minutechallenge/datawrapper/subject/Subject.java:189-197 | on first use the topics are the merged generated content, or an empty list when there is none; afterwards they are returned unchanged |
| Subjects.Subject.GetTopicsPreview | app/src/main/java/com/example/a5minutechallenge/datawrapper/subject/Subject.java:947-964 | the preview is Preview over the titles of the topics getTopics returns; topics already loaded are kept, otherwise they become the merged topics of the sorted ".json" files; id, title and description are unchanged |
| Subjects.Subject.SumOverTopics | app/src/main/java/com/example/a5minutechallenge/datawrapper/subject/Subject.java:877-894 | the accumulator loop gives SumOf over the topics, and only the lazy creation of the topics list changes the subject |
| Subjects.Subject.CompletedTopics | app/src/main/java/com/example/a5minutechallenge/datawrapper/subject/Subject.java:864-872 | the counting loop gives CountOf over the topics |
| Subjects.Subject.BestScore | app/src/main/java/com/example/a5minutechallenge/datawrapper/subject/Subject.java:928-937 | the maximum loop gives BestOf over the topics |
| Subjects.Subject.ProgressPercentage | app/src/main/java/com/example/a5minutechallenge/datawrapper/subject/Subject.java:899-904 | the result is Percentage of the summed completed and total challenge counts |
| Subjects.Subject.IsCompleted | app/src/main/java/com/example/a5minutechallenge/datawrapper/subject/Subject.java:909-912 | the result is AllCompleted of the summed completed and total challenge counts |
| Subjects.Subject.SaveToStorage | app/src/main/java/com/example/a5minutechallenge/datawrapper/subject/Subject.java:373-445 | unset or empty topics give false and write nothing; otherwise the document written is ContentDocument of the topics, and the result is whether the write succeeded |
| Lesson.CountInteractive | app/src/main/java/com/example/a5minutechallenge/screens/fiveminute/FiveMinuteActivity.java:174-188 | the interactive count is at most the number of containers; it is 0 when none is interactive and the full length when all are |
| Lesson.CountIgnoresRecaps | app/src/main/java/com/example/a5minutechallenge/screens/fiveminute/FiveMinuteActivity.java:174-188 | queued RECAP containers do not change the count, so the scale of the progress bar stays the same |
| Lesson.ToCheck | app/src/main/java/com/example/a5minutechallenge/screens/fiveminute/FiveMinuteActivity.java:270-277 | a RECAP that wraps a container is checked through the wrapped one; every other container is checked itself |
| Lesson.Grade | app/src/main/java/com/example/a5minutechallenge/screens/fiveminute/FiveMinuteActivity.java:328-398 | a non-interactive kind (QUIZ included) is never correct; error spotting and wire connecting always are |
| Lesson.GradeOfFreshState | app/src/main/java/com/example/a5minutechallenge/screens/fiveminute/FiveMinuteActivity.java:328-398 | a fresh copy passes the check only when there is nothing to answer: a quiz without correct options, a reverse quiz whose correct index is -1, a gap text without gaps; a sorting task always passes, since it starts in the correct order |
| Lesson.FreshCopy | app/src/main/java/com/example/a5minutechallenge/screens/fiveminute/FiveMinuteActivity.java:558-602 | only the six interactive kinds are copied, each under the given id and with fresh learner state; every other kind gives null |
| Lesson.Review | app/src/main/java/com/example/a5minutechallenge/screens/fiveminute/FiveMinuteActivity.java:524-552 | at most one review is queued; nothing is queued for error spotting, wire connecting or an empty RECAP; a review is queued exactly when the checked container is interactive; a queued review is a RECAP under the counter's id with the given title, wrapping a fresh copy under the next id |
| Lesson.ReviewIdsDistinct | app/src/main/java/com/example/a5minutechallenge/screens/fiveminute/FiveMinuteActivity.java:543-547 | every id in the review queue, of recaps and copies alike, is used once |
| Lesson.ReviewQueueGrows | app/src/main/java/com/example/a5minutechallenge/screens/fiveminute/FiveMinuteActivity.java:524-552 | appending a review keeps the queue well formed: reviews only, ids from 10000 upward, increasing |
| Lesson.AppendReview | app/src/main/java/com/example/a5minutechallenge/screens/fiveminute/FiveMinuteActivity.java:524-552 | appending a review keeps the loaded containers, keeps the queue well formed, and leaves the interactive count unchanged |
| Lesson.Lesson.constructor | app/src/main/java/com/example/a5minutechallenge/screens/fiveminute/FiveMinuteActivity.java:170-194 | a new lesson shows the first loaded container, with nothing answered, the interactive ones counted, the recap ids starting at 10000, a zero score and a full timer |
| Lesson.Lesson.CheckButtonClicked | app/src/main/java/com/example/a5minutechallenge/screens/fiveminute/FiveMinuteActivity.java:267-305 | an interactive container not yet checked is graded and stays current, with all of onAnswer's effects: one more answer counted (one more correct answer when right), and on a correct answer the streak, points, ten seconds and progress target, on a wrong one the reset streak and the queued review; anything else moves the lesson on: to the next container with score and timer untouched, or, after the last, to the end with the timer stopped and the accuracy bonus added; containers already in the lesson are never changed |
| Lesson.Lesson.CheckAnswer | app/src/main/java/com/example/a5minutechallenge/screens/fiveminute/FiveMinuteActivity.java:310-401 | the verdict is Grade of the container to check and a correct one counts once; the answer counters the accuracy bonus reads grow (total by one, correct by one when right); a correct verdict extends the streak, adds its points and ten seconds up to 300 and moves the progress target, a wrong one resets the streak and appends exactly Review's output; the position and the timer's running state are unchanged |
| Lesson.Lesson.OnAnswer | app/src/main/java/com/example/a5minutechallenge/screens/fiveminute/FiveMinuteActivity.java:489-518 | every answer adds one to the score's answer count and a correct one adds one to its correct count, the counters the accuracy bonus reads; a correct answer extends the streak, adds its points, adds ten seconds up to the 300-second cap and sets the progress target to correct*100/interactive; a wrong answer resets the streak and queues the review Review describes; the timer keeps running or stopped as it was |
| Lesson.Lesson.AddCurrentContainerToRecap | app/src/main/java/com/example/a5minutechallenge/screens/fiveminute/FiveMinuteActivity.java:524-552 | exactly the review of the current container is appended, and the recap counter moves as Review says |
| Lesson.Lesson.ProgressToNextContainer | app/src/main/java/com/example/a5minutechallenge/screens/fiveminute/FiveMinuteActivity.java:407-454 | before the last container, the next one becomes current with its check undone and score and timer untouched; at the last, checkLessonComplete ends the lesson: timer stopped, its remaining time kept, the accuracy bonus added to the score |
| Lesson.Lesson.CheckLessonComplete | app/src/main/java/com/example/a5minutechallenge/screens/fiveminute/FiveMinuteActivity.java:716-740 | the timer stops with its time kept, the accuracy bonus (0 without answers, 300 when all correct, below 100 otherwise) is added to the total score and kept for the result screen, and the lesson ends with its containers and counts unchanged |
| Lesson.Lesson.OnTimeOver | app/src/main/java/com/example/a5minutechallenge/screens/fiveminute/FiveMinuteActivity.java:785-788 | when the time runs out the lesson ends where it stands, with the timer stopped and the accuracy bonus added |
| DataLoader.TopicIndex | app/src/main/java/com/example/a5minutechallenge/screens/fiveminute/ContentContainerDataLoader.java:46-52 | the chosen topic is the first one with the requested title; when no topic has it, the first topic (index 0) is used |
| DataLoader.Copyable | app/src/main/java/com/example/a5minutechallenge/screens/fiveminute/ContentContainerDataLoader.java:60-145 | the loader copies every container but QUIZ, in order; a list without QUIZ is copied whole |
| DataLoader.Copies | app/src/main/java/com/example/a5minutechallenge/screens/fiveminute/ContentContainerDataLoader.java:57-147 | copy k is the k-th copyable container under id start + k with fresh learner state, so nothing is lost or reordered |
| DataLoader.Load | app/src/main/java/com/example/a5minutechallenge/screens/fiveminute/ContentContainerDataLoader.java:40-148 | loading throws exactly when there is no topic, the chosen topic's challenges were never set, or the challenge position is outside the list |
| DataLoader.CopyOf | app/src/main/java/com/example/a5minutechallenge/screens/fiveminute/ContentContainerDataLoader.java:60-145 | one step copies a container under the next id with fresh learner state, and skips exactly QUIZ |
| DataLoader.CopiesSnoc | app/src/main/java/com/example/a5minutechallenge/screens/fiveminute/ContentContainerDataLoader.java:60-145 | one more container adds its copy with the next free id, unless it is a QUIZ |
| DataLoader.CopyContainers | app/src/main/java/com/example/a5minutechallenge/screens/fiveminute/ContentContainerDataLoader.java:57-147 | the copy loop gives exactly Copies |
| DataLoader.LoadContent | app/src/main/java/com/example/a5minutechallenge/screens/fiveminute/ContentContainerDataLoader.java:40-148 | the lookup loop and the copy loop give exactly Load |
| DataLoader.LoadedIds | app/src/main/java/com/example/a5minutechallenge/screens/fiveminute/ContentContainerDataLoader.java:57-147 | the loaded containers carry ids start, start + 1, ... in order, so no two share an id |
| DataLoader.CopyKeepsPayload | app/src/main/java/com/example/a5minutechallenge/screens/fiveminute/ContentContainerDataLoader.java:60-145 | a copy keeps the kind and lesson content of its source and resets only the learner state; a sorting task starts in the correct order; a RECAP keeps the very container it wraps |
| DataLoader.CopiesIdempotent | app/src/main/java/com/example/a5minutechallenge/screens/fiveminute/ContentContainerDataLoader.java:57-147 | copying a loaded lesson again changes nothing but the ids |
| DataLoader.FreshStateIdempotent | app/src/main/java/com/example/a5minutechallenge/screens/fiveminute/ContentContainerDataLoader.java:60-145 | resetting the learner state twice is the same as once |
| Containers.FreshState | app/src/main/java/com/example/a5minutechallenge/screens/fiveminute/ContentContainerDataLoader.java:60-145 | resetting a container's learner state never changes its kind |
| ListFilters.Filtered | app/src/main/java/com/example/a5minutechallenge/screens/storage/StorageListManager.java:79-93 | a search never shows more than the full list, and a null or empty query shows the full list unchanged |
| ListFilters.FilteredMembers | app/src/main/java/com/example/a5minutechallenge/screens/storage/StorageListManager.java:83-91 | with a non-empty query, an item is shown exactly when it is in the full list and its non-null title contains the query, ignoring case |
| ListFilters.FilterItems | app/src/main/java/com/example/a5minutechallenge/screens/main/SubjectListManager.java:138-152 | the clear-and-refill loop gives exactly Filtered |
| ListFilters.IndexOfItem | app/src/main/java/com/example/a5minutechallenge/screens/main/SubjectListManager.java:120-126 | List.indexOf gives the first position holding the item, and -1 exactly when it is absent |
| ListFilters.LastIndexOfChar | app/src/main/java/com/example/a5minutechallenge/screens/storage/StorageListManager.java:157 | String.lastIndexOf gives the last position of the character, and -1 when it does not occur |
| ListFilters.LastIndexOfCharAt | app/src/main/java/com/example/a5minutechallenge/screens/storage/StorageListManager.java:157 | when the character occurs at d and nowhere after, lastIndexOf is d |
| ListFilters.Extension | app/src/main/java/com/example/a5minutechallenge/screens/storage/StorageListManager.java:156-160 | the extension is non-empty exactly when the name has a dot that is neither its first nor its last character; it is then the lower-cased text after the last such dot, which contains no dot |
| ListFilters.StorageMimeType | app/src/main/java/com/example/a5minutechallenge/screens/storage/StorageListManager.java:151-195 | a null file name opens as any type ("*/*") |
| ListFilters.UpperCaseExtension | app/src/main/java/com/example/a5minutechallenge/screens/storage/StorageListManager.java:156-165 | "Report.PDF" opens as "application/pdf": the extension is compared in lower case |
| ListFilters.HiddenFileName | app/src/main/java/com/example/a5minutechallenge/screens/storage/StorageListManager.java:156-160 | ".pdf" opens as "*/*": a leading dot does not start an extension |
| ListFilters.StorageListManager.constructor | app/src/main/java/com/example/a5minutechallenge/screens/storage/StorageListManager.java:37-42 | the manager holds the activity's list itself as all items, and the shown list starts as a copy of it |
| ListFilters.StorageListManager.Filter | app/src/main/java/com/example/a5minutechallenge/screens/storage/StorageListManager.java:79-93 | the shown items become Filtered of all items, which stay as they were |
| ListFilters.StorageListManager.ResetFilter | app/src/main/java/com/example/a5minutechallenge/screens/storage/StorageListManager.java:98-102 | the shown items become all items again |
| ListFilters.StorageListManager.NotifyItemsChanged | app/src/main/java/com/example/a5minutechallenge/screens/storage/StorageListManager.java:108-113 | the shown items become the shared list as it stands after the activity's additions and removals, which it does not change |
| ListFilters.StorageListManager.ItemAdded | app/src/main/java/com/example/a5minutechallenge/datawrapper/subject/Subject.java:232-234 | adding a storage item through the subject appends it to the shared list and leaves the shown list as it was until the next sync |
| ListFilters.StorageListManager.ItemRemoved | app/src/main/java/com/example/a5minutechallenge/screens/storage/StorageActivity.java:241 | removing by position through the activity's reference drops exactly that item from the shared list, the rest in order, and leaves the shown list as it was |
| ListFilters.OpenStorage | app/src/main/java/com/example/a5minutechallenge/screens/storage/StorageActivity.java:59-69 | on opening, the found files are appended to the shared list and shown after the items it held, and every shown item reports a real position on a long click |
| ListFilters.StorageListManager.LongClickPosition | app/src/main/java/com/example/a5minutechallenge/screens/storage/StorageListManager.java:61-67 | a long click reports the shown item's first position in the full list, and -1 when the item is no longer there |
| ListFilters.SubjectListManager.constructor | app/src/main/java/com/example/a5minutechallenge/screens/main/SubjectListManager.java:41-46 | the shown list starts as a copy of all subjects |
| ListFilters.SubjectListManager.Filter | app/src/main/java/com/example/a5minutechallenge/screens/main/SubjectListManager.java:138-152 | the shown subjects become Filtered of all subjects, and the full list is unchanged |
| ListFilters.SubjectListManager.ResetFilter | app/src/main/java/com/example/a5minutechallenge/screens/main/SubjectListManager.java:157-161 | the shown subjects become all subjects again, and the full list is unchanged |
| ListFilters.SubjectListManager.SubjectAdded | app/src/main/java/com/example/a5minutechallenge/screens/main/MainActivity.java:116 | adding a subject through the activity appends it to the shared full list and leaves the shown list as it was |
| ListFilters.SubjectListManager.SubjectRemoved | app/src/main/java/com/example/a5minutechallenge/screens/main/MainActivity.java:171 | removing by position through the activity drops exactly that subject from the shared full list, the others keeping their order, and leaves the shown list as it was |
| ListFilters.SubjectListManager.LongClickPosition | app/src/main/java/com/example/a5minutechallenge/screens/main/SubjectListManager.java:120-126 | a long click reports the shown subject's position in the full list, or -1 when it is not there |
| ListFilters.ShownSubjectsAreListed | app/src/main/java/com/example/a5minutechallenge/screens/main/SubjectListManager.java:120-152 | every subject a search shows is in the full list, so its long click reports a real position |
| ListFilters.TopicListAdapter.constructor | app/src/main/java/com/example/a5minutechallenge/screens/topic/TopicListAdapter.java:29-32 | the master list and the shown list both start as the given topics |
| ListFilters.TopicListAdapter.Filter | app/src/main/java/com/example/a5minutechallenge/screens/topic/TopicListAdapter.java:128-142 | the shown topics become Filtered of the master list, which is not changed |
| ListFilters.TopicListAdapter.ResetFilter | app/src/main/java/com/example/a5minutechallenge/screens/topic/TopicListAdapter.java:147-151 | the shown topics become the master list, which is not changed |
| ListFilters.TopicListAdapter.UpdateTopics | app/src/main/java/com/example/a5minutechallenge/screens/topic/TopicListAdapter.java:153-161 | both lists become the new topics, or empty when null is passed |
| ListFilters.Status | app/src/main/java/com/example/a5minutechallenge/screens/topic/TopicListAdapter.java:52-65 | ✓ for a completed topic, else ◐ when it has attempts, else ○ |
| ListFilters.DotRow | app/src/main/java/com/example/a5minutechallenge/screens/topic/TopicListAdapter.java:80-122 | min(n, 10) dots, dot i marked exactly when challenge i is completed, and an ellipsis exactly when there are more than 10 challenges |
| Toon.Common | app/src/main/java/com/example/a5minutechallenge/service/GeminiContentProcessor.java:1020-1029 | an expanded container has its type, instructions exactly when "in" was given (copied from it), explanationText exactly when "e" was given, and no wrapped container yet |
| Toon.TypeFields | app/src/main/java/com/example/a5minutechallenge/service/GeminiContentProcessor.java:1031-1084 | the type's own long keys never overwrite type, instructions, explanationText or wrappedContainer |
| Toon.ExpandContainer | app/src/main/java/com/example/a5minutechallenge/service/GeminiContentProcessor.java:1007-1086 | an empty or missing "ty" gives null; an exception needs a non-string "in" or a RECAP with "wc"; any other container with a string or no "in" expands, carrying its type and, for a RECAP only, an expanded wrapped container |
| Toon.ExpandAll | app/src/main/java/com/example/a5minutechallenge/service/GeminiContentProcessor.java:985-1003 | at most one container per element, each an object with a non-empty string type |
| Toon.ExpandChallenge | app/src/main/java/com/example/a5minutechallenge/service/GeminiContentProcessor.java:972-1005 | the call throws exactly when a present "d" is not a string or a present "cn" is not an array; the title defaults to "Untitled Challenge"; description and containers are present exactly when "d" and "cn" are |
| Toon.ExpandChallengeObject | app/src/main/java/com/example/a5minutechallenge/service/GeminiContentProcessor.java:972-1005 | the loop with its try/catch gives exactly ExpandChallenge |
| Toon.ExpandAllAppend | app/src/main/java/com/example/a5minutechallenge/service/GeminiContentProcessor.java:988-1001 | the kept containers keep their order: expanding two runs is expanding each |
| Toon.ExpandAllKeepsEvery | app/src/main/java/com/example/a5minutechallenge/service/GeminiContentProcessor.java:988-1001 | when every element is an object that expands, every one is kept, in place |
| Toon.UntypedSkipped | app/src/main/java/com/example/a5minutechallenge/service/GeminiContentProcessor.java:990-997 | an element that is not an object, or has no type, is dropped and the rest keep their order |
| Toon.ValidatedExpands | app/src/main/java/com/example/a5minutechallenge/service/GeminiContentProcessor.java:858-1005 | an answer that passes validation, with a string or no "d", expands without throwing into at most one container per element of "cn" |
| Toon.ExpandedChallengeParses | app/src/main/java/com/example/a5minutechallenge/service/GeminiContentProcessor.java:972-1005 | parseChallenge reads from the expanded challenge its title, its description ("" when absent), and a container list exactly when "cn" was given; it fails only when a container's NumberFormatException leaves the container loop |
| Toon.ExpandedTitleBuilds | app/src/main/java/com/example/a5minutechallenge/service/GeminiContentProcessor.java:1032-1034 | a TITLE expands into what the factory builds as a title with the text of "t" ("" when absent) |
| Toon.ExpandedTextBuilds | app/src/main/java/com/example/a5minutechallenge/service/GeminiContentProcessor.java:1035-1037 | a TEXT expands into what the factory builds as a text with the text of "tx" ("" when absent) |
| Toon.ValidatedChoiceBuilds | app/src/main/java/com/example/a5minutechallenge/service/GeminiContentProcessor.java:882-896 | a multiple-choice quiz that passes validation (with string options) builds a quiz with a non-empty question, at least two options, at least one correct index, and every correct index naming an option |
| Toon.ExpandedOf | app/src/main/java/com/example/a5minutechallenge/service/GeminiContentProcessor.java:1020-1071 | a container of a type other than RECAP, with a string or no "in", expands to the common fields and the type's own fields |
| Toon.ValidatedGapsBuild | app/src/main/java/com/example/a5minutechallenge/service/GeminiContentProcessor.java:897-920 | a gap exercise that passes validation builds one whose every correct word is among the word options ignoring case, and whose template carries the markers {1} .. {n} for its n correct words |
| Toon.ValidatedSortingBuilds | app/src/main/java/com/example/a5minutechallenge/service/GeminiContentProcessor.java:921-925 | a sorting task that passes validation and has instructions builds one with at least three items, shown in the correct order |
| Toon.ValidatedErrorSpottingBuilds | app/src/main/java/com/example/a5minutechallenge/service/GeminiContentProcessor.java:926-933 | an error-spotting exercise that passes validation and has instructions builds one whose error index names one of at least three items |
| Toon.ValidatedReverseQuizBuilds | app/src/main/java/com/example/a5minutechallenge/service/GeminiContentProcessor.java:934-943 | a reverse quiz that passes validation builds one with a non-empty answer and a correct index naming one of at least two question options |
| Toon.InstructionsRequired | app/src/main/java/com/example/a5minutechallenge/service/GeminiContentProcessor.java:1023-1026 | validation and expansion treat "in" as optional, but a sorting, error-spotting or wire-connecting container without it makes createFromJson throw, so it is skipped |
| Toon.ExpandedRecapOf | app/src/main/java/com/example/a5minutechallenge/service/GeminiContentProcessor.java:1072-1080 | a RECAP whose "wc" expands keeps that expansion as its wrapped container |
| Toon.ExpandedRecapOfTitle | app/src/main/java/com/example/a5minutechallenge/service/GeminiContentProcessor.java:1072-1080 | a RECAP around a TITLE builds a recap with id n, titled by "rt" ("Recap" when absent), around the title with id n + 1 |
| Toon.RecapOfUntyped | app/src/main/java/com/example/a5minutechallenge/service/GeminiContentProcessor.java:1074-1079 | a RECAP whose "wc" has no type keeps no wrapped container, and the factory builds an empty recap |
| Toon.CheckIndices | app/src/main/java/com/example/a5minutechallenge/service/GeminiContentProcessor.java:891-895 | the index loop accepts exactly when every index is an int in [0, n) |
| Toon.OptionsSet | app/src/main/java/com/example/a5minutechallenge/service/GeminiContentProcessor.java:908-910 | the loop succeeds exactly when every option is a string, and then gives LowerSet |
| Toon.CheckWords | app/src/main/java/com/example/a5minutechallenge/service/GeminiContentProcessor.java:911-914 | the loop accepts exactly when every correct word, lower-cased, is in the option set |
| Toon.CheckMarkers | app/src/main/java/com/example/a5minutechallenge/service/GeminiContentProcessor.java:916-919 | the loop accepts exactly when the template contains {1} .. {n} |
| Toon.CheckMatches | app/src/main/java/com/example/a5minutechallenge/service/GeminiContentProcessor.java:953-959 | the loop accepts exactly when every left index is a key mapping to an int in [0, m) |
| Toon.CheckContainer | app/src/main/java/com/example/a5minutechallenge/service/GeminiContentProcessor.java:870-961 | the per-container body accepts exactly when ContainerPasses holds |
| Toon.ValidateToonChallenge | app/src/main/java/com/example/a5minutechallenge/service/GeminiContentProcessor.java:858-968 | validation accepts exactly when the title is non-empty, "cn" is a non-empty array, and every container passes |
| Toon.ValidToon | app/src/main/java/com/example/a5minutechallenge/service/GeminiContentProcessor.java:859-967 | a valid challenge has a string title and a "cn" array whose every element is an object |
| Toon.ContainerPasses | app/src/main/java/com/example/a5minutechallenge/service/GeminiContentProcessor.java:870-961 | a passing element is an object, and an object whose type has no guideline passes |
| Toon.ChoicePasses | app/src/main/java/com/example/a5minutechallenge/service/GeminiContentProcessor.java:882-896 | a passing quiz has "q", "os" and "ci" |
| Toon.GapsPasses | app/src/main/java/com/example/a5minutechallenge/service/GeminiContentProcessor.java:897-920 | a passing gap exercise has "tt", "cw" and "wo" |
| Toon.SortingPasses | app/src/main/java/com/example/a5minutechallenge/service/GeminiContentProcessor.java:921-925 | a passing sorting task has "co" |
| Toon.ErrorSpottingPasses | app/src/main/java/com/example/a5minutechallenge/service/GeminiContentProcessor.java:926-933 | a passing error-spotting exercise has "is" and "ei" |
| Toon.ReverseQuizPasses | app/src/main/java/com/example/a5minutechallenge/service/GeminiContentProcessor.java:934-943 | a passing reverse quiz has "a", "qo" and "cqi" |
| Toon.WiringPasses | app/src/main/java/com/example/a5minutechallenge/service/GeminiContentProcessor.java:944-960 | a passing wiring exercise has "li", "ri" and "cm" |
| Outlines.FirstArray | app/src/main/java/com/example/a5minutechallenge/service/GeminiContentProcessor.java:363-368 | with none of the keys present the result is the empty array; a non-empty result is the array under one of the keys |
| Outlines.WholeDocuments | app/src/main/java/com/example/a5minutechallenge/service/GeminiContentProcessor.java:388-395 | at most one section per document, and a section is in it exactly when it is the whole-document section of a text document with pages |
| Outlines.SemanticSections | app/src/main/java/com/example/a5minutechallenge/service/GeminiContentProcessor.java:345-398 | parsing fails exactly when the answer's array cannot be read or an element is not an object; otherwise one section per element, or the whole-document fallback when the array is empty |
| Outlines.ReadSectionItems | app/src/main/java/com/example/a5minutechallenge/service/GeminiContentProcessor.java:349-370 | the branch over "[", "sections", "s" and the key loop reads exactly SectionItems |
| Outlines.FallbackSections | app/src/main/java/com/example/a5minutechallenge/service/GeminiContentProcessor.java:388-395 | the fallback loop gives exactly WholeDocuments |
| Outlines.ParseSemanticSections | app/src/main/java/com/example/a5minutechallenge/service/GeminiContentProcessor.java:345-398 | the method with its loops gives exactly SemanticSections |
| Outlines.SectionDefaults | app/src/main/java/com/example/a5minutechallenge/service/GeminiContentProcessor.java:374-382 | a section without keys is titled "Section i+1", covers page 1 to page 1, and names the first document ("" when there is none) |
| Outlines.SectionFields | app/src/main/java/com/example/a5minutechallenge/service/GeminiContentProcessor.java:374-382 | a string "s" is the title, otherwise a string "title"; a missing file name falls back to the first document's; without an end page the section ends on its start page |
| Outlines.SectionOf | app/src/main/java/com/example/a5minutechallenge/service/GeminiContentProcessor.java:374-382 | the section at index i takes its title from "s", else "title", else "Section i+1"; its file from "f", else "file", else "", an empty name giving way to the first document's name when there is one; its start page from "sp", else "startPage", else 1; its end page from "ep", else "endPage", else its start page |
| Outlines.EndDefaultsToStart | app/src/main/java/com/example/a5minutechallenge/service/GeminiContentProcessor.java:376-377 | without "ep" and "endPage" a section ends on its start page |
| Outlines.SingleSectionObject | app/src/main/java/com/example/a5minutechallenge/service/GeminiContentProcessor.java:356-359 | an object with "s" and no "sections" is the one section, titled by "s" |
| Outlines.DataBeforeItems | app/src/main/java/com/example/a5minutechallenge/service/GeminiContentProcessor.java:363-368 | "data" is read before "items" when both are present |
| Outlines.UnrecognisedAnswerFallsBack | app/src/main/java/com/example/a5minutechallenge/service/GeminiContentProcessor.java:360-395 | an object with none of the recognised keys, or an empty array, gives the whole-document fallback |
| Outlines.FallbackCoversDocuments | app/src/main/java/com/example/a5minutechallenge/service/GeminiContentProcessor.java:388-395 | every text document with pages gets its section, and every fallback section starts at page 1 under the title "Full Document: " and its file name |
| Outlines.RefsOf | app/src/main/java/com/example/a5minutechallenge/service/GeminiContentProcessor.java:517-526 | no "refs" gives no references; a "refs" that is not an array of objects throws; otherwise one reference per element |
| Outlines.OutlineOf | app/src/main/java/com/example/a5minutechallenge/service/GeminiContentProcessor.java:512-527 | a topic element parses exactly when it is an object with readable references, and carries those references |
| Outlines.TopicOutlines | app/src/main/java/com/example/a5minutechallenge/service/GeminiContentProcessor.java:496-530 | parsing fails exactly when the topics array cannot be read or an element does not parse; otherwise one outline per element |
| Outlines.ParseTopicOutlines | app/src/main/java/com/example/a5minutechallenge/service/GeminiContentProcessor.java:496-530 | the method with its two loops gives exactly TopicOutlines |
| Outlines.RefDefaults | app/src/main/java/com/example/a5minutechallenge/service/GeminiContentProcessor.java:521-523 | a reference without keys names no file and covers page 1 only |
| Outlines.RefOf | app/src/main/java/com/example/a5minutechallenge/service/GeminiContentProcessor.java:521-523 | a string "f" is the file name; without a start page it is 1; without an end page it is the start page |
| Outlines.SingleTopicObject | app/src/main/java/com/example/a5minutechallenge/service/GeminiContentProcessor.java:508-509 | an object with neither "topics" nor "ts" is the one topic, titled by "t" |
| Outlines.ChallengeOutlines | app/src/main/java/com/example/a5minutechallenge/service/GeminiContentProcessor.java:749-768 | parsing fails exactly when the array cannot be read or an element is not an object; otherwise one outline per element |
| Outlines.ParseChallengeOutlines | app/src/main/java/com/example/a5minutechallenge/service/GeminiContentProcessor.java:749-768 | the method with its loop gives exactly ChallengeOutlines |
| Outlines.NoChallengesArray | app/src/main/java/com/example/a5minutechallenge/service/GeminiContentProcessor.java:756-758 | an object whose "challenges" is missing or not an array has no challenges and does not throw |
| Outlines.ChallengeDefaults | app/src/main/java/com/example/a5minutechallenge/service/GeminiContentProcessor.java:763-765 | an element without keys is "Challenge i+1" with an empty description |
| Outlines.ChallengeOutlineOf | app/src/main/java/com/example/a5minutechallenge/service/GeminiContentProcessor.java:763-766 | a string "t" is the title, otherwise "Challenge i+1"; without a string "d" the description is empty |
| Prompts.GatherPages | app/src/main/java/com/example/a5minutechallenge/service/GeminiContentProcessor.java:689-698 | the recorded keys grow by exactly the selected pages' keys; the pages appended are the in-range pages not recorded before, each once; nothing is appended exactly when every selected page was already recorded |
| Prompts.PagesKeysSnoc | app/src/main/java/com/example/a5minutechallenge/service/GeminiContentProcessor.java:689-698 | one more page adds its key exactly when it is in range |
| Prompts.DocStep | app/src/main/java/com/example/a5minutechallenge/service/GeminiContentProcessor.java:676-703 | one document adds exactly its selected keys to the record, only appends parts, keeps every gathered key recorded and unique, and under the intended rule delivers every page it gathers |
| Prompts.DocsStep | app/src/main/java/com/example/a5minutechallenge/service/GeminiContentProcessor.java:675-704 | the loop over the documents adds exactly the keys the reference selects, with the same guarantees |
| Prompts.RefsStep | app/src/main/java/com/example/a5minutechallenge/service/GeminiContentProcessor.java:674-705 | the loop over the references adds exactly the keys the topic selects, with the same guarantees |
| Prompts.DocsKeysSnoc | app/src/main/java/com/example/a5minutechallenge/service/GeminiContentProcessor.java:675-704 | the keys of one more document are added to those of the others |
| Prompts.SelectedKeysSnoc | app/src/main/java/com/example/a5minutechallenge/service/GeminiContentProcessor.java:674-705 | the keys of one more reference are added to those of the others |
| Prompts.AllContent | app/src/main/java/com/example/a5minutechallenge/service/GeminiContentProcessor.java:709-721 | the fallback gives one whole-document part per document, in document order |
| Prompts.RelevantContent | app/src/main/java/com/example/a5minutechallenge/service/GeminiContentProcessor.java:671-723 | the prompt parts already there are kept, the record holds exactly the selected keys, and under the intended rule every gathered page reaches the prompt |
| Prompts.SomethingSelected | app/src/main/java/com/example/a5minutechallenge/service/GeminiContentProcessor.java:674-705 | something is recorded exactly when a reference selects an image or an in-range page of a text document |
| Prompts.FallbackExactlyWhenNothingSelected | app/src/main/java/com/example/a5minutechallenge/service/GeminiContentProcessor.java:707-722 | when something is selected the fallback is not taken; under the intended rule, with nothing selected, the prompt gets every document whole |
| Prompts.NoPartsWithoutKeys | app/src/main/java/com/example/a5minutechallenge/service/GeminiContentProcessor.java:674-705 | under the intended rule, references that record nothing new append no part |
| Prompts.NoDocPartsWithoutKeys | app/src/main/java/com/example/a5minutechallenge/service/GeminiContentProcessor.java:675-704 | under the intended rule, documents that record nothing new append no part |
| Prompts.ShortPageGathered | app/src/main/java/com/example/a5minutechallenge/service/GeminiContentProcessor.java:686-698 | a one-page reference to the page "hi" records that page and builds its text under the document header |
| Prompts.ShortPageText | app/src/main/java/com/example/a5minutechallenge/service/GeminiContentProcessor.java:686-700 | that text is 34 characters long, below the 51 the source demands |
| Prompts.ShortPageIsLost | app/src/main/java/com/example/a5minutechallenge/service/GeminiContentProcessor.java:700-702 | as written, that page is recorded, so the fallback is skipped, but its part is dropped: the prompt receives no content |
| Prompts.ShortPageDelivered | app/src/main/java/com/example/a5minutechallenge/service/GeminiContentProcessor.java:700-702 | under the intended rule the same page goes into the prompt as its one part |
| Prompts.GatherText | app/src/main/java/com/example/a5minutechallenge/service/GeminiContentProcessor.java:686-698 | the page loop gives exactly GatherPages' text and keys, and counts the new pages |
| Prompts.AddDocument | app/src/main/java/com/example/a5minutechallenge/service/GeminiContentProcessor.java:676-703 | one document's step gives exactly DocStep's parts and keys |
| Prompts.WholeText | app/src/main/java/com/example/a5minutechallenge/service/GeminiContentProcessor.java:713-718 | the text of a whole document is its header followed by every page under its page header |
| Prompts.AppendAllContent | app/src/main/java/com/example/a5minutechallenge/service/GeminiContentProcessor.java:708-722 | the fallback loop appends exactly AllContent |
| Prompts.AddReference | app/src/main/java/com/example/a5minutechallenge/service/GeminiContentProcessor.java:675-704 | the loop over the documents gives exactly DocsStep's parts and keys |
| Prompts.RefsStepNext | app/src/main/java/com/example/a5minutechallenge/service/GeminiContentProcessor.java:674-705 | the reference loop after i+1 references is one more document loop after i |
| Prompts.AddRelevantContentToPrompt | app/src/main/java/com/example/a5minutechallenge/service/GeminiContentProcessor.java:671-723 | the method gives exactly RelevantContent's parts |
| Prompts.DocsStepNext | app/src/main/java/com/example/a5minutechallenge/service/GeminiContentProcessor.java:675-704 | the document loop after j+1 documents is one more document step after j |
| ContentProcessor.Retried | app/src/main/java/com/example/a5minutechallenge/service/GeminiContentProcessor.java:426-445 | a stage calls at least once and at most three times, every call before the last failed, its result is the last call's, and it gives up only after the third call |
| ContentProcessor.RetryFindsFirstSuccess | app/src/main/java/com/example/a5minutechallenge/service/GeminiContentProcessor.java:426-445 | a stage fails exactly when all three calls fail; otherwise it returns the first success, after exactly the calls that preceded it |
| ContentProcessor.Retry | app/src/main/java/com/example/a5minutechallenge/service/GeminiContentProcessor.java:426-445 | the while (true) loop gives exactly Retried's result and number of calls |
| ContentProcessor.StagesReadTheirAnswers | app/src/main/java/com/example/a5minutechallenge/service/GeminiContentProcessor.java:286-305 | whatever stage 0, stage 1 or stage 2a returns was parsed from one of its first three answers |
| ContentProcessor.AnalyzeDocumentStructure | app/src/main/java/com/example/a5minutechallenge/service/GeminiContentProcessor.java:261-305 | stage 0 makes one to three calls and fails exactly when none of its first three answers parses as sections |
| ContentProcessor.ExtractTopics | app/src/main/java/com/example/a5minutechallenge/service/GeminiContentProcessor.java:402-445 | stage 1 makes one to three calls and fails exactly when none of its first three answers parses as topic outlines |
| ContentProcessor.ExtractChallengeOutlines | app/src/main/java/com/example/a5minutechallenge/service/GeminiContentProcessor.java:600-628 | stage 2a makes one to three calls and fails exactly when none of its first three answers parses as challenge outlines |
| ContentProcessor.ChallengeAttempt | app/src/main/java/com/example/a5minutechallenge/service/GeminiContentProcessor.java:640-651 | an attempt succeeds only on an object that passes validation, and then returns its expansion |
| ContentProcessor.GenerateChallengeContent | app/src/main/java/com/example/a5minutechallenge/service/GeminiContentProcessor.java:630-669 | the retry loop gives exactly the retried attempts, returning null after three failures |
| ContentProcessor.GeneratedChallengesAreValid | app/src/main/java/com/example/a5minutechallenge/service/GeminiContentProcessor.java:640-657 | a generated challenge is the expansion of an answer that passed validation |
| ContentProcessor.DelayClosedForm | app/src/main/java/com/example/a5minutechallenge/service/GeminiContentProcessor.java:1206-1245 | the k-th wait is 2000 * 2^k milliseconds capped at 30000; from the fifth on it is 30000, and every wait lies between 2000 and 30000 |
| ContentProcessor.DelayMonotone | app/src/main/java/com/example/a5minutechallenge/service/GeminiContentProcessor.java:1245 | a later wait is never shorter |
| ContentProcessor.RateLimitWaits | app/src/main/java/com/example/a5minutechallenge/service/GeminiContentProcessor.java:1227-1246 | each rate-limited answer within thirty minutes of the first call is waited out with the current delay; the first one past them ends the call, and only that one does |
| ContentProcessor.NextDelay | app/src/main/java/com/example/a5minutechallenge/service/GeminiContentProcessor.java:1245 | the next wait is never above thirty seconds, never shorter than a wait within the cap, and positive after a positive one |
| ContentProcessor.Delay | app/src/main/java/com/example/a5minutechallenge/service/GeminiContentProcessor.java:1206-1245 | every wait lies between two and thirty seconds |
| ContentProcessor.ShareWithin | app/src/main/java/com/example/a5minutechallenge/service/GeminiContentProcessor.java:565 | the completed share of a topic's range lies between nothing and the whole range |
| ContentProcessor.TopicBase | app/src/main/java/com/example/a5minutechallenge/service/GeminiContentProcessor.java:141 | a topic index within the topic count starts between 40 and 95 |
| ContentProcessor.TopicRange | app/src/main/java/com/example/a5minutechallenge/service/GeminiContentProcessor.java:142 | a topic's share lies between 0 and 55, and all topics' shares together fit in 55 |
| ContentProcessor.ChallengeProgress | app/src/main/java/com/example/a5minutechallenge/service/GeminiContentProcessor.java:565 | with completed challenges within the total, progress lies within the topic's share, starting at its base |
| ContentProcessor.ProgressWithinTopicShare | app/src/main/java/com/example/a5minutechallenge/service/GeminiContentProcessor.java:131-142 | every progress value a topic reports lies within its own share, shares follow each other in topic order, and all lie in [40, 95], after 30 and before 98 |
| ContentProcessor.LowerIdempotent | app/src/main/java/com/example/a5minutechallenge/service/GeminiContentProcessor.java:1161 | lower-casing twice is lower-casing once |
| ContentProcessor.MimeType | app/src/main/java/com/example/a5minutechallenge/service/GeminiContentProcessor.java:1160-1171 | the type is one of the five the source names; a .pdf name is application/pdf; text/plain exactly when no known ending matches, ignoring case |
| ContentProcessor.IsBinaryMimeType | app/src/main/java/com/example/a5minutechallenge/service/GeminiContentProcessor.java:1173-1175 | a type is binary exactly when it is "image/" followed by anything |
| ContentProcessor.BinaryExactlyForImages | app/src/main/java/com/example/a5minutechallenge/service/GeminiContentProcessor.java:1160-1175 | a file is sent as an inline image exactly when its lower-cased name ends in .jpg, .jpeg, .png or .webp and not .pdf; the detection ignores the name's case |
| ContentProcessor.Present | app/src/main/java/com/example/a5minutechallenge/service/GeminiContentProcessor.java:155-162 | the kept results are exactly the non-null ones, none invented, all kept when none failed; with PresentOne and PresentAppend, they are kept in the order gathered and with their repeats |
| ContentProcessor.PresentOne | app/src/main/java/com/example/a5minutechallenge/service/GeminiContentProcessor.java:157-162 | one gathered result is kept, as that object, exactly when it is not null |
| ContentProcessor.PresentAppend | app/src/main/java/com/example/a5minutechallenge/service/GeminiContentProcessor.java:157-162 | gathering two runs of results in turn keeps the first run's objects, in order, followed by the second's, so order and repeats are kept |
| ContentProcessor.TopicContent | app/src/main/java/com/example/a5minutechallenge/service/GeminiContentProcessor.java:546-597 | a topic's result has exactly a title and a challenges array, empty when there were no challenge outlines |
| ContentProcessor.FinalResult | app/src/main/java/com/example/a5minutechallenge/service/GeminiContentProcessor.java:155-174 | the final result has exactly a topics array, no longer than the topics attempted |

## Left out

- HTTP calls to the Gemini API, thread pools, `Thread.sleep`, the atomic counters and token counting: answers are inputs, and the parallel completion order of topics and challenges is not modelled (results are gathered in submission order, as the futures are read).
- The prompt texts built for each stage, and stripping code fences from answers: they are constant text or regular expressions.
- Reading documents: PDF extraction, Base64 encoding and file reading are foreign libraries. A document is given as its pages, or as an inline-data part for an image.
- Parsing JSON text: an answer is the JSON value it parses to. The value coercions of org.json's `get*` and `opt*` accessors are not modelled (a number read as a string, a numeric string read as a number, the strings "true"/"false" read as booleans); values are taken as well typed, so the model rejects some answers the app accepts, such as `"ci": ["0"]`, which `getInt` reads as 0 in GeminiContentProcessor.java while `Toon.CheckIndices` turns it down.
- Floating point: `TimerManager.getPercentage`, `ScoreManager.getAccuracy` and the warning-overlay alpha are not modelled.
- ScoreManager.ScoreManager.AddAccuracyBonus: states only the exact endpoints (no answers gives 0, all correct gives 100 + 200, otherwise below 100), because the bonus is truncated from a floating-point product.
- Java's 32-bit `int` arithmetic: scores, ids and counters are unbounded integers; wrap-around is not modelled. `Integer.parseInt` is modelled with its 32-bit range, and its NumberFormatException is kept apart from JSONException (the `Aborted` outcome), since only the latter is caught per container.
- Case folding is ASCII only (A-Z and a-z); Unicode case mappings of `toLowerCase`, `toUpperCase` and `equalsIgnoreCase` are not modelled.
- `String.replaceFirst` is a regular-expression replacement: filled words are taken to contain no `$` or `\`, and file names no line break.
- The order in which org.json enumerates an object's keys is a parameter (`KeyOrder`); it matters only when two keys of correctMatches name the same number.
- Aliasing: where the source shares a list between a container and its copy (`ContentContainerDataLoader`, a RECAP's wrapped container), the model copies values. Later mutation of one through the other is not captured. The storage list that `StorageActivity` and `StorageListManager` share is instead the manager's `allItems` field, and the activity's changes to it are the manager's `ItemAdded` and `ItemRemoved`.
- Android UI: views, adapters' rendering, animations, toasts, intents and gestures. In `FiveMinuteActivity`, animation callbacks run at once. In `TimerManager`, the Handler loop is replaced by an explicit tick with the current time, and listener callbacks are left out.
- `ChallengeManager.getInstance` and its synchronisation: the manager is a plain object.
- Filesystem I/O of `Subject` (saving and loading meta and content files, deleting, renaming, listing other files) and the directory listing of `getAllSubjectIDs`: listings and file contents are inputs. A generated content file is given with its topics already parsed, so a file that fails to parse is not modelled.
- `Subject.reloadTopics`, and `getTopics` with a null context.
- The `Topic` methods `Subject` aggregates over (`isCompleted`, `getTotalChallenges`, `getCompletedChallenges`, `getTotalAttempts`, `getBestScore`) are not in `Topic` as it stands: they are parameters, and the results hold for any definition of them.
- Lesson.Lesson.CheckButtonClicked: requires a non-empty lesson. The source loads an empty list without complaint, and a click then throws IndexOutOfBoundsException at `contentContainers.get(currentContainerIndex)` (FiveMinuteActivity.java:268); that crash of the activity is not modelled.
- Text.ParseInt: accepts only the ASCII digits '0' to '9'. `Integer.parseInt` also accepts every character `Character.digit(c, 10)` maps to a digit, such as the fullwidth "１"; a correctMatches key written with such digits parses in the source, while the model aborts the generation.
- ListFilters.StorageListManager.LongClickPosition: a StorageListItem is a value here, so the lookup finds the first EQUAL item. `allItems.indexOf(item)` compares by identity, because StorageListItem does not override `equals`; with two items of the same title and file name, the source reports the clicked item's position and the model the first one's.
- ListFilters.DotRow: a topic whose challenge list is null throws in the source; here a topic always has a (possibly empty) list.
- Prompts: the keys of the de-duplication set are a datatype instead of the strings "<name>:<page>" and "img:<name>"; a file name containing ":" that makes two such strings collide is not modelled.
- Prompts: text length is counted in characters of `seq<char>`, which is what `StringBuilder.length` counts for text without surrogate pairs.
- SortingTask.Swapped: its own contract states only the length; the permutation and the swap of exactly two positions are stated by SwappedPermutes and SwappedTwice and by the SwapItems method.
- SortingTask.Moved: its own contract states only the length; the permutation and the placement are stated by MovedPermutes and MovedPlaces.
- Subjects.Percentage: its own contract states only the value without challenges; its range and its tie to completion are stated by PercentageBounds.
- Toon.InstructionsRequired records that the validator and the expander treat "in" as optional while the factory requires it for three kinds. The model follows the source, so such a container is dropped, not repaired.
- `ContentContainerAdapter`, `ContentLoader`, the list activities, `DraggableAdapter` and the stale copies of classes directly under the app's root package: UI or sample data with no rules, or code that does not compile against the rest.

## Findings

| source | as written | input that shows it | evidently intended | confidence | as-written member | corrected member |
|---|---|---|---|---|---|---|
| app/src/main/java/com/example/a5minutechallenge/util/fileutil.java:18-20 | leading and trailing dots are removed before the blanks are trimmed, so a dot behind a blank survives | " .x" gives ".x", a hidden file name | strip dots and blanks together from both ends (the comment at line 18), giving "x" | medium, not executed | FileUtil.LeadingDotSurvives | FileUtil.SanitizeFileNameIntended |
| app/src/main/java/com/example/a5minutechallenge/service/GeminiContentProcessor.java:686-702 | a page's key is recorded whatever the length of its text part, but the part is appended only when it is longer than 50 characters; a recorded key also suppresses the whole-content fallback | a topic referring to page 1 of "a.txt" whose text is "hi": the key is recorded, the 34-character part is dropped, and the prompt gets no document content | every gathered page reaches the prompt | medium, not executed | Prompts.ShortPageIsLost | Prompts.ShortPageDelivered |
