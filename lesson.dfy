/**
 * The lesson pipeline of FiveMinuteActivity: the loaded containers are
 * shown one at a time; a check grades the current container, or the one
 * inside a current RECAP, and a second check moves on. A wrong answer
 * queues a RECAP wrapping a fresh copy of the container at the end of the
 * lesson, with ids drawn from a counter that starts at 10000.
 */
module Lesson {
  import opened Wrappers
  import opened Containers
  import MultipleChoiceQuiz
  import FillInTheGaps
  import ScoreManager
  import TimerManager

  /** The first id handed out to review containers. */
  const FIRST_RECAP_ID := 10000

  /** The number of containers of the six interactive kinds; a RECAP is not one of them. */
  function CountInteractive(cs: seq<Container>): (r: nat)
    ensures r <= |cs|
    ensures (forall k :: 0 <= k < |cs| ==> !IsInteractive(TypeOf(cs[k].content))) ==> r == 0
    ensures (forall k :: 0 <= k < |cs| ==> IsInteractive(TypeOf(cs[k].content))) ==> r == |cs|
    decreases |cs|
  {
    if |cs| == 0 then 0
    else CountInteractive(cs[..|cs| - 1]) + (if IsInteractive(TypeOf(cs[|cs| - 1].content)) then 1 else 0)
  }

  /** Queuing RECAP containers leaves the count, and so the progress scale, as it was. */
  lemma {:induction false} CountIgnoresRecaps(cs: seq<Container>, rs: seq<Container>)
    requires forall k :: 0 <= k < |rs| ==> TypeOf(rs[k].content) == RECAP
    ensures CountInteractive(cs + rs) == CountInteractive(cs)
    decreases |rs|
  {
    if |rs| > 0 {
      var init := rs[..|rs| - 1];
      assert (cs + rs)[..|cs + rs| - 1] == cs + init;
      assert (cs + rs)[|cs + rs| - 1] == rs[|rs| - 1];
      assert !IsInteractive(TypeOf(rs[|rs| - 1].content));
      CountIgnoresRecaps(cs, init);
    } else {
      assert cs + rs == cs;
    }
  }

  /** The container a check looks at: the one a RECAP wraps, if it wraps one, else the container itself. */
  function ToCheck(c: Container): (r: Container)
    ensures c.content.RecapContent? && c.content.wrappedContainer.Some? ==> r == c.content.wrappedContainer.value
    ensures !(c.content.RecapContent? && c.content.wrappedContainer.Some?) ==> r == c
  {
    if c.content.RecapContent? && c.content.wrappedContainer.Some? then c.content.wrappedContainer.value else c
  }

  /** A check grades before it moves on: the container to check is of an interactive kind. */
  predicate ExpectsResponse(c: Container)
  {
    IsInteractive(TypeOf(ToCheck(c).content))
  }

  /**
   * checkAnswer's verdict on the learner state of a container: each kind's
   * own test, except that error spotting and wire connecting always pass.
   */
  function Grade(c: Content): (r: bool)
    ensures !IsInteractive(TypeOf(c)) ==> !r
    ensures c.ErrorSpottingContent? || c.WireConnectingContent? ==> r
  {
    match c
    case MultipleChoiceContent(q) => MultipleChoiceQuiz.Graded(q.userSelectedIndices, q.correctAnswerIndices)
    case ReverseQuizContent(q) => q.userSelectedIndex == q.correctQuestionIndex
    case FillInTheGapsContent(g) => FillInTheGaps.WordsMatch(g.correctWords, g.userFilledWords)
    case SortingTaskContent(s) => s.currentOrder == s.correctOrder
    case ErrorSpottingContent(_) => true
    case WireConnectingContent(_) => true
    case _ => false
  }

  /**
   * How a fresh copy is graded before the learner touches it: a choice
   * quiz only when it has no correct option, a reverse quiz only when its
   * correct index is -1, a gap text only when it has no gap, and a sorting
   * task always, since it starts in the correct order.
   */
  lemma {:induction false} GradeOfFreshState(c: Content)
    ensures c.MultipleChoiceContent? ==> (Grade(FreshState(c)) <==> c.quiz.correctAnswerIndices == [])
    ensures c.ReverseQuizContent? ==> (Grade(FreshState(c)) <==> c.reverse.correctQuestionIndex == -1)
    ensures c.FillInTheGapsContent? ==> (Grade(FreshState(c)) <==> c.gaps.correctWords == [])
    ensures c.SortingTaskContent? ==> Grade(FreshState(c))
  {
  }

  /** createFreshContainerCopy: an interactive container with a new id and fresh learner state; null for the others. */
  function FreshCopy(c: Container, id: int): (r: Option<Container>)
    ensures r.Some? <==> IsInteractive(TypeOf(c.content))
    ensures r.Some? ==> r.value.id == id && r.value.content == FreshState(c.content)
  {
    if IsInteractive(TypeOf(c.content)) then Some(Container(id, FreshState(c.content))) else None
  }

  /**
   * A queued review: a RECAP whose wrapped container is interactive,
   * hence not itself a RECAP, and carries the id after the recap's own.
   */
  predicate IsReview(c: Container)
  {
    c.content.RecapContent? && c.content.wrappedContainer.Some? &&
    IsInteractive(TypeOf(c.content.wrappedContainer.value.content)) &&
    c.content.wrappedContainer.value.id == c.id + 1
  }

  /**
   * addCurrentContainerToRecap, for a current container `c` and the id
   * counter: what is appended to the lesson and the new counter. Nothing
   * is queued for error spotting, wire connecting or an empty RECAP; the
   * recap takes an id even when no copy can be made.
   */
  function Review(c: Container, counter: int, title: string): (r: (seq<Container>, int))
    ensures |r.0| <= 1 && r.1 >= counter
    ensures (TypeOf(c.content) in {WIRE_CONNECTING, ERROR_SPOTTING} ||
             (c.content.RecapContent? && c.content.wrappedContainer.None?)) ==> r == ([], counter)
    ensures |r.0| == 1 <==> IsInteractive(TypeOf(ToCheck(c).content)) && TypeOf(c.content) !in {WIRE_CONNECTING, ERROR_SPOTTING}
    ensures |r.0| == 1 ==>
      IsReview(r.0[0]) && r.0[0].id == counter && r.1 == counter + 2 &&
      r.0[0].content.recapTitle == Some(title) &&
      r.0[0].content.wrappedContainer.value.content == FreshState(ToCheck(c).content)
  {
    if TypeOf(c.content) in {WIRE_CONNECTING, ERROR_SPOTTING} then ([], counter)
    else if c.content.RecapContent? && c.content.wrappedContainer.None? then ([], counter)
    else
      var copy := FreshCopy(ToCheck(c), counter + 1);
      if copy.None? then ([], counter + 1)
      else ([Container(counter, RecapContent(Some(title), copy))], counter + 2)
  }

  /**
   * The queued reviews in `rs`: every one a review with an id of at least
   * 10000, each pair of ids below the next review's, all below `counter`.
   */
  predicate ReviewQueue(rs: seq<Container>, counter: int)
  {
    (forall i :: 0 <= i < |rs| ==> IsReview(rs[i]) && FIRST_RECAP_ID <= rs[i].id && rs[i].id + 1 < counter) &&
    (forall i, j :: 0 <= i < j < |rs| ==> rs[i].id + 1 < rs[j].id)
  }

  /** Every id in a review queue, recaps and copies alike, is used once. */
  lemma {:induction false} ReviewIdsDistinct(rs: seq<Container>, counter: int, i: int, j: int)
    requires ReviewQueue(rs, counter) && 0 <= i < j < |rs|
    ensures var ids := {rs[i].id, rs[i].content.wrappedContainer.value.id};
      rs[j].id !in ids && rs[j].content.wrappedContainer.value.id !in ids && rs[i].id != rs[i].content.wrappedContainer.value.id
  {
    assert IsReview(rs[i]) && IsReview(rs[j]);
  }

  /** Appending a review keeps the queue well formed. */
  lemma {:induction false} ReviewQueueGrows(rs: seq<Container>, c: Container, counter: int, title: string)
    requires ReviewQueue(rs, counter) && counter >= FIRST_RECAP_ID
    ensures var (added, next) := Review(c, counter, title); ReviewQueue(rs + added, next)
  {
    var (added, next) := Review(c, counter, title);
    if |added| == 1 {
      var qs := rs + added;
      assert qs[|rs|] == added[0];
      forall i | 0 <= i < |qs|
        ensures IsReview(qs[i]) && FIRST_RECAP_ID <= qs[i].id && qs[i].id + 1 < next
      {
        if i < |rs| {
          assert qs[i] == rs[i];
        }
      }
      forall i, j | 0 <= i < j < |qs|
        ensures qs[i].id + 1 < qs[j].id
      {
        if j < |rs| {
          assert qs[i] == rs[i] && qs[j] == rs[j];
        } else {
          assert qs[i] == rs[i];
        }
      }
    }
  }

  /** What appending the review of `c` does to a lesson whose queue starts at `n`. */
  lemma {:induction false} AppendReview(cs: seq<Container>, n: nat, counter: int, c: Container, title: string)
    requires n <= |cs| && ReviewQueue(cs[n..], counter) && counter >= FIRST_RECAP_ID
    ensures var (added, next) := Review(c, counter, title);
      var qs := cs + added;
      ReviewQueue(qs[n..], next) && qs[..n] == cs[..n] && qs[..|cs|] == cs && qs[|cs|..] == added &&
      CountInteractive(qs) == CountInteractive(cs)
  {
    var (added, next) := Review(c, counter, title);
    ReviewQueueGrows(cs[n..], c, counter, title);
    assert cs[n..] + added == (cs + added)[n..];
    assert forall k :: 0 <= k < |added| ==> TypeOf(added[k].content) == RECAP;
    CountIgnoresRecaps(cs, added);
  }

  /** What addAccuracyBonus promises of the bonus, given the answer counts before it. */
  predicate AccuracyBonusOf(bonus: int, correct: int, total: int)
  {
    (total == 0 ==> bonus == 0) &&
    (total > 0 && correct == total ==> bonus == 100 + ScoreManager.PERFECT_BONUS) &&
    (correct < total ==> 0 <= bonus < 100)
  }

  class Lesson {
    var containers: seq<Container>
    var currentIndex: int
    var answerChecked: bool
    var totalInteractive: int
    var correctCount: int
    var lastAnswerWasCorrect: bool
    var recapIdCounter: int
    /** The value the progress bar is animated to. */
    var progressTarget: int
    /** The lesson has run past its last container and shows its result. */
    var finished: bool
    /** The accuracy bonus handed to the result screen when the lesson ends. */
    var accuracyBonus: int
    /** The localised "Recap: Review time" title given to queued reviews. */
    const recapTitle: string
    const score: ScoreManager.ScoreManager
    const timer: TimerManager.TimerManager
    /** How many containers were loaded; everything after them is a queued review. */
    ghost var loadedCount: nat

    ghost predicate Valid()
      reads this, score, timer
    {
      score.Valid() && timer.Valid() &&
      0 <= currentIndex && (|containers| > 0 ==> currentIndex < |containers|) &&
      loadedCount <= |containers| &&
      totalInteractive == CountInteractive(containers[..loadedCount]) == CountInteractive(containers) &&
      0 <= correctCount && recapIdCounter >= FIRST_RECAP_ID &&
      ReviewQueue(containers[loadedCount..], recapIdCounter)
    }

    /**
     * onCreate with loadContent: the loaded containers, the first one
     * current, nothing answered, and the interactive ones counted.
     */
    constructor (loaded: seq<Container>, recapTitle: string)
      ensures Valid() && fresh(score) && fresh(timer)
      ensures containers == loaded && loadedCount == |loaded| && totalInteractive == CountInteractive(loaded)
      ensures currentIndex == 0 && !answerChecked && correctCount == 0 && recapIdCounter == FIRST_RECAP_ID && !finished
      ensures score.totalScore == 0 && timer.remainingTimeSeconds == TimerManager.INITIAL_TIME_SECONDS
    {
      containers := loaded;
      currentIndex := 0;
      answerChecked := false;
      correctCount := 0;
      lastAnswerWasCorrect := false;
      recapIdCounter := FIRST_RECAP_ID;
      progressTarget := 0;
      finished := false;
      accuracyBonus := 0;
      this.recapTitle := recapTitle;
      score := new ScoreManager.ScoreManager();
      timer := new TimerManager.TimerManager();
      loadedCount := |loaded|;
      var count := 0;
      var i := 0;
      while i < |loaded|
        invariant 0 <= i <= |loaded|
        invariant count == CountInteractive(loaded[..i])
      {
        assert loaded[..i + 1][..i] == loaded[..i];
        if IsInteractive(TypeOf(loaded[i].content)) {
          count := count + 1;
        }
        i := i + 1;
      }
      assert loaded[..i] == loaded;
      totalInteractive := count;
      new;
      assert containers[loadedCount..] == [];
    }

    /**
     * onCheckButtonClicked: an interactive container not yet checked is
     * graded and stays current; anything else moves the lesson on.
     */
    method CheckButtonClicked()
      requires Valid() && |containers| > 0
      modifies this, score, timer
      ensures Valid() && |containers| >= |old(containers)|
      ensures containers[..|old(containers)|] == old(containers)
      ensures ExpectsResponse(old(containers[currentIndex])) && !old(answerChecked) ==>
        answerChecked && currentIndex == old(currentIndex) && !finished == !old(finished) &&
        lastAnswerWasCorrect == Grade(ToCheck(old(containers[currentIndex])).content) &&
        correctCount == old(correctCount) + (if lastAnswerWasCorrect then 1 else 0) &&
        score.totalAnswers == old(score.totalAnswers) + 1 &&
        score.correctAnswers == old(score.correctAnswers) + (if lastAnswerWasCorrect then 1 else 0) &&
        timer.isRunning == old(timer.isRunning)
      ensures ExpectsResponse(old(containers[currentIndex])) && !old(answerChecked) && lastAnswerWasCorrect ==>
        containers == old(containers) && recapIdCounter == old(recapIdCounter) &&
        score.currentStreak == old(score.currentStreak) + 1 &&
        score.totalScore == old(score.totalScore) + ScoreManager.Points(score.currentStreak) &&
        timer.remainingTimeSeconds == (if old(timer.remainingTimeSeconds) + 10 > 300 then 300 else old(timer.remainingTimeSeconds) + 10) &&
        progressTarget == (if totalInteractive > 0 then correctCount * 100 / totalInteractive else old(progressTarget))
      ensures ExpectsResponse(old(containers[currentIndex])) && !old(answerChecked) && !lastAnswerWasCorrect ==>
        score.currentStreak == 0 && score.totalScore == old(score.totalScore) &&
        timer.remainingTimeSeconds == old(timer.remainingTimeSeconds) && progressTarget == old(progressTarget) &&
        (containers[|old(containers)|..], recapIdCounter) == Review(old(containers[currentIndex]), old(recapIdCounter), recapTitle)
      ensures !(ExpectsResponse(old(containers[currentIndex])) && !old(answerChecked)) ==>
        containers == old(containers) && correctCount == old(correctCount) &&
        (old(currentIndex) < |containers| - 1 ==>
           currentIndex == old(currentIndex) + 1 && !answerChecked && finished == old(finished) && unchanged(score, timer)) &&
        (old(currentIndex) == |containers| - 1 ==>
           currentIndex == old(currentIndex) && finished && !timer.isRunning &&
           timer.remainingTimeSeconds == old(timer.remainingTimeSeconds) &&
           AccuracyBonusOf(accuracyBonus, old(score.correctAnswers), old(score.totalAnswers)) &&
           score.totalScore == old(score.totalScore) + accuracyBonus)
    {
      var current := containers[currentIndex];
      if ExpectsResponse(current) && !answerChecked {
        CheckAnswer();
        answerChecked := true;
        return;
      }
      ProgressToNextContainer();
    }

    /** checkAnswer: grades the container to check and hands the verdict on. */
    method CheckAnswer()
      requires Valid() && |containers| > 0
      modifies this, score, timer
      ensures Valid()
      ensures currentIndex == old(currentIndex) && answerChecked == old(answerChecked) && finished == old(finished)
      ensures |containers| >= |old(containers)| && containers[..|old(containers)|] == old(containers)
      ensures lastAnswerWasCorrect == Grade(ToCheck(old(containers[currentIndex])).content)
      ensures correctCount == old(correctCount) + (if lastAnswerWasCorrect then 1 else 0)
      ensures score.totalAnswers == old(score.totalAnswers) + 1
      ensures score.correctAnswers == old(score.correctAnswers) + (if lastAnswerWasCorrect then 1 else 0)
      ensures timer.isRunning == old(timer.isRunning)
      ensures lastAnswerWasCorrect ==>
        containers == old(containers) && recapIdCounter == old(recapIdCounter) &&
        score.currentStreak == old(score.currentStreak) + 1 &&
        score.totalScore == old(score.totalScore) + ScoreManager.Points(score.currentStreak) &&
        timer.remainingTimeSeconds == (if old(timer.remainingTimeSeconds) + 10 > 300 then 300 else old(timer.remainingTimeSeconds) + 10) &&
        progressTarget == (if totalInteractive > 0 then correctCount * 100 / totalInteractive else old(progressTarget))
      ensures !lastAnswerWasCorrect ==>
        score.currentStreak == 0 && score.totalScore == old(score.totalScore) &&
        timer.remainingTimeSeconds == old(timer.remainingTimeSeconds) && progressTarget == old(progressTarget) &&
        (containers[|old(containers)|..], recapIdCounter) == Review(old(containers[currentIndex]), old(recapIdCounter), recapTitle)
    {
      var toCheck := ToCheck(containers[currentIndex]);
      var isCorrect := Grade(toCheck.content);
      OnAnswer(isCorrect);
    }

    /**
     * onAnswer: a correct answer scores, adds ten seconds and moves the
     * progress target to the share of interactive containers answered
     * correctly; a wrong one breaks the streak and queues a review.
     */
    method OnAnswer(isCorrect: bool)
      requires Valid() && |containers| > 0
      modifies this, score, timer
      ensures Valid()
      ensures currentIndex == old(currentIndex) && answerChecked == old(answerChecked) && finished == old(finished)
      ensures lastAnswerWasCorrect == isCorrect && |containers| >= |old(containers)|
      ensures score.totalAnswers == old(score.totalAnswers) + 1
      ensures score.correctAnswers == old(score.correctAnswers) + (if isCorrect then 1 else 0)
      ensures timer.isRunning == old(timer.isRunning)
      ensures isCorrect ==>
        correctCount == old(correctCount) + 1 && containers == old(containers) && recapIdCounter == old(recapIdCounter) &&
        score.currentStreak == old(score.currentStreak) + 1 &&
        score.totalScore == old(score.totalScore) + ScoreManager.Points(score.currentStreak) &&
        timer.remainingTimeSeconds == (if old(timer.remainingTimeSeconds) + 10 > 300 then 300 else old(timer.remainingTimeSeconds) + 10) &&
        progressTarget == (if totalInteractive > 0 then correctCount * 100 / totalInteractive else old(progressTarget))
      ensures !isCorrect ==>
        correctCount == old(correctCount) && score.currentStreak == 0 && score.totalScore == old(score.totalScore) &&
        timer.remainingTimeSeconds == old(timer.remainingTimeSeconds) && progressTarget == old(progressTarget) &&
        (containers[|old(containers)|..], recapIdCounter) == Review(old(containers[currentIndex]), old(recapIdCounter), recapTitle) &&
        containers[..|old(containers)|] == old(containers)
    {
      lastAnswerWasCorrect := isCorrect;
      if isCorrect {
        correctCount := correctCount + 1;
        var points := score.RecordCorrectAnswer();
        timer.AddCorrectAnswerBonus();
        if totalInteractive > 0 {
          progressTarget := correctCount * 100 / totalInteractive;
        }
      } else {
        score.RecordIncorrectAnswer();
        AddCurrentContainerToRecap();
      }
    }

    /** addCurrentContainerToRecap: appends the review of the current container, if there is one. */
    method AddCurrentContainerToRecap()
      requires Valid() && |containers| > 0
      modifies this
      ensures Valid()
      ensures currentIndex == old(currentIndex) && answerChecked == old(answerChecked) && finished == old(finished)
      ensures correctCount == old(correctCount) && progressTarget == old(progressTarget)
      ensures lastAnswerWasCorrect == old(lastAnswerWasCorrect) && |containers| >= |old(containers)|
      ensures containers[..|old(containers)|] == old(containers)
      ensures (containers[|old(containers)|..], recapIdCounter) == Review(old(containers[currentIndex]), old(recapIdCounter), recapTitle)
    {
      var current := containers[currentIndex];
      var (added, next) := Review(current, recapIdCounter, recapTitle);
      AppendReview(containers, loadedCount, recapIdCounter, current, recapTitle);
      containers := containers + added;
      recapIdCounter := next;
    }

    /**
     * progressToNextContainer: the next container with its check undone,
     * or, after the last, checkLessonComplete(false).
     */
    method ProgressToNextContainer()
      requires Valid()
      modifies this, score, timer
      ensures Valid()
      ensures containers == old(containers) && correctCount == old(correctCount) && recapIdCounter == old(recapIdCounter)
      ensures old(currentIndex) < |containers| - 1 ==>
        currentIndex == old(currentIndex) + 1 && !answerChecked && finished == old(finished) && unchanged(score, timer)
      ensures old(currentIndex) >= |containers| - 1 ==>
        currentIndex == old(currentIndex) && answerChecked == old(answerChecked) && finished && !timer.isRunning &&
        timer.remainingTimeSeconds == old(timer.remainingTimeSeconds) &&
        AccuracyBonusOf(accuracyBonus, old(score.correctAnswers), old(score.totalAnswers)) &&
        score.totalScore == old(score.totalScore) + accuracyBonus
    {
      if currentIndex < |containers| - 1 {
        currentIndex := currentIndex + 1;
        answerChecked := false;
      } else {
        CheckLessonComplete(false);
      }
    }

    /**
     * checkLessonComplete: the timer stops, the accuracy bonus is added to
     * the score and kept for the result screen, and the lesson ends;
     * `timeOver` only chooses the message shown.
     */
    method CheckLessonComplete(timeOver: bool)
      requires Valid()
      modifies this, score, timer
      ensures Valid() && finished && !timer.isRunning
      ensures containers == old(containers) && currentIndex == old(currentIndex) && answerChecked == old(answerChecked)
      ensures correctCount == old(correctCount) && recapIdCounter == old(recapIdCounter) && progressTarget == old(progressTarget)
      ensures timer.remainingTimeSeconds == old(timer.remainingTimeSeconds)
      ensures AccuracyBonusOf(accuracyBonus, old(score.correctAnswers), old(score.totalAnswers))
      ensures score.totalScore == old(score.totalScore) + accuracyBonus
      ensures score.correctAnswers == old(score.correctAnswers) && score.totalAnswers == old(score.totalAnswers)
    {
      timer.Stop();
      accuracyBonus := score.AddAccuracyBonus();
      finished := true;
    }

    /** onTimeOver: the timer ran out, so the lesson ends wherever it stands. */
    method OnTimeOver()
      requires Valid()
      modifies this, score, timer
      ensures Valid() && finished && !timer.isRunning
      ensures containers == old(containers) && currentIndex == old(currentIndex) && correctCount == old(correctCount)
      ensures AccuracyBonusOf(accuracyBonus, old(score.correctAnswers), old(score.totalAnswers))
      ensures score.totalScore == old(score.totalScore) + accuracyBonus
    {
      CheckLessonComplete(true);
    }
  }
}
