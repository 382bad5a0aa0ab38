/**
 * ScoreManager: the points, streaks and answer counters of one lesson.
 * A correct answer is worth 100 points plus 20 for every earlier answer
 * in the current streak; a wrong answer ends the streak.
 */
module ScoreManager {
  const BASE_CORRECT_POINTS: int := 100
  const STREAK_MULTIPLIER: int := 20
  /** The extra bonus for a lesson without a wrong answer. */
  const PERFECT_BONUS: int := 200

  /** The points a correct answer earns when it makes the streak `streak` long. */
  function Points(streak: int): (r: int)
    requires streak >= 1
    ensures r >= BASE_CORRECT_POINTS
    ensures streak > 1 ==> r == Points(streak - 1) + STREAK_MULTIPLIER
  {
    BASE_CORRECT_POINTS + (streak - 1) * STREAK_MULTIPLIER
  }

  class ScoreManager {
    var totalScore: int
    var currentStreak: int
    var maxStreak: int
    var correctAnswers: int
    var totalAnswers: int

    /**
     * The counters are never negative, a streak is never longer than the
     * longest one nor than the number of correct answers, and there are
     * never more correct answers than answers.
     */
    ghost predicate Valid()
      reads this
    {
      0 <= currentStreak <= maxStreak && currentStreak <= correctAnswers <= totalAnswers && 0 <= totalScore
    }

    constructor ()
      ensures Valid()
      ensures totalScore == 0 && currentStreak == 0 && maxStreak == 0 && correctAnswers == 0 && totalAnswers == 0
    {
      totalScore := 0;
      currentStreak := 0;
      maxStreak := 0;
      correctAnswers := 0;
      totalAnswers := 0;
    }

    method RecordCorrectAnswer() returns (points: int)
      requires Valid()
      modifies this
      ensures Valid()
      ensures currentStreak == old(currentStreak) + 1 && maxStreak == if old(maxStreak) < currentStreak then currentStreak else old(maxStreak)
      ensures correctAnswers == old(correctAnswers) + 1 && totalAnswers == old(totalAnswers) + 1
      ensures points == Points(currentStreak) && totalScore == old(totalScore) + points
    {
      correctAnswers := correctAnswers + 1;
      totalAnswers := totalAnswers + 1;
      currentStreak := currentStreak + 1;
      if currentStreak > maxStreak {
        maxStreak := currentStreak;
      }
      points := BASE_CORRECT_POINTS;
      if currentStreak > 1 {
        points := points + (currentStreak - 1) * STREAK_MULTIPLIER;
      }
      totalScore := totalScore + points;
    }

    method RecordIncorrectAnswer()
      requires Valid()
      modifies this
      ensures Valid()
      ensures currentStreak == 0 && totalAnswers == old(totalAnswers) + 1
      ensures totalScore == old(totalScore) && correctAnswers == old(correctAnswers) && maxStreak == old(maxStreak)
    {
      totalAnswers := totalAnswers + 1;
      currentStreak := 0;
    }

    /**
     * The accuracy bonus: nothing without answers, 100 + 200 when every
     * answer was correct, and otherwise the percentage of correct answers,
     * below 100; it is added to the score.
     */
    method AddAccuracyBonus() returns (bonus: int)
      requires Valid()
      modifies this
      ensures Valid()
      ensures old(totalAnswers) == 0 ==> bonus == 0
      ensures old(totalAnswers) > 0 && old(correctAnswers) == old(totalAnswers) ==> bonus == 100 + PERFECT_BONUS
      ensures old(correctAnswers) < old(totalAnswers) ==> 0 <= bonus < 100
      ensures totalScore == old(totalScore) + bonus
      ensures currentStreak == old(currentStreak) && maxStreak == old(maxStreak)
      ensures correctAnswers == old(correctAnswers) && totalAnswers == old(totalAnswers)
    {
      if totalAnswers == 0 {
        return 0;
      }
      bonus := correctAnswers * 100 / totalAnswers;
      Percent(correctAnswers, totalAnswers);
      if correctAnswers == totalAnswers {
        bonus := bonus + PERFECT_BONUS;
      }
      totalScore := totalScore + bonus;
    }

    method Reset()
      modifies this
      ensures Valid()
      ensures totalScore == 0 && currentStreak == 0 && maxStreak == 0 && correctAnswers == 0 && totalAnswers == 0
    {
      totalScore := 0;
      currentStreak := 0;
      maxStreak := 0;
      correctAnswers := 0;
      totalAnswers := 0;
    }
  }

  /**
   * The score after a run of answers (true for correct) from a fresh
   * manager, with the streak it ends on: the sum of Points over the
   * streaks each correct answer completed.
   */
  function ScoreOf(answers: seq<bool>): (r: (int, int))
    ensures 0 <= r.1 <= |answers| && r.0 >= BASE_CORRECT_POINTS * r.1
    decreases |answers|
  {
    if |answers| == 0 then (0, 0)
    else
      var (score, streak) := ScoreOf(answers[..|answers| - 1]);
      if answers[|answers| - 1] then (score + Points(streak + 1), streak + 1) else (score, 0)
  }

  /** The whole-number percentage c*100/t of c out of t answers: 100 when all, below 100 otherwise. */
  lemma {:induction false} Percent(c: int, t: int)
    requires 0 <= c <= t && t > 0
    ensures c == t ==> c * 100 / t == 100
    ensures c < t ==> 0 <= c * 100 / t < 100
  {
    var q := c * 100 / t;
    assert q * t <= c * 100;
    if c < t {
      assert c * 100 < 100 * t;
      ProductBelow(q, t, 100);
    } else {
      assert c * 100 == 100 * t;
    }
  }

  lemma {:induction false} ProductBelow(q: int, t: int, b: int)
    requires t > 0 && q * t < b * t
    ensures q < b
  {
  }

  /** Replaying answers on a fresh manager yields ScoreOf's score and streak. */
  method Replay(answers: seq<bool>) returns (m: ScoreManager)
    ensures fresh(m) && m.Valid()
    ensures (m.totalScore, m.currentStreak) == ScoreOf(answers) && m.totalAnswers == |answers|
  {
    m := new ScoreManager();
    var i := 0;
    while i < |answers|
      invariant 0 <= i <= |answers| && m.Valid()
      invariant (m.totalScore, m.currentStreak) == ScoreOf(answers[..i]) && m.totalAnswers == i
    {
      assert answers[..i + 1][..i] == answers[..i];
      if answers[i] {
        var _ := m.RecordCorrectAnswer();
      } else {
        m.RecordIncorrectAnswer();
      }
      i := i + 1;
    }
    assert answers[..i] == answers;
  }

  /** A run of n correct answers scores 100n plus 20 for each pair of them: 100n + 10n(n-1). */
  lemma {:induction false} AllCorrectScore(answers: seq<bool>)
    requires forall i :: 0 <= i < |answers| ==> answers[i]
    ensures ScoreOf(answers) == (BASE_CORRECT_POINTS * |answers| + 10 * |answers| * (|answers| - 1), |answers|)
    decreases |answers|
  {
    if |answers| > 0 {
      var m := |answers| - 1;
      AllCorrectScore(answers[..m]);
      var (score, streak) := ScoreOf(answers[..m]);
      assert answers[m];
      assert ScoreOf(answers) == (score + Points(streak + 1), streak + 1);
      Pairs(m);
    }
  }

  lemma {:induction false} Pairs(m: int)
    ensures 10 * (m + 1) * m == 10 * m * (m - 1) + 20 * m
  {
    assert (m + 1) * m == m * m + m;
    assert m * (m - 1) == m * m - m;
  }
}
