/**
 * TimerManager: the five-minute countdown. The wall-clock loop that posts
 * itself every 100 ms is replaced by Tick, called with the current time;
 * the listener callbacks are left out.
 */
module TimerManager {
  import opened Text

  const INITIAL_TIME_SECONDS: int := 300
  const CORRECT_ANSWER_BONUS_SECONDS: int := 10
  const LOW_TIME: int := 30
  const WARNING_TIME: int := 60

  /** Java's int division, which truncates toward zero, by a positive divisor. */
  function JavaDiv(a: int, b: int): (q: int)
    requires b > 0
    ensures a >= 0 ==> q == a / b
    ensures a < 0 ==> q == -((-a) / b)
  {
    if a >= 0 then a / b else -((-a) / b)
  }

  /** Java's %, whose result takes the sign of the dividend. */
  function JavaRem(a: int, b: int): (r: int)
    requires b > 0
    ensures a == JavaDiv(a, b) * b + r
    ensures a >= 0 ==> 0 <= r < b
    ensures a < 0 ==> -b < r <= 0
  {
    a - JavaDiv(a, b) * b
  }

  /** String.format("%02d", n): at least two characters, a leading zero for 0..9. */
  function Pad2(n: int): (r: string)
    ensures 0 <= n < 10 ==> r == ['0', DigitChar(n)]
    ensures 10 <= n ==> r == IntToString(n)
  {
    if 0 <= n < 10 then "0" + IntToString(n) else IntToString(n)
  }

  /** getFormattedTime: "%d:%02d" of the minutes and the seconds. */
  function FormattedTime(seconds: int): (r: string)
    ensures 0 <= seconds ==> r == NatToString(seconds / 60) + ":" + Pad2(seconds % 60)
  {
    IntToString(JavaDiv(seconds, 60)) + ":" + Pad2(JavaRem(seconds, 60))
  }

  /**
   * For a time within the countdown's range the text is the minutes, a
   * colon and two digits, and reads back as that many seconds.
   */
  lemma {:induction false} FormattedTimeReadsBack(seconds: int)
    requires 0 <= seconds <= INITIAL_TIME_SECONDS
    ensures var minutes := seconds / 60;
      var tens := seconds % 60 / 10;
      var units := seconds % 10;
      FormattedTime(seconds) == NatToString(minutes) + [':', DigitChar(tens), DigitChar(units)] &&
      seconds == 60 * minutes + 10 * tens + units && tens < 6
  {
    var m, s := seconds / 60, seconds % 60;
    var t, u := s / 10, s % 10;
    assert seconds == 10 * (6 * m + t) + u;
    assert seconds % 10 == u;
    assert JavaDiv(seconds, 60) == m && JavaRem(seconds, 60) == s;
    if s >= 10 {
      assert IntToString(s) == NatToString(t) + [DigitChar(u)];
      assert NatToString(t) == [DigitChar(t)];
    }
  }

  lemma FullTimeText()
    ensures FormattedTime(INITIAL_TIME_SECONDS) == "5:00"
  {
    FormattedTimeReadsBack(INITIAL_TIME_SECONDS);
  }

  class TimerManager {
    var remainingTimeSeconds: int
    var isRunning: bool
    /** The time of the last counted second, in milliseconds. */
    var lastUpdateTime: int
    var lastBonusAwarded: int

    /** The remaining time stays between 0 and the initial five minutes. */
    ghost predicate Valid()
      reads this
    {
      0 <= remainingTimeSeconds <= INITIAL_TIME_SECONDS
    }

    constructor ()
      ensures Valid() && remainingTimeSeconds == INITIAL_TIME_SECONDS && !isRunning && lastBonusAwarded == 0
    {
      remainingTimeSeconds := INITIAL_TIME_SECONDS;
      isRunning := false;
      lastUpdateTime := 0;
      lastBonusAwarded := 0;
    }

    /**
     * One run of the update loop at time `now`: when running and a second
     * has passed, one second is taken off; reaching zero clamps at zero and
     * stops the timer.
     */
    method Tick(now: int)
      requires Valid()
      modifies this
      ensures Valid() && lastBonusAwarded == old(lastBonusAwarded)
      ensures !old(isRunning) || now - old(lastUpdateTime) < 1000 ==>
        remainingTimeSeconds == old(remainingTimeSeconds) && isRunning == old(isRunning) && lastUpdateTime == old(lastUpdateTime)
      ensures old(isRunning) && now - old(lastUpdateTime) >= 1000 ==>
        lastUpdateTime == now &&
        (old(remainingTimeSeconds) > 1 ==> remainingTimeSeconds == old(remainingTimeSeconds) - 1 && isRunning) &&
        (old(remainingTimeSeconds) <= 1 ==> remainingTimeSeconds == 0 && !isRunning)
    {
      if isRunning {
        var elapsed := now - lastUpdateTime;
        if elapsed >= 1000 {
          lastUpdateTime := now;
          remainingTimeSeconds := remainingTimeSeconds - 1;
          if remainingTimeSeconds <= 0 {
            remainingTimeSeconds := 0;
            Stop();
          }
        }
      }
    }

    /** Starts counting from `now`; no effect while already running. */
    method Start(now: int)
      modifies this
      ensures remainingTimeSeconds == old(remainingTimeSeconds) && lastBonusAwarded == old(lastBonusAwarded) && isRunning
      ensures lastUpdateTime == if old(isRunning) then old(lastUpdateTime) else now
    {
      if !isRunning {
        isRunning := true;
        lastUpdateTime := now;
      }
    }

    method Pause()
      modifies this
      ensures !isRunning
      ensures remainingTimeSeconds == old(remainingTimeSeconds) && lastUpdateTime == old(lastUpdateTime) && lastBonusAwarded == old(lastBonusAwarded)
    {
      if isRunning {
        isRunning := false;
      }
    }

    method Stop()
      modifies this
      ensures !isRunning
      ensures remainingTimeSeconds == old(remainingTimeSeconds) && lastUpdateTime == old(lastUpdateTime) && lastBonusAwarded == old(lastBonusAwarded)
    {
      isRunning := false;
    }

    /** Adds `seconds`, capped at the initial five minutes, and records the bonus. */
    method AddTime(seconds: int)
      modifies this
      ensures remainingTimeSeconds == if old(remainingTimeSeconds) + seconds > INITIAL_TIME_SECONDS then INITIAL_TIME_SECONDS else old(remainingTimeSeconds) + seconds
      ensures lastBonusAwarded == seconds
      ensures isRunning == old(isRunning) && lastUpdateTime == old(lastUpdateTime)
      ensures old(Valid()) && seconds >= 0 ==> Valid() && remainingTimeSeconds >= old(remainingTimeSeconds)
    {
      lastBonusAwarded := seconds;
      remainingTimeSeconds := remainingTimeSeconds + seconds;
      if remainingTimeSeconds > INITIAL_TIME_SECONDS {
        remainingTimeSeconds := INITIAL_TIME_SECONDS;
      }
    }

    method AddCorrectAnswerBonus()
      requires Valid()
      modifies this
      ensures Valid() && lastBonusAwarded == CORRECT_ANSWER_BONUS_SECONDS
      ensures remainingTimeSeconds == if old(remainingTimeSeconds) + 10 > INITIAL_TIME_SECONDS then INITIAL_TIME_SECONDS else old(remainingTimeSeconds) + 10
      ensures isRunning == old(isRunning) && lastUpdateTime == old(lastUpdateTime)
    {
      AddTime(CORRECT_ANSWER_BONUS_SECONDS);
    }

    /** isCritical: under thirty seconds left. */
    function IsCritical(): (r: bool)
      reads this
      ensures r <==> remainingTimeSeconds < LOW_TIME
      ensures r ==> remainingTimeSeconds < WARNING_TIME
    {
      remainingTimeSeconds < LOW_TIME
    }

    /** isWarning: under a minute left, but not yet critical. */
    function IsWarning(): (r: bool)
      reads this
      ensures r <==> LOW_TIME <= remainingTimeSeconds < WARNING_TIME
      ensures r ==> !IsCritical()
    {
      remainingTimeSeconds < WARNING_TIME && remainingTimeSeconds >= LOW_TIME
    }

    /** Stops the timer and restores the full five minutes. */
    method Reset()
      modifies this
      ensures Valid() && !isRunning && remainingTimeSeconds == INITIAL_TIME_SECONDS
      ensures lastUpdateTime == old(lastUpdateTime) && lastBonusAwarded == old(lastBonusAwarded)
    {
      Stop();
      remainingTimeSeconds := INITIAL_TIME_SECONDS;
    }
  }

  /** The timer is never critical and in warning at once, and below a minute it is one of the two. */
  lemma {:induction false} CriticalOrWarning(t: TimerManager)
    ensures !(t.IsCritical() && t.IsWarning())
    ensures t.remainingTimeSeconds < WARNING_TIME <==> t.IsCritical() || t.IsWarning()
  {
  }
}
