/**
 * The score of one finished game (utils/scoreUtils.js), computed on exact
 * reals: the streak multiplier `1 + s * 0.01` is `1 + s/100` and the hard
 * mode multiplier `1.2` is `6/5`.
 */
module ScoreUtils {

  const BASE_POINTS_PER_LETTER: int := 10
  const WIN_BONUS: int := 50
  const GUESS_PENALTY: int := 5
  const BONUS_PER_UNUSED_GUESS: int := 10
  const TIME_BONUS_THRESHOLD: int := 60
  const TIME_BONUS: int := 20
  const STREAK_PERCENT: int := 1
  const MAX_STREAK_FOR_BONUS: int := 20
  const HARD_MODE_MULTIPLIER: real := 1.2

  function Max0(x: int): int {
    if x < 0 then 0 else x
  }

  function MinInt(a: int, b: int): int {
    if a < b then a else b
  }

  /** `Math.round`: to the nearest integer, halves upwards. */
  function RoundHalfUp(x: real): (n: int)
    ensures n as real - 0.5 <= x < n as real + 0.5
  {
    (x + 0.5).Floor
  }

  /** The time bonus is earned by a positive time of at most the threshold. */
  predicate EarnsTimeBonus(timeTakenSeconds: int) {
    0 < timeTakenSeconds <= TIME_BONUS_THRESHOLD
  }

  /** Points of a win before the multipliers: letters, win bonus, unused guesses, time bonus. */
  function WinPoints(attemptsUsed: int, maxAttempts: int, wordLength: int, timeTakenSeconds: int): int {
    wordLength * BASE_POINTS_PER_LETTER + WIN_BONUS
    + Max0(maxAttempts - attemptsUsed) * BONUS_PER_UNUSED_GUESS
    + (if EarnsTimeBonus(timeTakenSeconds) then TIME_BONUS else 0)
  }

  /** The streak multiplier: 1% per game of a positive streak, counting at most 20 games. */
  function StreakFactor(currentStreak: int): real {
    if currentStreak > 0 then 1.0 + (MinInt(currentStreak, MAX_STREAK_FOR_BONUS) * STREAK_PERCENT) as real / 100.0
    else 1.0
  }

  function HardFactor(isHardMode: bool): real {
    if isHardMode then HARD_MODE_MULTIPLIER else 1.0
  }

  /** The unrounded score: multiplied win points, or the clamped loss points. */
  function RawScore(isWin: bool, attemptsUsed: int, maxAttempts: int, wordLength: int,
                    timeTakenSeconds: int, currentStreak: int, isHardMode: bool): real
  {
    if isWin then
      WinPoints(attemptsUsed, maxAttempts, wordLength, timeTakenSeconds) as real
      * StreakFactor(currentStreak) * HardFactor(isHardMode)
    else
      Max0(wordLength * BASE_POINTS_PER_LETTER - attemptsUsed * GUESS_PENALTY) as real
  }

  /** The score, rounded once at the very end. */
  function Score(isWin: bool, attemptsUsed: int, maxAttempts: int, wordLength: int,
                 timeTakenSeconds: int, currentStreak: int, isHardMode: bool): int
  {
    RoundHalfUp(RawScore(isWin, attemptsUsed, maxAttempts, wordLength, timeTakenSeconds, currentStreak, isHardMode))
  }

  /**
   * `calculateScore({...})`: a running total, built up step by step and
   * rounded once at the end. Omitted optional fields are passed as their
   * defaults: time 0, streak 0, not hard mode.
   */
  method CalculateScore(isWin: bool, attemptsUsed: int, maxAttempts: int, wordLength: int,
                        timeTakenSeconds: int, currentStreak: int, isHardMode: bool)
    returns (score: int)
    ensures score == Score(isWin, attemptsUsed, maxAttempts, wordLength, timeTakenSeconds, currentStreak, isHardMode)
  {
    // The running total is a real, as the source's number is; each stage is
    // checked against the matching factor of `RawScore`.
    var total: real := 0.0;

    var baseWordPoints := wordLength * BASE_POINTS_PER_LETTER;
    total := total + baseWordPoints as real;

    if isWin {
      total := total + WIN_BONUS as real;
      var unusedGuesses := Max0(maxAttempts - attemptsUsed);
      total := total + (unusedGuesses * BONUS_PER_UNUSED_GUESS) as real;
      if timeTakenSeconds > 0 && timeTakenSeconds <= TIME_BONUS_THRESHOLD {
        total := total + TIME_BONUS as real;
      }
      assert total == WinPoints(attemptsUsed, maxAttempts, wordLength, timeTakenSeconds) as real;
      ghost var points := total;
      if currentStreak != 0 && currentStreak > 0 {
        var effectiveStreak := MinInt(currentStreak, MAX_STREAK_FOR_BONUS);
        assert 1.0 + (effectiveStreak * STREAK_PERCENT) as real / 100.0 == StreakFactor(currentStreak);
        total := total * (1.0 + (effectiveStreak * STREAK_PERCENT) as real / 100.0);
      }
      assert total == points * StreakFactor(currentStreak);
      ghost var streaked := total;
      if isHardMode {
        total := total * HARD_MODE_MULTIPLIER;
      }
      assert total == streaked * HardFactor(isHardMode);
      assert total == RawScore(isWin, attemptsUsed, maxAttempts, wordLength, timeTakenSeconds, currentStreak, isHardMode);
    } else {
      total := total - (attemptsUsed * GUESS_PENALTY) as real;
      assert total == (wordLength * BASE_POINTS_PER_LETTER - attemptsUsed * GUESS_PENALTY) as real;
      if total < 0.0 {
        total := 0.0;
      }
      assert total == RawScore(isWin, attemptsUsed, maxAttempts, wordLength, timeTakenSeconds, currentStreak, isHardMode);
    }
    score := RoundHalfUp(total);
  }

  // ---------------------------------------------------------------------------
  // Properties of the score
  // ---------------------------------------------------------------------------

  lemma RoundInteger(n: int)
    ensures RoundHalfUp(n as real) == n
  {
  }

  lemma RoundMonotone(x: real, y: real)
    requires x <= y
    ensures RoundHalfUp(x) <= RoundHalfUp(y)
  {
  }

  /** A loss earns the letter points less 5 per attempt, never below zero; a loss still earns letter points. */
  lemma LossScore(attemptsUsed: int, maxAttempts: int, wordLength: int, timeTakenSeconds: int,
                  currentStreak: int, isHardMode: bool)
    ensures Score(false, attemptsUsed, maxAttempts, wordLength, timeTakenSeconds, currentStreak, isHardMode)
            == Max0(wordLength * 10 - attemptsUsed * 5)
    ensures Score(false, attemptsUsed, maxAttempts, wordLength, timeTakenSeconds, currentStreak, isHardMode) >= 0
  {
    RoundInteger(Max0(wordLength * 10 - attemptsUsed * 5));
  }

  /** A win without time bonus, streak or hard mode: letters, 50, and 10 per unused guess. */
  lemma PlainWinScore(attemptsUsed: int, maxAttempts: int, wordLength: int)
    ensures Score(true, attemptsUsed, maxAttempts, wordLength, 0, 0, false)
            == wordLength * 10 + 50 + Max0(maxAttempts - attemptsUsed) * 10
  {
    RoundInteger(wordLength * 10 + 50 + Max0(maxAttempts - attemptsUsed) * 10);
  }

  /** Without multipliers, the time bonus adds 20 exactly when the time is in (0, 60]. */
  lemma TimeBonusWindow(attemptsUsed: int, maxAttempts: int, wordLength: int, timeTakenSeconds: int)
    ensures Score(true, attemptsUsed, maxAttempts, wordLength, timeTakenSeconds, 0, false)
            == Score(true, attemptsUsed, maxAttempts, wordLength, 0, 0, false)
               + (if 0 < timeTakenSeconds <= 60 then 20 else 0)
  {
    RoundInteger(WinPoints(attemptsUsed, maxAttempts, wordLength, timeTakenSeconds));
    RoundInteger(WinPoints(attemptsUsed, maxAttempts, wordLength, 0));
  }

  /** Streaks beyond 20 count as 20; a streak of zero or less multiplies by nothing. */
  lemma StreakCapped(isWin: bool, attemptsUsed: int, maxAttempts: int, wordLength: int,
                     timeTakenSeconds: int, currentStreak: int, isHardMode: bool)
    ensures currentStreak >= 20 ==>
              Score(isWin, attemptsUsed, maxAttempts, wordLength, timeTakenSeconds, currentStreak, isHardMode)
              == Score(isWin, attemptsUsed, maxAttempts, wordLength, timeTakenSeconds, 20, isHardMode)
    ensures currentStreak <= 0 ==>
              Score(isWin, attemptsUsed, maxAttempts, wordLength, timeTakenSeconds, currentStreak, isHardMode)
              == Score(isWin, attemptsUsed, maxAttempts, wordLength, timeTakenSeconds, 0, isHardMode)
  {
  }

  lemma MultiplyMonotone(x: real, y: real, c: real)
    requires x <= y && c > 0.0
    ensures x * c <= y * c
  {
  }

  lemma FactorsPositive(currentStreak: int, isHardMode: bool)
    ensures StreakFactor(currentStreak) >= 1.0 && HardFactor(isHardMode) >= 1.0
    ensures StreakFactor(currentStreak) * HardFactor(isHardMode) > 0.0
  {
  }

  lemma WinPointsOrdered(x: int, y: int, currentStreak: int, isHardMode: bool)
    requires x <= y
    ensures RoundHalfUp(x as real * StreakFactor(currentStreak) * HardFactor(isHardMode))
            <= RoundHalfUp(y as real * StreakFactor(currentStreak) * HardFactor(isHardMode))
  {
    var f := StreakFactor(currentStreak);
    var h := HardFactor(isHardMode);
    FactorsPositive(currentStreak, isHardMode);
    MultiplyMonotone(x as real, y as real, f);
    MultiplyMonotone(x as real * f, y as real * f, h);
    RoundMonotone(x as real * f * h, y as real * f * h);
  }

  /** For a win, more attempts never score more. */
  lemma WinScoreFallsWithAttempts(a1: int, a2: int, maxAttempts: int, wordLength: int,
                                  timeTakenSeconds: int, currentStreak: int, isHardMode: bool)
    requires a1 <= a2
    ensures Score(true, a2, maxAttempts, wordLength, timeTakenSeconds, currentStreak, isHardMode)
            <= Score(true, a1, maxAttempts, wordLength, timeTakenSeconds, currentStreak, isHardMode)
  {
    var p1 := WinPoints(a1, maxAttempts, wordLength, timeTakenSeconds);
    var p2 := WinPoints(a2, maxAttempts, wordLength, timeTakenSeconds);
    assert p2 <= p1;
    WinPointsOrdered(p2, p1, currentStreak, isHardMode);
  }

  /** For a win, a longer word never scores less. */
  lemma WinScoreGrowsWithLength(attemptsUsed: int, maxAttempts: int, l1: int, l2: int,
                                timeTakenSeconds: int, currentStreak: int, isHardMode: bool)
    requires l1 <= l2
    ensures Score(true, attemptsUsed, maxAttempts, l1, timeTakenSeconds, currentStreak, isHardMode)
            <= Score(true, attemptsUsed, maxAttempts, l2, timeTakenSeconds, currentStreak, isHardMode)
  {
    var p1 := WinPoints(attemptsUsed, maxAttempts, l1, timeTakenSeconds);
    var p2 := WinPoints(attemptsUsed, maxAttempts, l2, timeTakenSeconds);
    assert p1 <= p2;
    WinPointsOrdered(p1, p2, currentStreak, isHardMode);
  }

  /** For a win with a word of any non-negative length, hard mode never scores less. */
  lemma HardModeNeverLess(attemptsUsed: int, maxAttempts: int, wordLength: int,
                          timeTakenSeconds: int, currentStreak: int)
    requires wordLength >= 0
    ensures Score(true, attemptsUsed, maxAttempts, wordLength, timeTakenSeconds, currentStreak, false)
            <= Score(true, attemptsUsed, maxAttempts, wordLength, timeTakenSeconds, currentStreak, true)
  {
    var x := WinPoints(attemptsUsed, maxAttempts, wordLength, timeTakenSeconds) as real * StreakFactor(currentStreak);
    FactorsPositive(currentStreak, false);
    assert x >= 0.0 by {
      assert WinPoints(attemptsUsed, maxAttempts, wordLength, timeTakenSeconds) >= 0;
      MultiplyMonotone(0.0, WinPoints(attemptsUsed, maxAttempts, wordLength, timeTakenSeconds) as real,
                       StreakFactor(currentStreak));
    }
    RoundMonotone(x * 1.0, x * 1.2);
  }

  /** The documented examples: a hard-mode win in 4 of 6 on a 5-letter word scores 173; a 6-letter loss in 6 scores 30. */
  lemma DocumentedExamples()
    ensures Score(true, 4, 6, 5, 50, 3, true) == 173
    ensures Score(false, 6, 6, 6, 0, 0, false) == 30
  {
    assert RawScore(true, 4, 6, 5, 50, 3, true) == 140.0 * 1.03 * 1.2;
    assert 140.0 * 1.03 * 1.2 == 173.04;
    RoundInteger(30);
  }

}
