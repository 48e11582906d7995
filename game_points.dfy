/**
 * Hint unlock thresholds and hint penalties (utils/gamePoints.js). The
 * fractions are applied in exact arithmetic: `Math.floor(n * 0.25)` is
 * `n * 25 / 100`, whose division rounds down as `Math.floor` does.
 */
module GamePoints {

  /** `getSynonymsUnlockAt(initialSeconds)`: a quarter of the timer, rounded down. */
  function SynonymsUnlockAt(initialSeconds: int): (t: int)
    ensures t * 100 <= initialSeconds * 25 < t * 100 + 100
  {
    initialSeconds * 25 / 100
  }

  /** `getDefinitionUnlockAt(initialSeconds)`: 15% of the timer, rounded down. */
  function DefinitionUnlockAt(initialSeconds: int): (t: int)
    ensures t * 100 <= initialSeconds * 15 < t * 100 + 100
  {
    initialSeconds * 15 / 100
  }

  /** The definition unlocks no earlier than synonyms, and neither before the timer starts. */
  lemma UnlockOrder(initialSeconds: int)
    requires initialSeconds >= 0
    ensures 0 <= DefinitionUnlockAt(initialSeconds) <= SynonymsUnlockAt(initialSeconds) <= initialSeconds
  {
  }

  /** `getSynPenalty(rowVal, used)`. */
  function SynPenalty(rowVal: int, used: bool): (p: int)
    ensures used ==> p == 0
    ensures p >= 0
  {
    if used then 0 else 4 * rowVal * rowVal
  }

  /** `getDefPenalty(rowVal, used)`. */
  function DefPenalty(rowVal: int, used: bool): (p: int)
    ensures used ==> p == 0
    ensures p >= 0
  {
    if used then 0 else 2 * rowVal * rowVal
  }

  /** An unused synonyms hint costs exactly twice an unused definition hint. */
  lemma SynonymsCostTwice(rowVal: int)
    ensures SynPenalty(rowVal, false) == 2 * DefPenalty(rowVal, false)
  {
  }

  /** With more rows left a hint costs more. */
  lemma PenaltiesGrowWithRowsLeft(r1: int, r2: int, used: bool)
    requires 0 <= r1 <= r2
    ensures SynPenalty(r1, used) <= SynPenalty(r2, used)
    ensures DefPenalty(r1, used) <= DefPenalty(r2, used)
  {
    assert r1 * r1 <= r1 * r2 <= r2 * r2;
  }

}
