/**
 * Guess scoring, the local word set and the local part of word validation
 * (utils/wordUtils.js).
 */
module WordUtils {
  import opened Constants
  import opened Text
  import opened WordBank

  function Min(a: int, b: int): int {
    if a < b then a else b
  }

  // ---------------------------------------------------------------------------
  // Guess evaluation
  // ---------------------------------------------------------------------------

  /** Position `k` holds the same letter in guess and target (pass one marks it correct). */
  predicate IsHit(guess: string, target: string, k: int) {
    0 <= k < |guess| && k < |target| && guess[k] == target[k]
  }

  /** Copies of `c` among the first `n` target positions that are not hits: what pass two may consume. */
  function Spare(guess: string, target: string, c: char, n: nat): nat
    requires n <= |target|
  {
    if n == 0 then 0
    else Spare(guess, target, c, n - 1) + (if target[n - 1] == c && !IsHit(guess, target, n - 1) then 1 else 0)
  }

  /** Guess positions below `n` that hold `c` and are not hits: the earlier claimants of a spare `c`. */
  function Misses(guess: string, target: string, c: char, n: nat): nat
    requires n <= |target|
  {
    if n == 0 then 0
    else Misses(guess, target, c, n - 1) + (if n - 1 < |guess| && guess[n - 1] == c && !IsHit(guess, target, n - 1) then 1 else 0)
  }

  /**
   * The status of target position `i`, defined without any consumption
   * state: a hit is correct; otherwise the guess letter is present exactly
   * when fewer earlier non-hit positions claimed the same letter than there
   * are spare copies of it in the target.
   */
  function Expected(guess: string, target: string, i: nat): Status
    requires i < |target|
  {
    if IsHit(guess, target, i) then Correct
    else if i < |guess| && Misses(guess, target, guess[i], i) < Spare(guess, target, guess[i], |target|) then Present
    else Absent
  }

  /** The reference result of `evaluateGuess(guess, target)`: one status per target position. */
  function Feedback(guess: string, target: string): (r: seq<Status>)
    ensures |r| == |target|
    ensures forall i :: 0 <= i < |target| ==> r[i] == Expected(guess, target, i)
  {
    seq(|target|, i requires 0 <= i < |target| => Expected(guess, target, i))
  }

  /** Every status is a real outcome, and correct means exactly "same letter here". */
  lemma FeedbackShape(guess: string, target: string, i: nat)
    requires i < |target|
    ensures Feedback(guess, target)[i] in {Correct, Present, Absent}
    ensures Feedback(guess, target)[i] == Correct <==> i < |guess| && guess[i] == target[i]
  {
  }

  /** Target positions below `n` that pass two has consumed (used, holding `c`, not a hit). */
  function Consumed(used: seq<bool>, guess: string, target: string, c: char, n: nat): nat
    requires n <= |target| && n <= |used|
  {
    if n == 0 then 0
    else Consumed(used, guess, target, c, n - 1)
         + (if used[n - 1] && target[n - 1] == c && !IsHit(guess, target, n - 1) then 1 else 0)
  }

  lemma {:induction false} ConsumedNone(used: seq<bool>, guess: string, target: string, c: char, n: nat)
    requires n <= |target| && n <= |used|
    requires forall k :: 0 <= k < n && used[k] ==> IsHit(guess, target, k)
    ensures Consumed(used, guess, target, c, n) == 0
  {
    if n > 0 {
      ConsumedNone(used, guess, target, c, n - 1);
    }
  }

  /** Consumed copies never outnumber spare copies; when one spare copy is unused there are fewer. */
  lemma {:induction false} ConsumedBelowSpare(used: seq<bool>, guess: string, target: string, c: char, n: nat, j: nat)
    requires n <= |target| && n <= |used|
    ensures Consumed(used, guess, target, c, n) <= Spare(guess, target, c, n)
    ensures j < n && !used[j] && target[j] == c && !IsHit(guess, target, j)
            ==> Consumed(used, guess, target, c, n) < Spare(guess, target, c, n)
  {
    if n > 0 {
      ConsumedBelowSpare(used, guess, target, c, n - 1, j);
    }
  }

  /** When every copy of `c` in the target is used, all spare copies are consumed. */
  lemma {:induction false} ConsumedAll(used: seq<bool>, guess: string, target: string, c: char, n: nat)
    requires n <= |target| && n <= |used|
    requires forall k :: 0 <= k < n ==> used[k] || target[k] != c
    ensures Consumed(used, guess, target, c, n) == Spare(guess, target, c, n)
  {
    if n > 0 {
      ConsumedAll(used, guess, target, c, n - 1);
    }
  }

  /** Marking one more target position used consumes one copy of its own letter and no other. */
  lemma {:induction false} ConsumeOne(used: seq<bool>, guess: string, target: string, c: char, n: nat, j: nat)
    requires n <= |target| && n == |used| && j < n
    requires !used[j] && !IsHit(guess, target, j)
    ensures Consumed(used[j := true], guess, target, c, n)
            == Consumed(used, guess, target, c, n) + (if target[j] == c then 1 else 0)
  {
    if n > 0 && j < n - 1 {
      ConsumeOne(used[..n - 1], guess, target, c, n - 1, j);
      ConsumedPrefix(used, guess, target, c, n - 1);
      ConsumedPrefix(used[j := true], guess, target, c, n - 1);
      assert used[..n - 1][j := true] == used[j := true][..n - 1];
    } else if n > 0 {
      ConsumedPrefix(used, guess, target, c, n - 1);
      ConsumedPrefix(used[j := true], guess, target, c, n - 1);
      assert used[..n - 1] == used[j := true][..n - 1];
    }
  }

  /** `Consumed` below `n` only looks at the first `n` flags. */
  lemma {:induction false} ConsumedPrefix(used: seq<bool>, guess: string, target: string, c: char, n: nat)
    requires n <= |target| && n <= |used|
    decreases n
    ensures Consumed(used, guess, target, c, n) == Consumed(used[..n], guess, target, c, n)
  {
    if n > 0 {
      ConsumedPrefix(used[..n], guess, target, c, n - 1);
      ConsumedPrefix(used, guess, target, c, n - 1);
      assert used[..n][..n - 1] == used[..n - 1];
    }
  }

  /** The consumption invariant of pass two after `i` guess positions. */
  ghost predicate ClaimsSettled(used: seq<bool>, guess: string, target: string, i: nat)
    requires i <= |target| == |used|
  {
    forall c :: Consumed(used, guess, target, c, |target|)
                == Min(Misses(guess, target, c, i), Spare(guess, target, c, |target|))
  }

  /**
   * The state of pass two after `i` guess positions: the first `i` statuses
   * are final, the rest still hold pass one's marks, every hit is used, and
   * the consumption invariant holds.
   */
  ghost predicate Settled(r: seq<Status>, u: seq<bool>, guess: string, target: string, i: nat) {
    && |r| == |u| == |target|
    && i <= |target|
    && (forall k :: 0 <= k < i ==> r[k] == Expected(guess, target, k))
    && (forall k :: i <= k < |target| ==> r[k] == if IsHit(guess, target, k) then Correct else Absent)
    && (forall k :: 0 <= k < |target| && IsHit(guess, target, k) ==> u[k])
    && ClaimsSettled(u, guess, target, i)
  }

  /** Pass one's marks are the state of pass two before its first position. */
  lemma SettledStart(r: seq<Status>, u: seq<bool>, guess: string, target: string)
    requires |r| == |u| == |target|
    requires forall k :: 0 <= k < |target| ==> u[k] == IsHit(guess, target, k)
    requires forall k :: 0 <= k < |target| ==> r[k] == if IsHit(guess, target, k) then Correct else Absent
    ensures Settled(r, u, guess, target, 0)
  {
    forall c ensures Consumed(u, guess, target, c, |target|) == 0 {
      ConsumedNone(u, guess, target, c, |target|);
    }
  }

  /** Once every position is settled, the statuses are the reference feedback. */
  lemma SettledEnd(r: seq<Status>, u: seq<bool>, guess: string, target: string)
    requires Settled(r, u, guess, target, |target|)
    ensures r == Feedback(guess, target)
  {
  }

  /** A hit, or a position beyond the guess, claims nothing and keeps its mark. */
  lemma SkipClaim(r: seq<Status>, u: seq<bool>, guess: string, target: string, i: nat)
    requires Settled(r, u, guess, target, i) && i < |target|
    requires r[i] == Correct || i >= |guess|
    ensures Settled(r, u, guess, target, i + 1)
  {
  }

  /** Position `i` takes the unused copy at `j`: it becomes present, and the state moves on. */
  lemma TakeClaim(r: seq<Status>, u: seq<bool>, guess: string, target: string, i: nat, j: nat)
    requires Settled(r, u, guess, target, i) && i < |target| && j < |target|
    requires i < |guess| && r[i] != Correct
    requires !u[j] && target[j] == guess[i]
    ensures Settled(r[i := Present], u[j := true], guess, target, i + 1)
  {
    var n := |target|;
    assert !IsHit(guess, target, i) && !IsHit(guess, target, j);
    ConsumedBelowSpare(u, guess, target, guess[i], n, j);
    assert Expected(guess, target, i) == Present;
    forall c ensures Consumed(u[j := true], guess, target, c, n)
                     == Min(Misses(guess, target, c, i + 1), Spare(guess, target, c, n)) {
      ConsumeOne(u, guess, target, c, n, j);
    }
  }

  /** Position `i` finds no unused copy: it stays absent, and the state moves on. */
  lemma NoClaim(r: seq<Status>, u: seq<bool>, guess: string, target: string, i: nat)
    requires Settled(r, u, guess, target, i) && i < |target|
    requires i < |guess| && r[i] != Correct
    requires forall k :: 0 <= k < |target| ==> u[k] || target[k] != guess[i]
    ensures Settled(r, u, guess, target, i + 1)
  {
    assert !IsHit(guess, target, i);
    ConsumedAll(u, guess, target, guess[i], |target|);
  }

  /**
   * `evaluateGuess(guess, target)`: pass one marks the hits correct and uses
   * them up; pass two gives each remaining guess letter the first unused
   * copy of it in the target, or leaves it absent. A guess shorter than the
   * target leaves the missing positions absent, as `guess[i]` is then
   * `undefined`.
   */
  method EvaluateGuess(guess: string, target: string) returns (result: seq<Status>)
    ensures result == Feedback(guess, target)
  {
    var res, used := MarkHits(guess, target);
    ClaimPresent(res, used, guess, target);
    result := res[..];
  }

  /** Pass one of `evaluateGuess`: every hit is correct and used, nothing else is. */
  method MarkHits(guess: string, target: string) returns (res: array<Status>, used: array<bool>)
    ensures fresh(res) && fresh(used)
    ensures res.Length == used.Length == |target|
    ensures forall k :: 0 <= k < |target| ==> used[k] == IsHit(guess, target, k)
    ensures forall k :: 0 <= k < |target| ==> res[k] == if IsHit(guess, target, k) then Correct else Absent
  {
    var n := |target|;
    res := new Status[n](_ => Absent);
    used := new bool[n](_ => false);
    for i := 0 to n
      invariant forall k :: 0 <= k < n ==> used[k] == (k < i && IsHit(guess, target, k))
      invariant forall k :: 0 <= k < n ==> res[k] == if k < i && IsHit(guess, target, k) then Correct else Absent
    {
      if i < |guess| && guess[i] == target[i] {
        res[i] := Correct;
        used[i] := true;
      }
    }
  }

  /** Pass two of `evaluateGuess`: starting from pass one's marks, it leaves exactly the reference feedback. */
  method ClaimPresent(res: array<Status>, used: array<bool>, guess: string, target: string)
    requires res.Length == used.Length == |target|
    requires forall k :: 0 <= k < |target| ==> used[k] == IsHit(guess, target, k)
    requires forall k :: 0 <= k < |target| ==> res[k] == if IsHit(guess, target, k) then Correct else Absent
    modifies res, used
    ensures res[..] == Feedback(guess, target)
  {
    var n := |target|;
    SettledStart(res[..], used[..], guess, target);
    for i := 0 to n
      invariant Settled(res[..], used[..], guess, target, i)
    {
      if res[i] == Correct || i >= |guess| {
        SkipClaim(res[..], used[..], guess, target, i);
      } else {
        var j := FirstUnused(used, guess[i], target);
        ghost var r0, u0 := res[..], used[..];
        if j < n {
          TakeClaim(r0, u0, guess, target, i, j);
          res[i] := Present;
          used[j] := true;
          assert res[..] == r0[i := Present];
          assert used[..] == u0[j := true];
        } else {
          NoClaim(r0, u0, guess, target, i);
        }
      }
    }
    SettledEnd(res[..], used[..], guess, target);
  }

  /** The inner search of pass two: the first target position holding `c` that is not used yet, or `|target|`. */
  method FirstUnused(used: array<bool>, c: char, target: string) returns (j: nat)
    requires used.Length == |target|
    ensures j <= |target|
    ensures j < |target| ==> !used[j] && target[j] == c
    ensures j == |target| ==> forall k :: 0 <= k < |target| ==> used[k] || target[k] != c
  {
    j := 0;
    while j < |target|
      invariant j <= |target|
      invariant forall k :: 0 <= k < j ==> used[k] || target[k] != c
    {
      if !used[j] && c == target[j] {
        return;
      }
      j := j + 1;
    }
  }

  // ---------------------------------------------------------------------------
  // What the evaluation reveals about each letter
  // ---------------------------------------------------------------------------

  /** Positions below `n` whose guess letter is `c` and whose status is not absent. */
  function Revealed(statuses: seq<Status>, guess: string, c: char, n: nat): nat
    requires n <= |statuses| && n <= |guess|
  {
    if n == 0 then 0
    else Revealed(statuses, guess, c, n - 1) + (if guess[n - 1] == c && statuses[n - 1] != Absent then 1 else 0)
  }

  /** Hits below `n` on the letter `c`. */
  function HitsOn(guess: string, target: string, c: char, n: nat): nat
    requires n <= |target|
  {
    if n == 0 then 0
    else HitsOn(guess, target, c, n - 1) + (if IsHit(guess, target, n - 1) && target[n - 1] == c then 1 else 0)
  }

  lemma {:induction false} RevealedSplit(guess: string, target: string, c: char, n: nat)
    requires |guess| == |target| && n <= |target|
    ensures Revealed(Feedback(guess, target), guess, c, n)
            == HitsOn(guess, target, c, n) + Min(Misses(guess, target, c, n), Spare(guess, target, c, |target|))
  {
    if n > 0 {
      RevealedSplit(guess, target, c, n - 1);
    }
  }

  lemma {:induction false} GuessCountSplit(guess: string, target: string, c: char, n: nat)
    requires |guess| == |target| && n <= |target|
    ensures multiset(guess[..n])[c] == HitsOn(guess, target, c, n) + Misses(guess, target, c, n)
  {
    if n > 0 {
      GuessCountSplit(guess, target, c, n - 1);
      assert guess[..n] == guess[..n - 1] + [guess[n - 1]];
    }
  }

  lemma {:induction false} TargetCountSplit(guess: string, target: string, c: char, n: nat)
    requires n <= |target|
    ensures multiset(target[..n])[c] == HitsOn(guess, target, c, n) + Spare(guess, target, c, n)
  {
    if n > 0 {
      TargetCountSplit(guess, target, c, n - 1);
      assert target[..n] == target[..n - 1] + [target[n - 1]];
    }
  }

  /**
   * The duplicate-aware promise of the two-pass scorer: for every letter,
   * the guess positions holding it that are coloured correct or present
   * number exactly the smaller of its counts in guess and target.
   */
  lemma LetterRevealCount(guess: string, target: string, c: char)
    requires |guess| == |target|
    ensures Revealed(Feedback(guess, target), guess, c, |guess|)
            == Min(multiset(guess)[c], multiset(target)[c])
  {
    RevealedSplit(guess, target, c, |target|);
    GuessCountSplit(guess, target, c, |target|);
    TargetCountSplit(guess, target, c, |target|);
    assert guess[..|guess|] == guess;
    assert target[..|target|] == target;
  }

  predicate AllCorrect(statuses: seq<Status>) {
    forall i :: 0 <= i < |statuses| ==> statuses[i] == Correct
  }

  /** For equal lengths, a guess scores all correct exactly when it is the target. */
  lemma WinExactlyOnTarget(guess: string, target: string)
    requires |guess| == |target|
    ensures AllCorrect(Feedback(guess, target)) <==> guess == target
  {
    if AllCorrect(Feedback(guess, target)) {
      forall i | 0 <= i < |target| ensures guess[i] == target[i] {
        assert Feedback(guess, target)[i] == Correct;
      }
    }
  }

  /** Guessing the target itself scores every position correct. */
  lemma SelfGuessAllCorrect(target: string)
    ensures Feedback(target, target) == seq(|target|, _ => Correct)
  {
  }

  // ---------------------------------------------------------------------------
  // The local word set
  // ---------------------------------------------------------------------------

  /** The two forms a bank word is accepted in: accents stripped and upper-cased, and upper-cased only. */
  function WordForms(bank: Bank): set<string> {
    (set i | 0 <= i < |bank| :: Normalize(bank[i].word)) + (set i | 0 <= i < |bank| :: Upper(bank[i].word))
  }

  /** Adding one entry to a bank adds exactly its two forms. */
  lemma WordFormsSnoc(bank: Bank, e: WordEntry)
    ensures WordForms(bank + [e]) == WordForms(bank) + {Normalize(e.word), Upper(e.word)}
  {
    var b := bank + [e];
    forall s | s in WordForms(b) ensures s in WordForms(bank) + {Normalize(e.word), Upper(e.word)} {
      var k :| 0 <= k < |b| && (s == Normalize(b[k].word) || s == Upper(b[k].word));
      if k < |bank| {
        assert b[k] == bank[k];
      }
    }
    assert b[|bank|] == e;
    forall s | s in WordForms(bank) ensures s in WordForms(b) {
      var k :| 0 <= k < |bank| && (s == Normalize(bank[k].word) || s == Upper(bank[k].word));
      assert b[k] == bank[k];
    }
  }

  /** `buildNormalizedWordSet(bank)`: the set built entry by entry. */
  method BuildNormalizedWordSet(bank: Bank) returns (forms: set<string>)
    ensures forms == WordForms(bank)
  {
    forms := {};
    for i := 0 to |bank|
      invariant forms == WordForms(bank[..i])
    {
      forms := forms + {Normalize(bank[i].word)};
      forms := forms + {Upper(bank[i].word)};
      WordFormsSnoc(bank[..i], bank[i]);
      assert bank[..i + 1] == bank[..i] + [bank[i]];
    }
    assert bank[..|bank|] == bank;
  }

  // ---------------------------------------------------------------------------
  // Word validation
  // ---------------------------------------------------------------------------

  /**
   * What the per-language remote check answers: it confirms the word, it
   * answers that the word is not a word, or the call fails (no connection, a
   * non-success status, a body that does not parse). The English dictionary
   * service answers an unknown word with a non-success status, so for English
   * an unknown word arrives as `Failed`.
   */
  datatype Remote = Confirmed | Rejected | Failed

  /** The outcome of `validateWord`: the returned boolean and how often `onNetworkError` was called. */
  datatype Validation = Validation(accepted: bool, networkErrorCalls: nat)

  /** Languages with a remote validator: English by dictionary, the others by spell check. */
  predicate HasRemoteCheck(lang: string) {
    lang == "en" || lang == "fr" || lang == "es" || lang == "cz"
  }

  /** The fast path: the normalised or the upper-cased word is in the local set. */
  predicate LocallyKnown(word: string, normalizedSet: set<string>) {
    Normalize(word) in normalizedSet || Upper(word) in normalizedSet
  }

  /** `validateWord(word, normalizedSet, lang, simulateNetworkError, onNetworkError)`, with the remote answer as input. */
  function ValidateWord(word: string, normalizedSet: set<string>, lang: string, simulateNetworkError: bool, remote: Remote)
    : (v: Validation)
    ensures LocallyKnown(word, normalizedSet) ==> v == Validation(true, 0)
    ensures !LocallyKnown(word, normalizedSet) && simulateNetworkError ==> v == Validation(false, 1)
    ensures !LocallyKnown(word, normalizedSet) && !simulateNetworkError && !HasRemoteCheck(lang) ==> v == Validation(false, 0)
    ensures !LocallyKnown(word, normalizedSet) && !simulateNetworkError && HasRemoteCheck(lang) ==>
              v == Validation(remote == Confirmed, if remote == Failed then 1 else 0)
    ensures v.accepted ==> LocallyKnown(word, normalizedSet) || (HasRemoteCheck(lang) && remote == Confirmed && !simulateNetworkError)
    ensures v.networkErrorCalls <= 1
    ensures v.networkErrorCalls == 1 ==> !v.accepted
  {
    if LocallyKnown(word, normalizedSet) then Validation(true, 0)
    else if simulateNetworkError then Validation(false, 1)
    else if HasRemoteCheck(lang) then
      match remote
      case Confirmed => Validation(true, 0)
      case Rejected => Validation(false, 0)
      case Failed => Validation(false, 1)
    else Validation(false, 0)
  }

  /** Every bank word is accepted locally, in its own spelling, whatever the network does. */
  lemma BankWordsAccepted(bank: Bank, i: nat, lang: string, simulateNetworkError: bool, remote: Remote)
    requires i < |bank|
    ensures ValidateWord(bank[i].word, WordForms(bank), lang, simulateNetworkError, remote) == Validation(true, 0)
  {
  }

}
