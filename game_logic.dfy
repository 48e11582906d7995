/**
 * Keyboard colouring and the local hint lookups of utils/gameLogic.js.
 */
module GameLogic {
  import opened Options
  import opened Constants
  import opened Text
  import opened Seqs
  import opened WordBank

  /** One submitted row: its letters and their statuses. */
  datatype GuessEntry = GuessEntry(letters: string, statuses: seq<Status>)

  /** The letter to status map behind the on-screen keyboard; a missing key has no colour yet. */
  type Keyboard = map<char, Status>

  function Lookup(m: Keyboard, ltr: char): Option<Status> {
    if ltr in m then Some(m[ltr]) else None
  }

  /** `entry.statuses[i]`, or nothing when the statuses are shorter than the letters. */
  function StatusAt(e: GuessEntry, i: nat): Option<Status> {
    if i < |e.statuses| then Some(e.statuses[i]) else None
  }

  /** The order keys are upgraded along: no colour < absent < present < correct. */
  function Rank(s: Option<Status>): nat {
    match s
    case None => 0
    case Some(Unknown) => 0
    case Some(Absent) => 1
    case Some(Present) => 2
    case Some(Correct) => 3
  }

  function Max(a: nat, b: nat): nat {
    if a < b then b else a
  }

  /** The update for one letter, branch for branch as in `mergeLetterStatuses`. */
  function MergeStep(m: Keyboard, ltr: char, st: Option<Status>): Keyboard {
    var prev := Lookup(m, ltr);
    if prev == Some(Correct) then m
    else if prev == Some(Present) && st == Some(Absent) then m
    else if st == Some(Correct) || (st == Some(Present) && prev == None) || (st == Some(Absent) && prev == None) then
      m[ltr := st.value]
    else if prev == Some(Present) && st == Some(Correct) then m[ltr := Correct]
    else if prev == Some(Absent) && (st == Some(Present) || st == Some(Correct)) then m[ltr := st.value]
    else m
  }

  /** The map after the first `n` letters of `e` have been folded into `m`. */
  function MergedUpTo(m: Keyboard, e: GuessEntry, n: nat): Keyboard
    requires n <= |e.letters|
  {
    if n == 0 then m else MergeStep(MergedUpTo(m, e, n - 1), e.letters[n - 1], StatusAt(e, n - 1))
  }

  function Merged(m: Keyboard, e: GuessEntry): Keyboard {
    MergedUpTo(m, e, |e.letters|)
  }

  /**
   * `mergeLetterStatuses(oldS, entry)`: a copy of the map, updated letter by
   * letter. The input map is a value, so the caller's map is untouched.
   */
  method MergeLetterStatuses(oldS: Keyboard, entry: GuessEntry) returns (m: Keyboard)
    ensures m == Merged(oldS, entry)
  {
    m := oldS;
    for i := 0 to |entry.letters|
      invariant m == MergedUpTo(oldS, entry, i)
    {
      var ltr := entry.letters[i];
      var st := StatusAt(entry, i);
      var prev := Lookup(m, ltr);
      if prev == Some(Correct) {
        continue;
      }
      if prev == Some(Present) && st == Some(Absent) {
        continue;
      }
      if st == Some(Correct) || (st == Some(Present) && prev == None) || (st == Some(Absent) && prev == None) {
        m := m[ltr := st.value];
      } else if prev == Some(Present) && st == Some(Correct) {
        m := m[ltr := Correct];
      } else if prev == Some(Absent) && (st == Some(Present) || st == Some(Correct)) {
        m := m[ltr := st.value];
      }
    }
  }

  // ---------------------------------------------------------------------------
  // Properties of one merge step and of the whole merge
  // ---------------------------------------------------------------------------

  /** One step only touches its own letter, never lowers a rank, and leaves a correct letter alone. */
  lemma MergeStepFacts(m: Keyboard, ltr: char, st: Option<Status>, k: char)
    ensures k != ltr ==> Lookup(MergeStep(m, ltr, st), k) == Lookup(m, k)
    ensures Rank(Lookup(m, k)) <= Rank(Lookup(MergeStep(m, ltr, st), k))
    ensures Lookup(m, k) == Some(Correct) ==> Lookup(MergeStep(m, ltr, st), k) == Some(Correct)
    ensures Lookup(m, k) == Some(Present) ==> Lookup(MergeStep(m, ltr, st), k) in {Some(Present), Some(Correct)}
  {
  }

  /** A key that is not one of the entry's letters keeps its value. */
  lemma {:induction false} MergeKeepsOtherKeys(m: Keyboard, e: GuessEntry, n: nat, k: char)
    requires n <= |e.letters|
    requires forall i :: 0 <= i < n ==> e.letters[i] != k
    ensures Lookup(MergedUpTo(m, e, n), k) == Lookup(m, k)
  {
    if n > 0 {
      MergeKeepsOtherKeys(m, e, n - 1, k);
      MergeStepFacts(MergedUpTo(m, e, n - 1), e.letters[n - 1], StatusAt(e, n - 1), k);
    }
  }

  /** Merging never lowers any key: correct stays correct, present is never demoted. */
  lemma {:induction false} MergeMonotone(m: Keyboard, e: GuessEntry, n: nat, k: char)
    requires n <= |e.letters|
    ensures Rank(Lookup(m, k)) <= Rank(Lookup(MergedUpTo(m, e, n), k))
    ensures Lookup(m, k) == Some(Correct) ==> Lookup(MergedUpTo(m, e, n), k) == Some(Correct)
    ensures Lookup(m, k) == Some(Present) ==> Lookup(MergedUpTo(m, e, n), k) in {Some(Present), Some(Correct)}
  {
    if n > 0 {
      MergeMonotone(m, e, n - 1, k);
      MergeStepFacts(MergedUpTo(m, e, n - 1), e.letters[n - 1], StatusAt(e, n - 1), k);
    }
  }

  /** A status the scorer can produce: anything but unknown. */
  predicate Revealing(s: Status) {
    s != Unknown
  }

  /** The map holds only revealing statuses. */
  predicate WellColoured(m: Keyboard) {
    forall k :: k in m ==> Revealing(m[k])
  }

  function BestIn(e: GuessEntry, n: nat, k: char): nat
    requires n <= |e.letters|
  {
    if n == 0 then 0
    else Max(BestIn(e, n - 1, k), if e.letters[n - 1] == k then Rank(StatusAt(e, n - 1)) else 0)
  }

  /**
   * For a map without unknown statuses, each key ends
   * at the maximum of its old rank and the ranks the entry gives it.
   */
  lemma {:induction false} MergeIsMaximum(m: Keyboard, e: GuessEntry, n: nat, k: char)
    requires n <= |e.letters|
    requires WellColoured(m)
    ensures WellColoured(MergedUpTo(m, e, n))
    ensures Rank(Lookup(MergedUpTo(m, e, n), k)) == Max(Rank(Lookup(m, k)), BestIn(e, n, k))
  {
    if n > 0 {
      MergeIsMaximum(m, e, n - 1, k);
      var before := MergedUpTo(m, e, n - 1);
      MergeStepFacts(before, e.letters[n - 1], StatusAt(e, n - 1), k);
    }
  }

  /** A letter the entry marks correct ends correct. */
  lemma {:induction false} CorrectLetterEndsCorrect(m: Keyboard, e: GuessEntry, n: nat, i: nat)
    requires i < n <= |e.letters|
    requires StatusAt(e, i) == Some(Correct)
    ensures Lookup(MergedUpTo(m, e, n), e.letters[i]) == Some(Correct)
  {
    if n - 1 == i {
      MergeMonotone(m, e, n - 1, e.letters[i]);
    } else {
      CorrectLetterEndsCorrect(m, e, n - 1, i);
      MergeStepFacts(MergedUpTo(m, e, n - 1), e.letters[n - 1], StatusAt(e, n - 1), e.letters[i]);
    }
  }

  /** The keyboard built by folding the entries one by one into an empty map. */
  function KeyboardFrom(gs: seq<GuessEntry>): Keyboard {
    if gs == [] then map[] else Merged(KeyboardFrom(gs[..|gs| - 1]), gs[|gs| - 1])
  }

  /** Adding a row never lowers any key of the keyboard. */
  lemma KeyboardNeverRegresses(gs: seq<GuessEntry>, e: GuessEntry, k: char)
    ensures Rank(Lookup(KeyboardFrom(gs), k)) <= Rank(Lookup(KeyboardFrom(gs + [e]), k))
    ensures Lookup(KeyboardFrom(gs), k) == Some(Correct) ==> Lookup(KeyboardFrom(gs + [e]), k) == Some(Correct)
  {
    assert (gs + [e])[..|gs|] == gs;
    MergeMonotone(KeyboardFrom(gs), e, |e.letters|, k);
  }

  // ---------------------------------------------------------------------------
  // Local hints
  // ---------------------------------------------------------------------------

  /** The first bank entry whose normalised word is `key`. */
  function EntryByKey(bank: Bank, key: string): (r: Option<nat>)
    ensures r.Some? ==> r.value < |bank| && Normalize(bank[r.value].word) == key
    ensures r.Some? ==> forall j :: 0 <= j < r.value ==> Normalize(bank[j].word) != key
    ensures r.None? <==> forall j :: 0 <= j < |bank| ==> Normalize(bank[j].word) != key
  {
    FindFirst(bank, (x: WordEntry) => Normalize(x.word) == key)
  }

  /**
   * `getSynonymsLocal(target, bank)`: the synonyms of the first entry whose
   * normalised word is the normalised target, without those that normalise
   * to it; [] when there is no such entry.
   */
  function GetSynonymsLocal(target: string, bank: Bank): (r: seq<string>)
    ensures EntryByKey(bank, Normalize(target)).None? ==> r == []
    ensures EntryByKey(bank, Normalize(target)).Some? ==>
              var syns := bank[EntryByKey(bank, Normalize(target)).value].synonyms;
              IsSubsequence(r, syns)
              && (forall s :: s in syns ==> (s in r <==> Normalize(s) != Normalize(target)))
    ensures forall s :: s in r ==> Normalize(s) != Normalize(target)
  {
    var key := Normalize(target);
    match EntryByKey(bank, key)
    case None => []
    case Some(i) => Filter(bank[i].synonyms, (s: string) => Normalize(s) != key)
  }

  /**
   * `getDefinitionLocal(target, bank)`: the definition of the first entry
   * whose normalised word is the normalised target, with every
   * non-overlapping case-insensitive occurrence of that key deleted; '' when
   * there is no such entry.
   */
  function GetDefinitionLocal(target: string, bank: Bank): (r: string)
    ensures EntryByKey(bank, Normalize(target)).None? ==> r == []
    ensures EntryByKey(bank, Normalize(target)).Some? ==>
              r == ReplaceIgnoreCase(bank[EntryByKey(bank, Normalize(target)).value].definition, Normalize(target), [])
  {
    var key := Normalize(target);
    match EntryByKey(bank, key)
    case None => []
    case Some(i) => ReplaceIgnoreCase(bank[i].definition, key, [])
  }

  /** A definition that never mentions the key comes back unchanged. */
  lemma DefinitionWithoutKeyUnchanged(target: string, bank: Bank)
    requires Normalize(target) != []
    requires EntryByKey(bank, Normalize(target)).Some?
    requires !ContainsIgnoringCase(bank[EntryByKey(bank, Normalize(target)).value].definition, Normalize(target))
    ensures GetDefinitionLocal(target, bank) == bank[EntryByKey(bank, Normalize(target)).value].definition
  {
    ReplaceWithoutOccurrence(bank[EntryByKey(bank, Normalize(target)).value].definition, Normalize(target), []);
  }

  /** Scanning past a first letter that starts no occurrence keeps it. */
  lemma KeepFront(s: string, pat: string, rep: string)
    requires pat != [] && s != [] && !MatchesAt(s, pat, 0)
    ensures ReplaceIgnoreCase(s, pat, rep) == [s[0]] + ReplaceIgnoreCase(s[1..], pat, rep)
  {
  }

  /** An occurrence at the front is replaced and the scan resumes after it. */
  lemma DropFront(s: string, pat: string, rep: string)
    requires pat != [] && MatchesAt(s, pat, 0)
    ensures ReplaceIgnoreCase(s, pat, rep) == rep + ReplaceIgnoreCase(s[|pat|..], pat, rep)
  {
  }

  /**
   * Deleting occurrences (rather than masking them) can join the pieces
   * around an occurrence into a new one: a key whose first two letters
   * differ, wrapped as first letter, key, rest of the key, comes back as
   * the key itself.
   */
  lemma DeletionJoinsPieces(key: string)
    requires |key| >= 2 && !SameIgnoringCase(key[0], key[1])
    ensures ReplaceIgnoreCase([key[0]] + key + key[1..], key, []) == key
  {
    SkipLeadingLetter(key);
    DeleteLeadingKey(key);
    assert [key[0]] + key[1..] == key;
  }

  /** The leading copy of the first letter starts no occurrence and is kept. */
  lemma SkipLeadingLetter(key: string)
    requires |key| >= 2 && !SameIgnoringCase(key[0], key[1])
    ensures ReplaceIgnoreCase([key[0]] + key + key[1..], key, [])
            == [key[0]] + ReplaceIgnoreCase(key + key[1..], key, [])
  {
    var s := [key[0]] + key + key[1..];
    assert s[1] == key[0];
    assert !SameIgnoringCase(s[0 + 1], key[1]);
    KeepFront(s, key, []);
    assert s[1..] == key + key[1..];
  }

  /** The key at the front is deleted, and what follows it is too short to change. */
  lemma DeleteLeadingKey(key: string)
    requires |key| >= 1
    ensures ReplaceIgnoreCase(key + key[1..], key, []) == key[1..]
  {
    var t := key + key[1..];
    assert MatchesAt(t, key, 0) by {
      assert forall k :: 0 <= k < |key| ==> t[k] == key[k];
    }
    DropFront(t, key, []);
    assert t[|key|..] == key[1..];
    RestUnchanged(key);
  }

  /** The rest of the key is too short to hold the key. */
  lemma RestUnchanged(key: string)
    requires |key| >= 1
    ensures ReplaceIgnoreCase(key[1..], key, []) == key[1..]
  {
    assert !ContainsIgnoringCase(key[1..], key);
    ReplaceWithoutOccurrence(key[1..], key, []);
  }

  /**
   * So a local definition that wraps its own key this way (as
   * "BBRAVERAVE" does for "BRAVE") hands the player the key itself.
   */
  lemma DeletionCanExposeKey(target: string, bank: Bank)
    requires |Normalize(target)| >= 2 && !SameIgnoringCase(Normalize(target)[0], Normalize(target)[1])
    requires EntryByKey(bank, Normalize(target)).Some?
    requires var key := Normalize(target);
             bank[EntryByKey(bank, key).value].definition == [key[0]] + key + key[1..]
    ensures GetDefinitionLocal(target, bank) == Normalize(target)
  {
    DeletionJoinsPieces(Normalize(target));
  }

}
