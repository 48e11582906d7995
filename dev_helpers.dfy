/**
 * The rows the developer board actions fill in (hooks/useDevHelpers.js, and
 * the identical copies in screens/MainGame.js): bank words other than the
 * answer, each scored against the answer as a real guess would be.
 */
module DevHelpers {
  import opened Options
  import opened Constants
  import opened Text
  import opened Seqs
  import opened WordBank
  import opened WordUtils
  import opened GameLogic

  /** `bank.map(w => w.word.toUpperCase())`. */
  function UpperWords(bank: Bank): (r: seq<string>)
    ensures |r| == |bank| && forall i :: 0 <= i < |bank| ==> r[i] == Upper(bank[i].word)
  {
    seq(|bank|, i requires 0 <= i < |bank| => Upper(bank[i].word))
  }

  /** The first `n` upper-cased bank words that differ from the answer. */
  function FillerWords(bank: Bank, target: string, n: nat): (r: seq<string>)
    ensures forall i :: 0 <= i < |r| ==> r[i] != target
    ensures var others := Filter(UpperWords(bank), (w: string) => w != target);
            |r| == (if |others| < n then |others| else n) && r == others[..|r|]
  {
    Take(Filter(UpperWords(bank), (w: string) => w != target), n)
  }

  /** One row as the board actions build it: the word's letters, scored like a submitted guess. */
  function ScoredEntry(word: string, target: string): (e: GuessEntry)
    ensures e.letters == word && e.statuses == Feedback(Normalize(word), Normalize(target))
  {
    GuessEntry(word, Feedback(Normalize(word), Normalize(target)))
  }

  function ScoredEntries(words: seq<string>, target: string): (r: seq<GuessEntry>)
    ensures |r| == |words| && forall i :: 0 <= i < |words| ==> r[i] == ScoredEntry(words[i], target)
  {
    seq(|words|, i requires 0 <= i < |words| => ScoredEntry(words[i], target))
  }

  /** `devAutofillBoard`'s rows: up to five wrong words. */
  function AutofillEntries(bank: Bank, target: string): (r: seq<GuessEntry>)
    ensures |r| <= NUM_ROWS - 1
    ensures forall i :: 0 <= i < |r| ==> r[i].letters != target
  {
    ScoredEntries(FillerWords(bank, target, NUM_ROWS - 1), target)
  }

  /** The winning row: the answer's letters, all correct. */
  function WinEntry(target: string): (e: GuessEntry)
    ensures e.letters == target && |e.statuses| == |target|
    ensures AllCorrect(e.statuses)
  {
    GuessEntry(target, seq(|target|, _ => Correct))
  }

  /** `devAutoWin6`'s rows: the filler rows, then the winning row, six at most. */
  function AutoWinEntries(bank: Bank, target: string): (r: seq<GuessEntry>)
    ensures 1 <= |r| <= NUM_ROWS
    ensures r[|r| - 1] == WinEntry(target)
    ensures forall i :: 0 <= i < |r| - 1 ==> r[i].letters != target
  {
    AutofillEntries(bank, target) + [WinEntry(target)]
  }

  /** `devForceLose`'s rows: up to six wrong words. */
  function ForceLoseEntries(bank: Bank, target: string): (r: seq<GuessEntry>)
    ensures |r| <= NUM_ROWS
    ensures forall i :: 0 <= i < |r| ==> r[i].letters != target
  {
    Take(ScoredEntries(FillerWords(bank, target, NUM_ROWS), target), NUM_ROWS)
  }

  /** A row that is not a winning one scores not all correct, when the words are plain capitals of one length. */
  lemma FillerRowsDoNotWin(word: string, target: string)
    requires AllAsciiUpper(word) && AllAsciiUpper(target) && |word| == |target|
    requires word != target
    ensures !AllCorrect(ScoredEntry(word, target).statuses)
  {
    NormalizeTyped(word);
    NormalizeTyped(target);
    WinExactlyOnTarget(word, target);
  }

  /** After an automatic win every letter of the answer shows correct on the keyboard. */
  lemma AutoWinColoursTheAnswer(bank: Bank, target: string, i: nat)
    requires i < |target|
    ensures Lookup(KeyboardFrom(AutoWinEntries(bank, target)), target[i]) == Some(Correct)
  {
    var gs := AutoWinEntries(bank, target);
    var w := WinEntry(target);
    assert gs[..|gs| - 1] == AutofillEntries(bank, target);
    CorrectLetterEndsCorrect(KeyboardFrom(gs[..|gs| - 1]), w, |w.letters|, i);
  }

}
