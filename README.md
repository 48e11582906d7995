# Wordle game core in Dafny

This project models the core of a Wordle-style React Native game. It has
four modes:

- freeplay;
- timed, where each word found within 60 seconds scores a point;
- word of the day, one deterministic word a day, stored once finished;
- streak.

It models four things:

- **Guess scoring and the keyboard.** The two-pass, duplicate-aware scorer
  `evaluateGuess` and `mergeLetterStatuses`, which folds a scored row into
  the keyboard's letter colours.
- **Word acceptance and hints.** The local part of the word validator
  (the remote dictionaries are an oracle) and the bank lookups that supply
  synonyms and definitions. The definition has the answer deleted from it,
  but the deletion can still leave the answer in the text (see the last
  item of the list below).
- **Points.** `calculateScore`, the quadratic hint penalties, the unlock
  thresholds, the daily word index and the per-day storage key.
- **The game screen.** `screens/MainGame.js` is modelled twice:
  - as a state machine on values (module `GameSession`: one step function
    per handler, and the lemmas);
  - as a class `MainGame.Game` whose fields are the screen's state
    variables. Each handler method updates the fields in place and is
    proved to leave exactly the state the matching step function computes.

  The developer panel's board actions are included, in both the screen's
  copy and that of `hooks/useDevHelpers.js`.

Modules follow the source files:

| module | file |
|---|---|
| `Constants` | `utils/constants.js` |
| `WordBank` | `assets/wordBanks/index.js` |
| `Text` | Unicode stand-ins, trimming, case-insensitive replace |
| `WordUtils` | `utils/wordUtils.js` |
| `GameLogic` | `utils/gameLogic.js` |
| `ScoreUtils` | `utils/scoreUtils.js` |
| `GamePoints` | `utils/gamePoints.js` |
| `HintUtils` | `utils/hintUtils.js` |
| `GameHelpers` | `utils/gameHelpers.js` |
| `Dictionary` | `utils/dictionnary.js` |
| `DevHelpers` | the rows the developer board actions build |
| `GameSession` | the screen and timer hook as step functions |
| `MainGame` | the screen as a class |

`Options` and `Seqs` are generic helpers: an option type, and find, filter
and take on sequences.

What the environment supplies becomes an input:

- the clock, as `Today`: the year, month and day, and the whole days since 1 January 2020;
- `Math.random`, as an index `pick` into the bank;
- the remote dictionary's answer, as `Remote`: `Confirmed`, `Rejected` or `Failed`;
- persisted storage, as a map from key to `Stored`.

The model follows the code as written. Where the code differs from what
one might expect, the model keeps the code's behaviour and a lemma states it:

- A loss still credits `wordLength * 10` points (`ScoreUtils.LossScore`).
- The screen unlocks hints at `Math.round(60 * 0.35)` = 21 and
  `Math.round(60 * 0.20)` = 12 seconds left, not at the 15 and 9 of
  `utils/gamePoints.js` (`GameSession.UnlockThresholds`).
- Nothing in the screen calls `calculateScore`. Streak mode therefore
  plays like freeplay, except that its hints are never locked and always
  cost points (`GameSession.HintLocks`, `GameSession.SynonymsPenalty`).
- A timed sixth miss never clears `validating`, and neither does restart.
  No handler of the screen clears it afterwards, so from then on
  every 'TRY' is ignored, whatever events follow
  (`GameSession.TimedLossLeavesValidating`,
  `GameSession.RestartAfterTimedLossIgnoresTry`,
  `GameSession.ValidatingForGood`).
- A stored word-of-the-day record that does not parse is removed, but no
  new answer is picked (`GameSession.WotdCorruptRecordDropped`).
- Loading outside word-of-the-day mode clears the board but keeps
  `gameOver` (`GameSession.LoadOtherModes`).
- The countdown restarts whenever `gameOver` or `totalPoints` changes.
  So every timed win starts a new 60 seconds (`GameSession.TimedWinScores`).
- Deleting the answer from its definition can put the answer back
  together: "BBRAVERAVE" becomes "BRAVE" (`GameLogic.DeletionCanExposeKey`).
- The hook's `devSimulateNetworkError` switches the detected-error flag
  where the screen's own switches the simulation flag
  (`GameSession.ToggleDetectedStep`, `GameSession.ToggleSimulationStep`).
- The hook's `devResetWOTD` resets to a random bank word where the
  screen's resets to today's word (`GameSession.ResetWords`).

## Model

| member | source | states |
|---|---|---|
| Constants.NamesDistinct | utils/constants.js:8-13 | the four status strings are pairwise different, so a status is determined by its name |
| WordBank.BankFor | assets/wordBanks/index.js:7-12 | an unknown language code gives the empty bank; a known one gives its own bank |
| Text.Upper | utils/wordUtils.js:13-14 | upper-casing keeps the length and maps every character by the case map |
| Text.StripAccents | utils/wordUtils.js:4-7 | stripping accents never lengthens a string |
| Text.NormalizeTyped | screens/MainGame.js:254-255 | a guess typed as plain capitals is its own normalised form |
| Text.UpperIdempotent | utils/wordUtils.js:13-14 | upper-casing twice is upper-casing once |
| Text.Trim | utils/hintUtils.js:13 | the trimmed string is the input with exactly its leading and trailing white space removed: a piece of the input, with no space at either end and only spaces around it |
| Text.ReplaceWithoutOccurrence | utils/gameLogic.js:44 | a text with no case-insensitive occurrence of the pattern comes back unchanged from the global replace |
| Text.MaskHidesPattern | utils/hintUtils.js:28 | after replacing every occurrence by a mask that shares no letter with the pattern, the pattern no longer occurs |
| WordUtils.Feedback | utils/wordUtils.js:20-46 | the reference colouring: one status per target position, each given by the position-wise definition `Expected` |
| WordUtils.FeedbackShape | utils/wordUtils.js:22-38 | every status is correct, present or absent, never unknown; position i is correct exactly when guess[i] == target[i] |
| WordUtils.EvaluateGuess | utils/wordUtils.js:20-46 | the two loops over the result and used arrays compute exactly the reference colouring |
| WordUtils.MarkHits | utils/wordUtils.js:22-31 | after the first pass the hits are correct and used, and everything else is absent and unused |
| WordUtils.ClaimPresent | utils/wordUtils.js:34-43 | the second pass turns the first-pass arrays into the reference colouring; each non-hit claims the first unused equal target letter |
| WordUtils.FirstUnused | utils/wordUtils.js:36-41 | the inner loop finds the first unused target position holding the letter, or reports that there is none |
| WordUtils.LetterRevealCount | utils/wordUtils.js:23-43 | for equal-length words, the non-absent positions holding letter c number min(count in guess, count in target) |
| WordUtils.WinExactlyOnTarget | utils/wordUtils.js:26-31 | for equal lengths, every position is correct if and only if the guess is the target |
| WordUtils.SelfGuessAllCorrect | utils/wordUtils.js:26-31 | the target guessed against itself is all correct |
| WordUtils.WordFormsSnoc | utils/wordUtils.js:12-15 | one more bank entry adds its normalised and its upper-cased word to the set, and nothing else |
| WordUtils.BuildNormalizedWordSet | utils/wordUtils.js:10-17 | the loop builds exactly the normalised and upper-cased forms of every bank word |
| WordUtils.ValidateWord | utils/wordUtils.js:62-111 | known locally: accepted with no callback. Otherwise, simulated error: one callback and refused. Otherwise, no remote check for the language: refused with no callback. Otherwise the remote answer decides: confirmed is accepted with no callback, rejected is refused with no callback, a failed call is refused with exactly one callback. Accepted only locally or when the remote confirms; at most one callback, and never with acceptance |
| WordUtils.BankWordsAccepted | utils/wordUtils.js:64-69 | every bank word is accepted by the local fast path of the bank's own set, without a callback, whatever the remote says |
| GameLogic.MergeLetterStatuses | utils/gameLogic.js:6-29 | the copy-and-update loop computes the fold of the letter-by-letter merge over the row |
| GameLogic.MergeStepFacts | utils/gameLogic.js:10-26 | one letter's merge changes no other key, never lowers the rank, keeps correct, and never turns present into absent |
| GameLogic.MergeKeepsOtherKeys | utils/gameLogic.js:7-8 | keys that are not letters of the row keep their status |
| GameLogic.MergeMonotone | utils/gameLogic.js:11-12 | over a whole row, no key's rank goes down; a correct letter stays correct; a present letter ends present or correct |
| GameLogic.MergeIsMaximum | utils/gameLogic.js:8-26 | each key ends at the maximum of its old rank and the best status the row gives it (absent < present < correct) |
| GameLogic.CorrectLetterEndsCorrect | utils/gameLogic.js:14-18 | a letter scored correct anywhere in the row is correct on the keyboard afterwards |
| GameLogic.KeyboardNeverRegresses | screens/MainGame.js:260 | adding a row to the board never lowers any key's colour, and a green key stays green |
| GameLogic.EntryByKey | utils/gameLogic.js:34 | the found entry is the first whose normalised word is the key; none is found only when no entry matches |
| GameLogic.GetSynonymsLocal | utils/gameLogic.js:32-37 | no matching entry gives []. Otherwise the entry's synonyms in order, keeping exactly those that do not normalise to the key |
| GameLogic.GetDefinitionLocal | utils/gameLogic.js:40-45 | no matching entry gives ''. Otherwise the entry's definition with every case-insensitive occurrence of the normalised target deleted |
| GameLogic.DefinitionWithoutKeyUnchanged | utils/gameLogic.js:44 | a definition that never mentions the key is shown as it is |
| GameLogic.DeletionJoinsPieces | utils/gameLogic.js:44 | deleting the key from its first letter, the key and the key's tail leaves the key itself |
| GameLogic.DeletionCanExposeKey | utils/gameLogic.js:43-44 | so the local definition can show the answer in full, despite the intent of deleting it |
| ScoreUtils.RoundHalfUp | utils/scoreUtils.js:82 | `Math.round`: the nearest integer, halves rounded up |
| ScoreUtils.CalculateScore | utils/scoreUtils.js:33-83 | the running-total steps (base, win bonus, unused guesses, time bonus, streak and hard-mode multipliers, loss penalty and clamp, one rounding) compute the closed-form score |
| ScoreUtils.RoundInteger | utils/scoreUtils.js:82 | rounding leaves an integer total as it is |
| ScoreUtils.RoundMonotone | utils/scoreUtils.js:82 | rounding is monotone |
| ScoreUtils.LossScore | utils/scoreUtils.js:45-46 | a loss scores max(0, wordLength*10 - attemptsUsed*5), never negative, whatever time, streak or mode |
| ScoreUtils.PlainWinScore | utils/scoreUtils.js:45-54 | a win with no time, streak or hard mode scores wordLength*10 + 50 + 10*max(0, maxAttempts - attemptsUsed) |
| ScoreUtils.TimeBonusWindow | utils/scoreUtils.js:57-59 | the +20 time bonus applies exactly when 0 < timeTakenSeconds <= 60 |
| ScoreUtils.StreakCapped | utils/scoreUtils.js:62-65 | a streak above 20 scores as a streak of 20; a streak of 0 or less applies no multiplier |
| ScoreUtils.FactorsPositive | utils/scoreUtils.js:62-70 | both multipliers are at least 1 |
| ScoreUtils.WinPointsOrdered | utils/scoreUtils.js:62-70 | the multipliers and the rounding preserve the order of pre-multiplier totals |
| ScoreUtils.WinScoreFallsWithAttempts | utils/scoreUtils.js:53-54 | with the rest fixed, a winning score never grows with the attempts used |
| ScoreUtils.WinScoreGrowsWithLength | utils/scoreUtils.js:45-46 | with the rest fixed, a winning score never shrinks with the word length |
| ScoreUtils.HardModeNeverLess | utils/scoreUtils.js:68-70 | hard mode never scores a win lower |
| ScoreUtils.DocumentedExamples | utils/scoreUtils.js:90-108 | the two documented calls score 173 and 30 |
| GamePoints.SynonymsUnlockAt | utils/gamePoints.js:9-13 | the result is floor(initialSeconds * 25 / 100) |
| GamePoints.DefinitionUnlockAt | utils/gamePoints.js:21-25 | the result is floor(initialSeconds * 15 / 100) |
| GamePoints.UnlockOrder | utils/gamePoints.js:12-24 | for initialSeconds >= 0, 0 <= definition unlock <= synonyms unlock <= initialSeconds |
| GamePoints.SynPenalty | utils/gamePoints.js:33-35 | a used hint costs 0; the penalty is never negative |
| GamePoints.DefPenalty | utils/gamePoints.js:43-45 | a used hint costs 0; the penalty is never negative |
| GamePoints.SynonymsCostTwice | utils/gamePoints.js:34-44 | an unused synonyms hint costs exactly twice an unused definition hint |
| GamePoints.PenaltiesGrowWithRowsLeft | utils/gamePoints.js:33-45 | for rows left >= 0, both penalties are non-decreasing in the rows left |
| HintUtils.EntryFor | utils/hintUtils.js:10 | the found entry is the first whose word equals the target up to case, without accent stripping; none only when none matches |
| HintUtils.GetLocalSynonyms | utils/hintUtils.js:9-15 | no entry gives []. Otherwise the synonyms in order, keeping exactly those whose trimmed upper case differs from the upper-cased target |
| HintUtils.GetLocalDefinition | utils/hintUtils.js:23-29 | '' without an entry or with an empty definition; otherwise every case-insensitive occurrence of the target replaced by "_____" |
| HintUtils.DefinitionWithoutTargetUnchanged | utils/hintUtils.js:27-28 | a definition without an occurrence of the target comes back unchanged |
| HintUtils.DefinitionNeverRevealsTarget | utils/hintUtils.js:21 | the masked definition never contains the target, for a target with no '_' letter |
| GameHelpers.DailyWord | utils/gameHelpers.js:8-15 | '' for an empty bank; otherwise the upper-cased word at daysSince mod the bank's size, an index in range |
| GameHelpers.DailyWordPeriodic | utils/gameHelpers.js:13 | days |bank| apart give the same word |
| GameHelpers.DailyWordWalksTheBank | utils/gameHelpers.js:12-13 | the next day's word is the next bank entry's word, upper-cased, wrapping round to the first entry after the last |
| GameHelpers.Decimal | utils/gameHelpers.js:25-27 | the decimal text of a number is non-empty digits with no leading zero |
| GameHelpers.DecimalRoundTrip | utils/gameHelpers.js:25-27 | reading the decimal text back gives the number |
| GameHelpers.Pad2 | utils/gameHelpers.js:25-26 | `padStart(2, "0")`: text of length two or more is unchanged, shorter text is left-padded with zeros to length two |
| GameHelpers.TwoDigits | utils/gameHelpers.js:25-26 | months and days 1..31 become exactly two digits that read back as the number |
| GameHelpers.TodayKeyParts | utils/gameHelpers.js:22-28 | the key is "@wotd-" + lang + "-" + year + "-" + mm + "-" + dd |
| GameHelpers.DateTailLayout | utils/gameHelpers.js:25-27 | the date tail is "-", two month digits, "-", two day digits |
| GameHelpers.TodayKeyInjective | utils/gameHelpers.js:22-28 | for valid months and days, one language's keys differ on different dates |
| Dictionary.ExactEntry | utils/dictionnary.js:11 | the first entry whose word equals the input exactly (case-sensitive), or none when none does |
| Dictionary.IsValidWord | utils/dictionnary.js:4-7 | true if and only if some entry of the language's bank has exactly this word |
| Dictionary.GetDefinition | utils/dictionnary.js:9-13 | null exactly when the word is not valid; otherwise the first matching entry's definition |
| Dictionary.GetSynonyms | utils/dictionnary.js:15-19 | [] for an unknown word; otherwise the first matching entry's synonyms |
| Dictionary.UnknownLanguage | utils/dictionnary.js:5 | an unknown language gives false, null and [] |
| DevHelpers.UpperWords | hooks/useDevHelpers.js:27 | the bank's words upper-cased, one for one |
| DevHelpers.FillerWords | hooks/useDevHelpers.js:26-29 | the first n upper-cased bank words that differ from the answer, in bank order |
| DevHelpers.ScoredEntry | hooks/useDevHelpers.js:30-34 | a filler row keeps its word's letters and is scored like a submitted guess |
| DevHelpers.ScoredEntries | hooks/useDevHelpers.js:30-35 | one scored row per filler word, in order |
| DevHelpers.AutofillEntries | hooks/useDevHelpers.js:26-35 | at most five rows, none of them the answer |
| DevHelpers.WinEntry | hooks/useDevHelpers.js:61-64 | the answer's letters, all correct |
| DevHelpers.AutoWinEntries | hooks/useDevHelpers.js:51-65 | one to six rows, the last the winning row, none before it the answer |
| DevHelpers.ForceLoseEntries | hooks/useDevHelpers.js:81-90 | at most six rows, none of them the answer |
| DevHelpers.FillerRowsDoNotWin | hooks/useDevHelpers.js:28-33 | a filler word of the answer's length in plain capitals never scores all correct |
| DevHelpers.AutoWinColoursTheAnswer | hooks/useDevHelpers.js:61-66 | after auto-win every letter of the answer is correct on the keyboard |
| GameSession.Initial | screens/MainGame.js:61-92 | on mount the board is empty, the round is on, no points, word 1, 60 seconds, and the storage as given |
| GameSession.KeyboardFromSnoc | screens/MainGame.js:258-260 | the keyboard of the rows plus one is the old keyboard merged with that row |
| GameSession.UnlockThresholds | screens/MainGame.js:105-108 | the screen unlocks at 21 and 12 seconds left, while the points helpers would give 15 and 9 |
| GameSession.HintLocks | screens/MainGame.js:537-541 | synonyms are locked in freeplay and word of the day below 4 rows, and in timed mode above 21 seconds. The definition likewise, below 5 rows or above 12 seconds. Never otherwise, and a locked synonyms button implies a locked definition |
| GameSession.PointsWriteKeepsStorage | screens/MainGame.js:270 | writing the points counter keeps every stored record well-formed |
| GameSession.AcceptKeepsTyping | screens/MainGame.js:254-321 | after an accepted guess the input is empty |
| GameSession.AcceptKeeps | screens/MainGame.js:254-321 | an accepted guess during a running round keeps at most six rows, the keyboard equal to the fold of the rows, and stored records well-formed |
| GameSession.TryKeeps | screens/MainGame.js:235-322 | 'TRY' keeps the input typed and the board consistent |
| GameSession.KeyStepKeepsTyping | screens/MainGame.js:231-234 | every key press keeps the input plain capitals no longer than the answer |
| GameSession.KeyStepKeepsConsistent | screens/MainGame.js:227-326 | every key press keeps the session consistent, so there are never more than six rows |
| GameSession.KeysIgnoredWhenOver | screens/MainGame.js:228-230 | once the round is over, or today's word is done, a key press changes nothing |
| GameSession.DeleteUndoesLetter | screens/MainGame.js:231-234 | a letter typed and then 'DEL' gives back the session exactly |
| GameSession.TryRefused | screens/MainGame.js:235-253 | while validating, 'TRY' is ignored. A wrong length or a rejected word only adds a shake (and, when rejected, notes a network error); rows and keyboard unchanged |
| GameSession.TrySubmits | screens/MainGame.js:241-261 | an accepted word is scored normalised against the normalised answer and handed to the accept step |
| GameSession.AcceptAppends | screens/MainGame.js:257-261 | the input is cleared, and, except on a timed win, exactly one row is appended and folded into the keyboard |
| GameSession.AcceptEnds | screens/MainGame.js:296-320 | outside timed mode the round ends exactly on a win or a sixth row, with the matching message, validating cleared and points unchanged |
| GameSession.AcceptPoints | screens/MainGame.js:264-292 | a timed win adds one point, a timed sixth miss resets them to 0, and nothing else changes them |
| GameSession.SubmittedGuessRecorded | screens/MainGame.js:254-261 | a submitted guess appends its own scored row and merges it into the keyboard (except a timed win, which clears the board) |
| GameSession.RoundEndsOnWinOrSixthRow | screens/MainGame.js:296-307 | outside timed mode a submitted guess ends the round exactly on a win or the sixth row |
| GameSession.TimedWinScores | screens/MainGame.js:266-282 | a timed win: one point more and stored, the word counted, a new target, a clean round, and 60 seconds again |
| GameSession.TimedLossLeavesValidating | screens/MainGame.js:283-291 | a timed sixth miss ends the round with the words found and resets the stored points, but leaves validating set |
| GameSession.RestartAfterTimedLossIgnoresTry | screens/MainGame.js:328-341 | restart keeps validating, so the restarted game's first 'TRY' is ignored |
| GameSession.PressKeepsValidating | screens/MainGame.js:227-325 | with validating set, a key press leaves it set, and 'TRY' changes nothing at all |
| GameSession.ValidatingStays | screens/MainGame.js:241-320 | no handler of the screen (keys, restart, tick, timeout, hints, loading, developer actions) clears validating once it is set |
| GameSession.ValidatingForGood | screens/MainGame.js:235-236 | once validating is left set, it stays set after any sequence of events, and 'TRY' is then ignored |
| GameSession.KeyPointsOnlyInTimedMode | screens/MainGame.js:264-292 | only timed mode changes the points on a key press, and only by +1 or a reset to 0 |
| GameSession.AcceptStoresWotd | screens/MainGame.js:308-319 | a word-of-the-day round that ends stores {target, rows, merged keyboard, win} under today's key and marks the day completed |
| GameSession.LoadRestoresWotd | screens/MainGame.js:155-169 | a stored record for today is restored: answer, rows, keyboard, message, round over, day completed |
| GameSession.WotdStoredAndRestored | screens/MainGame.js:308-319 | a finished day, mounted again, comes back as it was stored and ignores every key |
| GameSession.WotdFreshStart | screens/MainGame.js:177-187 | with no record for today the round starts clear on today's word, with the bank's word set |
| GameSession.WotdCorruptRecordDropped | screens/MainGame.js:170-175 | a record that does not parse is removed and the day is not completed, but the board is left as it was |
| GameSession.LoadOtherModes | screens/MainGame.js:141-150 | outside word of the day the load picks a random word and clears the rows, keeping gameOver and the storage |
| GameSession.LoadKeepsConsistent | screens/MainGame.js:133-189 | the load effect keeps the session consistent |
| GameSession.RestartClears | screens/MainGame.js:328-341 | restart zeroes and stores the points, counts from word 1, clears the round, keeps validating and the message |
| GameSession.TickTimesOut | hooks/useGameTimer.js:15-21 | the last second ends the timed round with the words finished, resets the stored points, and shows 60 seconds again |
| GameSession.TickCountsDown | hooks/useGameTimer.js:13-21 | the countdown runs only in timed mode while the round is on, one second per tick |
| GameSession.TickKeepsConsistent | hooks/useGameTimer.js:15-21 | a tick keeps the session consistent |
| GameSession.SynonymsPenalty | screens/MainGame.js:203-215 | the first paid press adds 4*(6 - rows)^2, later presses and unpaid modes add 0, the list is the local synonyms, the board is untouched |
| GameSession.DefinitionPenalty | screens/MainGame.js:203-225 | the first paid press adds 2*(6 - rows)^2, later presses and unpaid modes add 0, the text is the local definition, the board is untouched |
| GameSession.DevBoardActionsNeedABank | hooks/useDevHelpers.js:25-80 | the three board actions do nothing on an empty bank |
| GameSession.AutofillBoard | hooks/useDevHelpers.js:24-46 | autofill shows its rows, none the answer, with the round on and the keyboard their fold |
| GameSession.AutoWinBoard | hooks/useDevHelpers.js:49-76 | auto-win ends on the all-correct answer row with the round over and the keyboard the fold |
| GameSession.ForceLoseBoard | hooks/useDevHelpers.js:79-101 | force-lose shows at most six wrong rows with the round over and the keyboard the fold |
| GameSession.DevToggles | screens/MainGame.js:427-430 | each network-error switch inverts its flag, and pressing it twice changes nothing |
| GameSession.ResetWotd | hooks/useDevHelpers.js:129-161 | outside word of the day nothing changes; otherwise today's record is gone and a clear round starts on the given word |
| GameSession.ResetWords | hooks/useDevHelpers.js:143-146 | both resets give '' for an empty bank; the hook's word is some upper-cased bank word |
| MainGame.FoldKeyboard | hooks/useDevHelpers.js:36 | the loop of merges computes the keyboard of the rows from an empty map |
| MainGame.Game.constructor | screens/MainGame.js:61-92 | the fields start as the initial session |
| MainGame.Game.TimerEffect | hooks/useGameTimer.js:10-26 | the countdown restarts exactly when gameOver or the points changed |
| MainGame.Game.ClearRoundFields | screens/MainGame.js:143-147 | the round setters leave the cleared round |
| MainGame.Game.StorePoints | screens/MainGame.js:330-331 | the points and their stored copy are both set |
| MainGame.Game.LoadPoints | screens/MainGame.js:122-126 | the stored counter, when present, replaces the points |
| MainGame.Game.LoadSession | screens/MainGame.js:133-189 | the fields end as the load step computes |
| MainGame.Game.TakeBank | screens/MainGame.js:134-139 | the bank and its word set are taken and both word-of-the-day flags cleared |
| MainGame.Game.LoadRoundFields | screens/MainGame.js:141-188 | the random round, the restored record, the dropped record or the daily round, as the mode and storage say |
| MainGame.Game.HandleKeyPress | screens/MainGame.js:227-326 | a key press leaves the state the key step computes |
| MainGame.Game.PressKey | screens/MainGame.js:228-234 | guards, 'DEL', 'TRY' and letters as the handler computes them |
| MainGame.Game.SubmitGuess | screens/MainGame.js:235-261 | 'TRY' validates, scores the guess with the scoring method and accepts it, as the try step computes |
| MainGame.Game.Validate | screens/MainGame.js:241-253 | the answer is the validator's verdict; validating is set and a network error noted |
| MainGame.Game.Accept | screens/MainGame.js:254-321 | the accepted row is handled as the accept step computes |
| MainGame.Game.AppendRow | screens/MainGame.js:257-261 | the row is appended, merged into the keyboard, and the input cleared |
| MainGame.Game.WinTimedRound | screens/MainGame.js:266-282 | the timed-win setters |
| MainGame.Game.LoseTimedRound | screens/MainGame.js:283-291 | the timed-loss setters |
| MainGame.Game.ConcludeRound | screens/MainGame.js:296-307 | the win or sixth-row ending |
| MainGame.Game.RecordRound | screens/MainGame.js:308-319 | the word-of-the-day record is stored under today's key |
| MainGame.Game.HandleRestart | screens/MainGame.js:328-341 | restart as the restart step computes |
| MainGame.Game.OnTimeout | screens/MainGame.js:98-104 | timeout as the timeout step computes |
| MainGame.Game.Tick | hooks/useGameTimer.js:15-21 | one second of the countdown |
| MainGame.Game.HandleSynonymsPress | screens/MainGame.js:207-215 | the synonyms press as its step computes |
| MainGame.Game.HandleDefinitionPress | screens/MainGame.js:217-225 | the definition press as its step computes |
| MainGame.Game.ShowEntries | screens/MainGame.js:356-361 | the rows, their folded keyboard, empty input, the round flag and message are set |
| MainGame.Game.DevAutofillBoard | screens/MainGame.js:344-366 | autofill as its step computes |
| MainGame.Game.DevAutoWin6 | screens/MainGame.js:367-394 | auto-win as its step computes |
| MainGame.Game.DevForceLose | screens/MainGame.js:395-417 | force-lose as its step computes |
| MainGame.Game.DevResetPoints | screens/MainGame.js:127-131 | the points and their stored copy become 0 |
| MainGame.Game.DevSimulateNetworkError | screens/MainGame.js:427-430 | the simulation flag is inverted |
| MainGame.Game.HookSimulateNetworkError | hooks/useDevHelpers.js:123-126 | the detected-error flag is inverted |
| MainGame.Game.ResetWordOfDay | screens/MainGame.js:432-447 | the shared reset of today's word onto a given word |
| MainGame.Game.DevResetWordOfDay | screens/MainGame.js:431-449 | the screen's reset, onto today's word |
| MainGame.Game.HookResetWordOfDay | hooks/useDevHelpers.js:129-161 | the hook's reset, onto a random bank word |

## Left out

- Rendering, animation, navigation and theming are not modelled: the JSX and styles of the screen, the components, the mode menu and the app shell.
- The modal flags, confetti, `reveal`, `lastScore`, `freshWin` and `showDevPanel` are not modelled. They only drive what is drawn.
- `devRevealAnswer` is not modelled. It only sets `reveal` and shows an alert.
- `devRestart` is not modelled separately. It is `handleRestart` plus closing the panel, so `MainGame.Game.HandleRestart` covers it.
- The HTTP dictionaries are not modelled: `utils/apiUtils.js` and the fetch branches of `validateWord`.
  - The remote answer is the `Remote` input.
  - A failed request (including an English 404) is `Failed`, which fires the callback once.
- `stripAccents` (Unicode NFD) and `toUpperCase` are modelled by per-character stand-ins over ASCII, Latin-1 and the Czech letters. Every property except length preservation is stated for arbitrary strings.
- The patterns `new RegExp(key, 'gi')` and `new RegExp(target, "gi")` are modelled as literal, case-insensitive, left-to-right, non-overlapping replacement. A word containing regular-expression metacharacters would behave differently; the banks hold letters only.
- AsyncStorage and JSON are not modelled byte by byte.
  - Storage is a map from key to a parsed value.
  - A stored text that does not parse is `Unparsable`.
  - A record with missing `guesses` or `statuses` fields, and JSON that parses to a non-record, are not distinguished from a full record or from `Unparsable`.
- GameSession.LoadPointsStep: a points entry that is not a number (which `parseInt` would turn into NaN) leaves the points unchanged. Floating-point NaN is not modelled.
- The interleaving of `await`s and asynchronous effects is not modelled. Each handler runs to completion, with React's batched updates applied at its end.
- The 1200 ms `setTimeout` delays are collapsed into immediate transitions. So are the `setInterval` scheduling and the end-of-round confetti effect.
- `Math.random` and `new Date()` become the `pick` and `Today` inputs.
- Dates before 1 January 2020 are not modelled. There `daysSince` is negative, JavaScript's `%` goes negative, and the bank lookup fails.
- ScoreUtils.Score: the float multipliers 0.01 and 1.2 are exact reals, so binary-float rounding at exact halves is not modelled.
- GamePoints.SynonymsUnlockAt: `initialSeconds * 0.25` and `* 0.15` are modelled as exact fractions, so float error is not modelled.
- MainGame.Game: the screen's state variables are grouped into four record fields (`board`, `hints`, `run`, `flags`) instead of one field each. Each handler still states the whole new state.
- The word-bank data files are static data and are not modelled.

## Note on versions

`utils/gameHelpers.js` and the copy inside `screens/MainGame.js`, lines
39-53, are the same code. `GameHelpers` models both.
