/**
 * The game screen (screens/MainGame.js) as an object: its fields are the
 * screen's state variables, the timer hook's countdown and the persisted
 * storage, and each handler updates them in place. Every handler is proved
 * to leave exactly the state the matching step function of GameSession
 * computes, so the properties proved there hold of the screen.
 */
module MainGame {
  import opened Constants
  import opened Text
  import opened WordBank
  import opened WordUtils
  import opened GameLogic
  import opened GameHelpers
  import opened GamePoints
  import opened DevHelpers
  import opened GameSession

  /** `entries.reduce((acc, e) => mergeLetterStatuses(acc, e), {})`: the keyboard of a list of rows. */
  method FoldKeyboard(entries: seq<GuessEntry>) returns (m: Keyboard)
    ensures m == KeyboardFrom(entries)
  {
    m := map[];
    for i := 0 to |entries|
      invariant m == KeyboardFrom(entries[..i])
    {
      m := MergeLetterStatuses(m, entries[i]);
      assert entries[..i + 1][..i] == entries[..i];
    }
    assert entries[..|entries|] == entries;
  }

  class Game {
    // The properties the screen is mounted with.
    const mode: Mode
    const lang: string
    const banks: map<string, Bank>

    // The screen's state variables, grouped as in a session: `board` holds
    // target, guesses, current, statuses, shake, gameOver and endMsg; `hints`
    // the penalties, both hint flags and both hint texts; `run` totalPoints,
    // wordCount and the timer hook's timeLeft; `flags` validating, both
    // network-error flags, wotdLoaded and wotdCompleted.
    var bank: Bank
    var normalizedSet: set<string>
    var board: Board
    var hints: Hints
    var run: Run
    var flags: Flags

    /** The persisted key-value storage. */
    var storage: map<string, Stored>

    function Cfg(): Config {
      Config(mode, lang, banks)
    }

    /** The fields as a session value. */
    function State(): Session
      reads this
    {
      Session(bank, normalizedSet, board, hints, run, flags, storage)
    }

    /** Mounting the screen: every state variable at its initial value. */
    constructor (mode: Mode, lang: string, banks: map<string, Bank>, storage: map<string, Stored>)
      ensures Cfg() == Config(mode, lang, banks)
      ensures State() == Initial(storage)
    {
      this.mode, this.lang, this.banks := mode, lang, banks;
      bank, normalizedSet := [], {};
      board := Board([], [], [], map[], 0, false, NoMessage);
      hints := Hints(0, false, false, [], []);
      run := Run(0, 1, INITIAL_SECONDS);
      flags := Flags(false, false, false, false, false);
      this.storage := storage;
    }

    /**
     * The timer hook's reset effect: when `gameOver` or `totalPoints` differs
     * from what it was before the handler, the countdown starts again.
     */
    method TimerEffect(ghost before: Session, wasOver: bool, points: int)
      requires before.board.gameOver == wasOver && before.run.totalPoints == points
      modifies this
      ensures State() == SyncTimer(before, old(State()))
    {
      if wasOver != board.gameOver || points != run.totalPoints {
        run := run.(timeLeft := INITIAL_SECONDS);
      }
    }

    /** The setters every new round runs: rows, input, keyboard, penalties, hint flags, network error. */
    method ClearRoundFields()
      modifies this
      ensures State() == ClearRound(old(State()))
    {
      board := board.(guesses := [], current := [], statuses := map[]);
      hints := hints.(penalties := 0, synonymsUsed := false, definitionUsed := false);
      flags := flags.(networkErrorDetected := false);
    }

    /** `setTotalPoints(n)` and `AsyncStorage.setItem(POINTS_KEY, String(n))`. */
    method StorePoints(n: int)
      modifies this
      ensures State() == SetPoints(old(State()), n)
    {
      run := run.(totalPoints := n);
      storage := storage[POINTS_KEY := PointsText(n)];
    }

    /** The mount effect that reads the stored points counter. */
    method LoadPoints()
      modifies this
      ensures State() == LoadPointsStep(old(State()))
    {
      ghost var s0 := State();
      var points := run.totalPoints;
      if POINTS_KEY in storage && storage[POINTS_KEY].PointsText? {
        run := run.(totalPoints := storage[POINTS_KEY].points);
      }
      TimerEffect(s0, board.gameOver, points);
    }

    /** The load effect, with the date and the random pick as inputs. */
    method LoadSession(today: Today, pick: nat)
      requires PickOk(BankFor(banks, lang), pick)
      modifies this
      ensures State() == LoadStep(Cfg(), old(State()), today, pick)
    {
      ghost var s0 := State();
      var wasOver, points := board.gameOver, run.totalPoints;
      TakeBank();
      LoadRoundFields(today, pick);
      TimerEffect(s0, wasOver, points);
    }

    /** The load effect's first setters: the word-of-the-day flags, the bank and its word set. */
    method TakeBank()
      modifies this
      ensures State() == SelectBank(Cfg(), old(State()))
    {
      flags := flags.(wotdLoaded := false, wotdCompleted := false);
      var b := BankFor(banks, lang);
      bank := b;
      normalizedSet := BuildNormalizedWordSet(b);
    }

    /** The load effect's round: a random word, today's record, a dropped record, or the daily word. */
    method LoadRoundFields(today: Today, pick: nat)
      requires PickOk(bank, pick)
      modifies this
      ensures State() == LoadRound(Cfg(), old(State()), today, pick)
    {
      if mode != WordOfDay {
        if |bank| > 0 {
          board := board.(target := Upper(bank[pick].word));
        }
        ClearRoundFields();
        flags := flags.(wotdLoaded := true);
        return;
      }
      var key := TodayKey(lang, today.year, today.month, today.day);
      if key in storage && storage[key].WotdJson? {
        var r := storage[key].record;
        board := board.(target := r.target, guesses := r.guesses, statuses := r.statuses, gameOver := true,
                        endMsg := if r.win then YouWin else YouLose, current := []);
        flags := flags.(wotdCompleted := true, wotdLoaded := true);
      } else if key in storage {
        storage := storage - {key};
        flags := flags.(wotdCompleted := false, wotdLoaded := true);
      } else {
        board := board.(target := DailyWord(bank, today.daysSince), gameOver := false);
        ClearRoundFields();
        flags := flags.(wotdCompleted := false, wotdLoaded := true);
      }
    }

    /** `handleKeyPress(key)` followed by the timer effect. */
    method HandleKeyPress(key: string, remote: Remote, pick: nat, today: Today)
      requires PickOk(bank, pick)
      modifies this
      ensures State() == KeyStep(Cfg(), old(State()), key, remote, pick, today)
    {
      ghost var s0 := State();
      var wasOver, points := board.gameOver, run.totalPoints;
      PressKey(key, remote, pick, today);
      TimerEffect(s0, wasOver, points);
    }

    /** The body of `handleKeyPress(key)`: the guards, 'DEL', 'TRY' and a letter. */
    method PressKey(key: string, remote: Remote, pick: nat, today: Today)
      requires PickOk(bank, pick)
      modifies this
      ensures State() == KeyHandler(Cfg(), old(State()), key, remote, pick, today)
    {
      if mode == Timed && (board.gameOver || run.timeLeft <= 0) {
        return;
      }
      if mode == WordOfDay && flags.wotdCompleted {
        return;
      }
      if board.gameOver {
        return;
      }
      var cur := board.current;
      if key == "DEL" {
        board := board.(current := if cur == [] then [] else cur[..|cur| - 1]);
        return;
      }
      if key == "TRY" {
        SubmitGuess(remote, pick, today);
        return;
      }
      if |key| == 1 && 'A' <= key[0] <= 'Z' && |cur| < |board.target| {
        board := board.(current := cur + key);
      }
    }

    /** 'TRY': the length check, the validator, and the accepted guess. */
    method SubmitGuess(remote: Remote, pick: nat, today: Today)
      requires PickOk(bank, pick)
      modifies this
      ensures State() == TryStep(Cfg(), old(State()), remote, pick, today)
    {
      if flags.validating {
        return;
      }
      var cur, tgt := board.current, board.target;
      if |cur| != |tgt| {
        board := board.(shake := board.shake + 1);
        return;
      }
      var ok := Validate(remote);
      if !ok {
        board := board.(shake := board.shake + 1);
        flags := flags.(validating := false);
        return;
      }
      var sts := EvaluateGuess(Normalize(cur), Normalize(tgt));
      Accept(GuessEntry(cur, sts), pick, today);
    }

    /** `setValidating(true)` and the awaited `validateWord`, whose error callback sets `networkErrorDetected`. */
    method Validate(remote: Remote) returns (ok: bool)
      modifies this
      ensures ok == ValidateWord(old(board.current), old(normalizedSet), lang, old(flags.simulateNetworkError), remote).accepted
      ensures State() == Validated(Cfg(), old(State()), remote)
    {
      var v := ValidateWord(board.current, normalizedSet, lang, flags.simulateNetworkError, remote);
      flags := flags.(validating := true, networkErrorDetected := flags.networkErrorDetected || v.networkErrorCalls > 0);
      ok := v.accepted;
    }

    /** The accepted guess: the row and keyboard updates, then the mode's ending, scoring or storing. */
    method Accept(entry: GuessEntry, pick: nat, today: Today)
      requires PickOk(bank, pick)
      modifies this
      ensures State() == AcceptStep(Cfg(), old(State()), entry, pick, today)
    {
      AppendRow(entry);
      var isWin := AllCorrect(entry.statuses);
      if mode == Timed {
        if isWin {
          WinTimedRound(pick);
          return;
        } else if |board.guesses| == NUM_ROWS {
          LoseTimedRound();
          return;
        }
      }
      ConcludeRound(isWin);
      RecordRound(today, isWin);
      flags := flags.(validating := false);
    }

    /** The new row, the keyboard folded with it, and the input cleared. */
    method AppendRow(entry: GuessEntry)
      modifies this
      ensures State() == Appended(old(State()), entry)
    {
      var merged := MergeLetterStatuses(board.statuses, entry);
      board := board.(guesses := board.guesses + [entry], statuses := merged, current := []);
    }

    /** The delayed timed-mode win: a point stored, the word counted, the next word on a clear board. */
    method WinTimedRound(pick: nat)
      requires PickOk(bank, pick)
      modifies this
      ensures State() == TimedWin(old(State()), pick)
    {
      StorePoints(run.totalPoints + 1);
      run := run.(wordCount := run.wordCount + 1);
      if |bank| > 0 {
        board := board.(target := Upper(bank[pick].word));
      }
      flags := flags.(validating := false);
      ClearRoundFields();
    }

    /** The delayed timed-mode loss on the sixth row. */
    method LoseTimedRound()
      modifies this
      ensures State() == TimedLoss(old(State()))
    {
      board := board.(endMsg := LoseWordsFound(run.totalPoints), gameOver := true);
      StorePoints(0);
    }

    /** Outside timed mode, a win or a sixth row ends the round. */
    method ConcludeRound(isWin: bool)
      modifies this
      ensures State() == Concluded(old(State()), isWin)
    {
      if isWin {
        board := board.(endMsg := YouWin, gameOver := true);
      } else if |board.guesses| == NUM_ROWS {
        board := board.(endMsg := YouLose, gameOver := true);
      }
    }

    /** In word-of-the-day mode, the ended round is stored under today's key. */
    method RecordRound(today: Today, isWin: bool)
      modifies this
      ensures State() == Recorded(Cfg(), old(State()), today, isWin)
    {
      if mode == WordOfDay && (isWin || |board.guesses| == NUM_ROWS) {
        var key := TodayKey(lang, today.year, today.month, today.day);
        storage := storage[key := WotdJson(WotdRecord(board.target, board.guesses, board.statuses, isWin))];
        flags := flags.(wotdCompleted := true);
      }
    }

    /** `handleRestart` followed by the timer effect. */
    method HandleRestart(pick: nat)
      requires PickOk(bank, pick)
      modifies this
      ensures State() == RestartStep(old(State()), pick)
    {
      ghost var s0 := State();
      var wasOver, points := board.gameOver, run.totalPoints;
      run := run.(wordCount := 1);
      StorePoints(0);
      board := board.(gameOver := false);
      if |bank| > 0 {
        board := board.(target := Upper(bank[pick].word));
      }
      ClearRoundFields();
      TimerEffect(s0, wasOver, points);
    }

    /** `onTimeout` followed by the timer effect. */
    method OnTimeout()
      modifies this
      ensures State() == TimeoutStep(old(State()))
    {
      ghost var s0 := State();
      var wasOver, points := board.gameOver, run.totalPoints;
      board := board.(endMsg := TimeUp(run.totalPoints), gameOver := true);
      StorePoints(0);
      TimerEffect(s0, wasOver, points);
    }

    /** One interval callback of the timer hook. */
    method Tick()
      modifies this
      ensures State() == TickStep(Cfg(), old(State()))
    {
      if mode != Timed || board.gameOver {
        return;
      }
      if run.timeLeft <= 1 {
        run := run.(timeLeft := 0);
        OnTimeout();
      } else {
        run := run.(timeLeft := run.timeLeft - 1);
      }
    }

    /** `handleSynonymsPress`. */
    method HandleSynonymsPress()
      modifies this
      ensures State() == SynonymsStep(Cfg(), old(State()))
    {
      var rowVal := NUM_ROWS - |board.guesses|;
      if !hints.synonymsUsed && mode != Freeplay && mode != WordOfDay {
        hints := hints.(penalties := hints.penalties + SynPenalty(rowVal, hints.synonymsUsed), synonymsUsed := true);
      }
      hints := hints.(synonymsList := GetSynonymsLocal(board.target, bank));
    }

    /** `handleDefinitionPress`. */
    method HandleDefinitionPress()
      modifies this
      ensures State() == DefinitionStep(Cfg(), old(State()))
    {
      var rowVal := NUM_ROWS - |board.guesses|;
      if !hints.definitionUsed && mode != Freeplay && mode != WordOfDay {
        hints := hints.(penalties := hints.penalties + DefPenalty(rowVal, hints.definitionUsed), definitionUsed := true);
      }
      hints := hints.(definitionText := GetDefinitionLocal(board.target, bank));
    }

    /** The board setters shared by the developer board actions. */
    method ShowEntries(entries: seq<GuessEntry>, over: bool, msg: EndMessage)
      modifies this
      ensures State() == ShowRows(old(State()), entries, over, msg)
    {
      var all := FoldKeyboard(entries);
      board := board.(guesses := entries, statuses := all, current := [], gameOver := over, endMsg := msg);
    }

    /** `devAutofillBoard`. */
    method DevAutofillBoard()
      modifies this
      ensures State() == AutofillStep(old(State()))
    {
      if |bank| == 0 {
        return;
      }
      ghost var s0 := State();
      var wasOver, points := board.gameOver, run.totalPoints;
      ShowEntries(AutofillEntries(bank, board.target), false, NoMessage);
      TimerEffect(s0, wasOver, points);
    }

    /** `devAutoWin6`. */
    method DevAutoWin6()
      modifies this
      ensures State() == AutoWinStep(old(State()))
    {
      if |bank| == 0 {
        return;
      }
      ghost var s0 := State();
      var wasOver, points := board.gameOver, run.totalPoints;
      ShowEntries(AutoWinEntries(bank, board.target), true, AutoWin);
      TimerEffect(s0, wasOver, points);
    }

    /** `devForceLose`. */
    method DevForceLose()
      modifies this
      ensures State() == ForceLoseStep(old(State()))
    {
      if |bank| == 0 {
        return;
      }
      ghost var s0 := State();
      var wasOver, points := board.gameOver, run.totalPoints;
      ShowEntries(ForceLoseEntries(bank, board.target), true, AutoLose);
      TimerEffect(s0, wasOver, points);
    }

    /** `resetPoints`. */
    method DevResetPoints()
      modifies this
      ensures State() == ResetPointsStep(old(State()))
    {
      ghost var s0 := State();
      var points := run.totalPoints;
      StorePoints(0);
      TimerEffect(s0, board.gameOver, points);
    }

    /** The game screen's `devSimulateNetworkError`. */
    method DevSimulateNetworkError()
      modifies this
      ensures State() == ToggleSimulationStep(old(State()))
    {
      flags := flags.(simulateNetworkError := !flags.simulateNetworkError);
    }

    /** The hook's `devSimulateNetworkError`. */
    method HookSimulateNetworkError()
      modifies this
      ensures State() == ToggleDetectedStep(old(State()))
    {
      flags := flags.(networkErrorDetected := !flags.networkErrorDetected);
    }

    /** The shared part of both `devResetWOTD` versions, on the given word. */
    method ResetWordOfDay(today: Today, word: string)
      modifies this
      ensures State() == ResetWotdStep(Cfg(), old(State()), today, word)
    {
      if mode != WordOfDay {
        return;
      }
      ghost var s0 := State();
      var wasOver, points := board.gameOver, run.totalPoints;
      storage := storage - {TodayKey(lang, today.year, today.month, today.day)};
      flags := flags.(wotdCompleted := false);
      board := board.(gameOver := false, target := word);
      ClearRoundFields();
      flags := flags.(wotdCompleted := false, wotdLoaded := true);
      TimerEffect(s0, wasOver, points);
    }

    /** The game screen's `devResetWOTD`: the round restarts on today's word. */
    method DevResetWordOfDay(today: Today)
      modifies this
      ensures State() == ResetWotdStep(Cfg(), old(State()), today, ScreenResetWord(Cfg(), today))
    {
      var b := BankFor(banks, lang);
      ResetWordOfDay(today, DailyWord(b, today.daysSince));
    }

    /** The hook's `devResetWOTD`: the round restarts on a random word of the language's bank. */
    method HookResetWordOfDay(today: Today, pick: nat)
      requires PickOk(BankFor(banks, lang), pick)
      modifies this
      ensures State() == ResetWotdStep(Cfg(), old(State()), today, HookResetWord(Cfg(), pick))
    {
      var b := BankFor(banks, lang);
      ResetWordOfDay(today, if |b| > 0 then Upper(b[pick].word) else []);
    }
  }
}
