/**
 * The game screen's session (screens/MainGame.js) as a state machine on
 * values: a `Session` holds the screen's state variables and persisted
 * storage, and each handler is a step function from one session to the
 * next. The class in module MainGame performs the same steps by updating
 * fields in place and is proved to agree with these functions.
 */
module GameSession {
  import opened Constants
  import opened Text
  import opened WordBank
  import opened WordUtils
  import opened GameLogic
  import opened GameHelpers
  import opened GamePoints
  import opened ScoreUtils
  import opened DevHelpers

  // ---------------------------------------------------------------------------
  // Configuration, storage and the session
  // ---------------------------------------------------------------------------

  datatype Mode = Freeplay | Timed | WordOfDay | Streak

  /** What the screen is mounted with; a change of settings mounts a new screen. */
  datatype Config = Config(mode: Mode, lang: string, banks: map<string, Bank>)

  /** The calendar, read from the clock: the date and the whole days since 1 January 2020. */
  datatype Today = Today(year: nat, month: nat, day: nat, daysSince: nat)

  /** The finished word-of-the-day round as it is stored. */
  datatype WotdRecord = WotdRecord(target: string, guesses: seq<GuessEntry>, statuses: Keyboard, win: bool)

  /** A stored value: the points counter, a word-of-the-day record, or text that does not parse. */
  datatype Stored = PointsText(points: int) | WotdJson(record: WotdRecord) | Unparsable

  /** The end-of-round message. */
  datatype EndMessage =
    | NoMessage
    | YouWin
    | YouLose
    | TimeUp(wordsFinished: int)
    | LoseWordsFound(wordsFound: int)
    | AutoWin
    | AutoLose

  const POINTS_KEY: string := "@totalPoints"
  const INITIAL_SECONDS: int := 60

  /** The game screen's own unlock thresholds: `Math.round(60 * 0.35)` and `Math.round(60 * 0.20)`. */
  const SYNONYMS_UNLOCK_AT: int := RoundHalfUp(INITIAL_SECONDS as real * 0.35)
  const DEFINITION_UNLOCK_AT: int := RoundHalfUp(INITIAL_SECONDS as real * 0.20)

  /** The round on the board: the answer, the rows, the typed guess, the keyboard and the end of the round. */
  datatype Board = Board(target: string, guesses: seq<GuessEntry>, current: string, statuses: Keyboard,
                         shake: nat, gameOver: bool, endMsg: EndMessage)

  /** The hints of the round and the penalties they cost. */
  datatype Hints = Hints(penalties: int, synonymsUsed: bool, definitionUsed: bool,
                         synonymsList: seq<string>, definitionText: string)

  /** The run across rounds: the points (words finished in timed mode), the word counter, the countdown. */
  datatype Run = Run(totalPoints: int, wordCount: int, timeLeft: int)

  /** Validation, network-error and word-of-the-day flags. */
  datatype Flags = Flags(validating: bool, simulateNetworkError: bool, networkErrorDetected: bool,
                         wotdLoaded: bool, wotdCompleted: bool)

  /** The screen's state variables, grouped, and the persisted storage. */
  datatype Session = Session(bank: Bank, normalizedSet: set<string>, board: Board, hints: Hints,
                             run: Run, flags: Flags, storage: map<string, Stored>)

  /** The state right after mounting, before any effect has run. */
  function Initial(storage: map<string, Stored>): (s: Session)
    ensures s.board.guesses == [] && s.board.current == [] && !s.board.gameOver
    ensures s.run.totalPoints == 0 && s.run.wordCount == 1 && s.run.timeLeft == INITIAL_SECONDS
    ensures s.storage == storage
  {
    Session([], {}, Board([], [], [], map[], 0, false, NoMessage), Hints(0, false, false, [], []),
            Run(0, 1, INITIAL_SECONDS), Flags(false, false, false, false, false), storage)
  }

  // ---------------------------------------------------------------------------
  // Invariants
  // ---------------------------------------------------------------------------

  /** The typed guess is plain capitals and never longer than the answer. */
  predicate Typing(s: Session) {
    |s.board.current| <= |s.board.target| && AllAsciiUpper(s.board.current)
  }

  /** At most six rows, fewer while the round is running, and the keyboard is exactly the fold of the rows. */
  predicate BoardOk(b: Board) {
    |b.guesses| <= NUM_ROWS
    && (!b.gameOver ==> |b.guesses| < NUM_ROWS)
    && b.statuses == KeyboardFrom(b.guesses)
  }

  /** Every stored record has at most six rows and the keyboard those rows produce. */
  predicate StorageOk(storage: map<string, Stored>) {
    forall k :: k in storage && storage[k].WotdJson? ==>
      |storage[k].record.guesses| <= NUM_ROWS
      && storage[k].record.statuses == KeyboardFrom(storage[k].record.guesses)
  }

  /** The board and every stored record are consistent. */
  predicate Consistent(s: Session) {
    BoardOk(s.board) && StorageOk(s.storage)
  }

  // ---------------------------------------------------------------------------
  // Shared pieces of the handlers
  // ---------------------------------------------------------------------------

  /** A random pick is an index of the bank (any number when the bank is empty). */
  predicate PickOk(bank: Bank, pick: nat) {
    bank == [] || pick < |bank|
  }

  /** `if (bank.length) setTarget(bank[pick].word.toUpperCase())`. */
  function NewTarget(bank: Bank, pick: nat, target: string): string
    requires PickOk(bank, pick)
  {
    if |bank| > 0 then Upper(bank[pick].word) else target
  }

  /** The round-clearing setters shared by the handlers. */
  function ClearRound(s: Session): Session {
    s.(board := s.board.(guesses := [], current := [], statuses := map[]),
       hints := s.hints.(penalties := 0, synonymsUsed := false, definitionUsed := false),
       flags := s.flags.(networkErrorDetected := false))
  }

  /** `setTotalPoints(n)` together with writing `String(n)` under the points key. */
  function SetPoints(s: Session, n: int): Session {
    s.(run := s.run.(totalPoints := n), storage := s.storage[POINTS_KEY := PointsText(n)])
  }

  /** `setWotdLoaded(true)` with the given `wotdCompleted`. */
  function Loaded(s: Session, completed: bool): Session {
    s.(flags := s.flags.(wotdLoaded := true, wotdCompleted := completed))
  }

  /**
   * The timer effect: whenever `gameOver` or `totalPoints` changed (the
   * timeout callback depends on the points), the countdown starts again
   * from the initial seconds.
   */
  function SyncTimer(before: Session, after: Session): Session {
    if before.board.gameOver != after.board.gameOver || before.run.totalPoints != after.run.totalPoints then
      after.(run := after.run.(timeLeft := INITIAL_SECONDS))
    else after
  }

  // ---------------------------------------------------------------------------
  // Loading
  // ---------------------------------------------------------------------------

  /** The points effect: a stored counter replaces the total. */
  function LoadPointsStep(s: Session): Session {
    var s1 := if POINTS_KEY in s.storage && s.storage[POINTS_KEY].PointsText?
              then s.(run := s.run.(totalPoints := s.storage[POINTS_KEY].points)) else s;
    SyncTimer(s, s1)
  }

  /** The key the word-of-the-day round of `c` is stored under on `today`. */
  function WotdKey(c: Config, today: Today): string {
    TodayKey(c.lang, today.year, today.month, today.day)
  }

  /**
   * The load effect: pick the bank and its word set; outside word-of-the-day
   * mode start a round on a random word; in word-of-the-day mode restore
   * today's record, drop it when it does not parse, or start a round on the
   * daily word.
   */
  function LoadStep(c: Config, s: Session, today: Today, pick: nat): Session
    requires PickOk(BankFor(c.banks, c.lang), pick)
  {
    SyncTimer(s, LoadRound(c, SelectBank(c, s), today, pick))
  }

  /** The first part of the load effect: both word-of-the-day flags cleared, the bank and its word set taken. */
  function SelectBank(c: Config, s: Session): Session {
    var b := BankFor(c.banks, c.lang);
    s.(bank := b, normalizedSet := WordForms(b), flags := s.flags.(wotdLoaded := false, wotdCompleted := false))
  }

  /** The rest of the load effect, on the session whose bank was just taken. */
  function LoadRound(c: Config, s: Session, today: Today, pick: nat): Session
    requires PickOk(s.bank, pick)
  {
    var key := WotdKey(c, today);
    if c.mode != WordOfDay then
      Loaded(ClearRound(s.(board := s.board.(target := NewTarget(s.bank, pick, s.board.target)))), s.flags.wotdCompleted)
    else if key in s.storage && s.storage[key].WotdJson? then
      var r := s.storage[key].record;
      Loaded(s.(board := Board(r.target, r.guesses, [], r.statuses, s.board.shake, true,
                               if r.win then YouWin else YouLose)), true)
    else if key in s.storage then
      Loaded(s.(storage := s.storage - {key}), false)
    else
      Loaded(ClearRound(s.(board := s.board.(target := DailyWord(s.bank, today.daysSince), gameOver := false))), false)
  }

  // ---------------------------------------------------------------------------
  // Key presses
  // ---------------------------------------------------------------------------

  /** A key that types a letter: exactly one of 'A'..'Z'. */
  predicate IsLetterKey(key: string) {
    |key| == 1 && 'A' <= key[0] <= 'Z'
  }

  /** The guards that make every key press do nothing. */
  predicate KeysIgnored(c: Config, s: Session) {
    (c.mode == Timed && (s.board.gameOver || s.run.timeLeft <= 0))
    || (c.mode == WordOfDay && s.flags.wotdCompleted)
    || s.board.gameOver
  }

  /** The row a submitted guess adds: its letters scored, accent-free and upper-cased, against the answer. */
  function SubmittedEntry(current: string, target: string): GuessEntry {
    GuessEntry(current, Feedback(Normalize(current), Normalize(target)))
  }

  /** The accepted row appended, folded into the keyboard, and the input cleared. */
  function Appended(s: Session, entry: GuessEntry): Session {
    s.(board := s.board.(guesses := s.board.guesses + [entry], statuses := Merged(s.board.statuses, entry),
                         current := []))
  }

  /** A timed-mode win: one point more, stored; the word counted; the next word on a clear board. */
  function TimedWin(s: Session, pick: nat): Session
    requires PickOk(s.bank, pick)
  {
    var s1 := SetPoints(s, s.run.totalPoints + 1);
    ClearRound(s1.(run := s1.run.(wordCount := s1.run.wordCount + 1),
                   board := s1.board.(target := NewTarget(s.bank, pick, s.board.target)),
                   flags := s1.flags.(validating := false)))
  }

  /** A timed-mode sixth miss: the round ends with the points so far, and they are reset. */
  function TimedLoss(s: Session): Session {
    SetPoints(s.(board := s.board.(endMsg := LoseWordsFound(s.run.totalPoints), gameOver := true)), 0)
  }

  /** Outside timed mode: a win or a sixth row ends the round. */
  function Concluded(s: Session, win: bool): Session {
    if win then s.(board := s.board.(endMsg := YouWin, gameOver := true))
    else if |s.board.guesses| == NUM_ROWS then s.(board := s.board.(endMsg := YouLose, gameOver := true))
    else s
  }

  /** In word-of-the-day mode a round that ended is stored under today's key. */
  function Recorded(c: Config, s: Session, today: Today, win: bool): Session {
    if c.mode == WordOfDay && (win || |s.board.guesses| == NUM_ROWS) then
      s.(storage := s.storage[WotdKey(c, today) :=
                     WotdJson(WotdRecord(s.board.target, s.board.guesses, s.board.statuses, win))],
         flags := s.flags.(wotdCompleted := true))
    else s
  }

  /**
   * An accepted guess (with `validating` set): append the row, fold it into
   * the keyboard, clear the input; then end, score or store the round as
   * the mode says.
   */
  function AcceptStep(c: Config, s: Session, entry: GuessEntry, pick: nat, today: Today): Session
    requires PickOk(s.bank, pick)
  {
    var win := AllCorrect(entry.statuses);
    var s1 := Appended(s, entry);
    if c.mode == Timed && win then TimedWin(s1, pick)
    else if c.mode == Timed && |s1.board.guesses| == NUM_ROWS then TimedLoss(s1)
    else
      var s2 := Recorded(c, Concluded(s1, win), today, win);
      s2.(flags := s2.flags.(validating := false))
  }

  /** The state while the validator runs: `validating` set, and a detected network error noted. */
  function Validated(c: Config, s: Session, remote: Remote): Session {
    var v := ValidateWord(s.board.current, s.normalizedSet, c.lang, s.flags.simulateNetworkError, remote);
    s.(flags := s.flags.(validating := true,
                         networkErrorDetected := s.flags.networkErrorDetected || v.networkErrorCalls > 0))
  }

  /** 'TRY': ignored while validating; a wrong length or a rejected word only shakes the row. */
  function TryStep(c: Config, s: Session, remote: Remote, pick: nat, today: Today): Session
    requires PickOk(s.bank, pick)
  {
    if s.flags.validating then s
    else if |s.board.current| != |s.board.target| then s.(board := s.board.(shake := s.board.shake + 1))
    else
      var s1 := Validated(c, s, remote);
      if !ValidateWord(s.board.current, s.normalizedSet, c.lang, s.flags.simulateNetworkError, remote).accepted
      then s1.(board := s1.board.(shake := s1.board.shake + 1), flags := s1.flags.(validating := false))
      else AcceptStep(c, s1, SubmittedEntry(s.board.current, s.board.target), pick, today)
  }

  /** The handler `handleKeyPress(key)` itself, with the remote validator's answer, the random pick and the date as inputs. */
  function KeyHandler(c: Config, s: Session, key: string, remote: Remote, pick: nat, today: Today): Session
    requires PickOk(s.bank, pick)
  {
    var cur := s.board.current;
    if KeysIgnored(c, s) then s
    else if key == "DEL" then s.(board := s.board.(current := if cur == [] then [] else cur[..|cur| - 1]))
    else if key == "TRY" then TryStep(c, s, remote, pick, today)
    else if IsLetterKey(key) && |cur| < |s.board.target| then s.(board := s.board.(current := cur + key))
    else s
  }

  /** A key press followed by the timer effect it may trigger. */
  function KeyStep(c: Config, s: Session, key: string, remote: Remote, pick: nat, today: Today): Session
    requires PickOk(s.bank, pick)
  {
    SyncTimer(s, KeyHandler(c, s, key, remote, pick, today))
  }

  // ---------------------------------------------------------------------------
  // Restart, timer and hints
  // ---------------------------------------------------------------------------

  /** `handleRestart`: points and word count back to the start, a new random word, a clear board. */
  function RestartStep(s: Session, pick: nat): Session
    requires PickOk(s.bank, pick)
  {
    var s1 := SetPoints(s, 0);
    var s2 := s1.(run := s1.run.(wordCount := 1),
                  board := s1.board.(gameOver := false, target := NewTarget(s.bank, pick, s.board.target)));
    SyncTimer(s, ClearRound(s2))
  }

  /** `onTimeout`: the round ends with the words finished so far, and the points are reset. */
  function TimeoutStep(s: Session): Session {
    SyncTimer(s, SetPoints(s.(board := s.board.(endMsg := TimeUp(s.run.totalPoints), gameOver := true)), 0))
  }

  /** One second of the countdown, which runs only in timed mode while the round is on. */
  function TickStep(c: Config, s: Session): Session {
    if c.mode != Timed || s.board.gameOver then s
    else if s.run.timeLeft <= 1 then TimeoutStep(s.(run := s.run.(timeLeft := 0)))
    else s.(run := s.run.(timeLeft := s.run.timeLeft - 1))
  }

  /** Whether the synonyms button is disabled. */
  predicate SynonymsLocked(mode: Mode, guessCount: nat, timeLeft: int) {
    (mode == Freeplay && guessCount < 4)
    || (mode == WordOfDay && guessCount < 4)
    || (mode == Timed && timeLeft > SYNONYMS_UNLOCK_AT)
  }

  /** Whether the definition button is disabled. */
  predicate DefinitionLocked(mode: Mode, guessCount: nat, timeLeft: int) {
    (mode == Freeplay && guessCount < 5)
    || (mode == WordOfDay && guessCount < 5)
    || (mode == Timed && timeLeft > DEFINITION_UNLOCK_AT)
  }

  /** Hints cost points everywhere but freeplay and word of the day. */
  predicate HintsPenalised(mode: Mode) {
    mode != Freeplay && mode != WordOfDay
  }

  /** `handleSynonymsPress`: the first paid press adds the synonyms penalty; the list is always refreshed. */
  function SynonymsStep(c: Config, s: Session): Session {
    var h := s.hints;
    var rowVal := NUM_ROWS - |s.board.guesses|;
    var pay := !h.synonymsUsed && HintsPenalised(c.mode);
    s.(hints := h.(penalties := if pay then h.penalties + SynPenalty(rowVal, h.synonymsUsed) else h.penalties,
                   synonymsUsed := h.synonymsUsed || pay,
                   synonymsList := GetSynonymsLocal(s.board.target, s.bank)))
  }

  /** `handleDefinitionPress`: the first paid press adds the definition penalty; the text is always refreshed. */
  function DefinitionStep(c: Config, s: Session): Session {
    var h := s.hints;
    var rowVal := NUM_ROWS - |s.board.guesses|;
    var pay := !h.definitionUsed && HintsPenalised(c.mode);
    s.(hints := h.(penalties := if pay then h.penalties + DefPenalty(rowVal, h.definitionUsed) else h.penalties,
                   definitionUsed := h.definitionUsed || pay,
                   definitionText := GetDefinitionLocal(s.board.target, s.bank)))
  }

  // ---------------------------------------------------------------------------
  // Developer actions
  // ---------------------------------------------------------------------------

  /** Put the given rows on the board, with the keyboard they produce. */
  function ShowRows(s: Session, rows: seq<GuessEntry>, over: bool, msg: EndMessage): Session {
    s.(board := s.board.(guesses := rows, statuses := KeyboardFrom(rows), current := [], gameOver := over,
                         endMsg := msg))
  }

  /** `devAutofillBoard`: up to five wrong rows, round still on. */
  function AutofillStep(s: Session): Session {
    if s.bank == [] then s
    else SyncTimer(s, ShowRows(s, AutofillEntries(s.bank, s.board.target), false, NoMessage))
  }

  /** `devAutoWin6`: the wrong rows and then the answer, round over. */
  function AutoWinStep(s: Session): Session {
    if s.bank == [] then s
    else SyncTimer(s, ShowRows(s, AutoWinEntries(s.bank, s.board.target), true, AutoWin))
  }

  /** `devForceLose`: up to six wrong rows, round over. */
  function ForceLoseStep(s: Session): Session {
    if s.bank == [] then s
    else SyncTimer(s, ShowRows(s, ForceLoseEntries(s.bank, s.board.target), true, AutoLose))
  }

  /** `resetPoints`. */
  function ResetPointsStep(s: Session): Session {
    SyncTimer(s, SetPoints(s, 0))
  }

  /** The game screen's `devSimulateNetworkError`: switch the simulated network failure on or off. */
  function ToggleSimulationStep(s: Session): Session {
    s.(flags := s.flags.(simulateNetworkError := !s.flags.simulateNetworkError))
  }

  /** The hook's `devSimulateNetworkError`: it switches the detected-error flag instead. */
  function ToggleDetectedStep(s: Session): Session {
    s.(flags := s.flags.(networkErrorDetected := !s.flags.networkErrorDetected))
  }

  /**
   * `devResetWOTD`: only in word-of-the-day mode; forget today's record and
   * start a clear round on `word` (the daily word in the game screen's
   * version, a random bank word in the hook's).
   */
  function ResetWotdStep(c: Config, s: Session, today: Today, word: string): Session {
    if c.mode != WordOfDay then s
    else
      SyncTimer(s, Loaded(ClearRound(s.(storage := s.storage - {WotdKey(c, today)},
                                        board := s.board.(gameOver := false, target := word))), false))
  }

  /** The game screen's reset word: today's word of the language's bank. */
  function ScreenResetWord(c: Config, today: Today): string {
    DailyWord(BankFor(c.banks, c.lang), today.daysSince)
  }

  /** The hook's reset word: a random word of the language's bank, or nothing for an empty bank. */
  function HookResetWord(c: Config, pick: nat): string
    requires PickOk(BankFor(c.banks, c.lang), pick)
  {
    var b := BankFor(c.banks, c.lang);
    if |b| > 0 then Upper(b[pick].word) else []
  }

  // ---------------------------------------------------------------------------
  // Properties
  // ---------------------------------------------------------------------------

  lemma KeyboardFromSnoc(gs: seq<GuessEntry>, e: GuessEntry)
    ensures KeyboardFrom(gs + [e]) == Merged(KeyboardFrom(gs), e)
  {
    assert (gs + [e])[..|gs|] == gs;
  }

  /** The screen's thresholds are the rounded shares 21 and 12 of the 60 seconds (not the 25% and 15% of the points helpers). */
  lemma UnlockThresholds()
    ensures SYNONYMS_UNLOCK_AT == 21 && DEFINITION_UNLOCK_AT == 12
    ensures SynonymsUnlockAt(INITIAL_SECONDS) == 15 && DefinitionUnlockAt(INITIAL_SECONDS) == 9
  {
    assert INITIAL_SECONDS as real * 0.35 + 0.5 == 21.5;
    assert INITIAL_SECONDS as real * 0.20 + 0.5 == 12.5;
  }

  /**
   * With the thresholds filled in: synonyms open at the 4th row in freeplay
   * and word of the day and at 21 seconds left in timed mode; the
   * definition at the 5th row and at 12 seconds; streak mode never locks.
   */
  lemma HintLocks(mode: Mode, guessCount: nat, timeLeft: int)
    ensures SynonymsLocked(mode, guessCount, timeLeft)
            <==> ((mode == Freeplay || mode == WordOfDay) && guessCount < 4) || (mode == Timed && timeLeft > 21)
    ensures DefinitionLocked(mode, guessCount, timeLeft)
            <==> ((mode == Freeplay || mode == WordOfDay) && guessCount < 5) || (mode == Timed && timeLeft > 12)
    ensures SynonymsLocked(mode, guessCount, timeLeft) ==> DefinitionLocked(mode, guessCount, timeLeft)
  {
    UnlockThresholds();
  }

  /** Writing the points counter never touches a stored record. */
  lemma PointsWriteKeepsStorage(storage: map<string, Stored>, n: int)
    requires StorageOk(storage)
    ensures StorageOk(storage[POINTS_KEY := PointsText(n)])
  {
  }

  // --- Key presses ------------------------------------------------------------

  /** An accepted row always leaves an empty input, so typing stays well-formed. */
  lemma AcceptKeepsTyping(c: Config, s: Session, e: GuessEntry, pick: nat, today: Today)
    requires PickOk(s.bank, pick)
    ensures Typing(AcceptStep(c, s, e, pick, today))
  {
    if c.mode == Timed { if AllCorrect(e.statuses) { } else { } } else { }
  }

  /** Accepting a row during a running round keeps it consistent, including a stored word-of-the-day record. */
  lemma AcceptKeeps(c: Config, s: Session, e: GuessEntry, pick: nat, today: Today)
    requires PickOk(s.bank, pick)
    requires Consistent(s) && !s.board.gameOver
    ensures Consistent(AcceptStep(c, s, e, pick, today))
  {
    KeyboardFromSnoc(s.board.guesses, e);
    if c.mode == Timed {
      if AllCorrect(e.statuses) {
        PointsWriteKeepsStorage(s.storage, s.run.totalPoints + 1);
      } else {
        PointsWriteKeepsStorage(s.storage, 0);
      }
    }
  }

  /** 'TRY' keeps the input well-formed and the board consistent. */
  lemma TryKeeps(c: Config, s: Session, remote: Remote, pick: nat, today: Today)
    requires PickOk(s.bank, pick)
    ensures Typing(s) ==> Typing(TryStep(c, s, remote, pick, today))
    ensures Consistent(s) && !s.board.gameOver ==> Consistent(TryStep(c, s, remote, pick, today))
  {
    if !s.flags.validating && |s.board.current| == |s.board.target| {
      var s1 := Validated(c, s, remote);
      AcceptKeepsTyping(c, s1, SubmittedEntry(s.board.current, s.board.target), pick, today);
      if Consistent(s) && !s.board.gameOver {
        AcceptKeeps(c, s1, SubmittedEntry(s.board.current, s.board.target), pick, today);
      }
    }
  }

  /** Typing keeps the input to plain capitals no longer than the answer. */
  lemma KeyStepKeepsTyping(c: Config, s: Session, key: string, remote: Remote, pick: nat, today: Today)
    requires PickOk(s.bank, pick) && Typing(s)
    ensures Typing(KeyStep(c, s, key, remote, pick, today))
  {
    if KeysIgnored(c, s) {
    } else if key == "DEL" {
    } else if key == "TRY" {
      TryKeeps(c, s, remote, pick, today);
    } else if IsLetterKey(key) && |s.board.current| < |s.board.target| {
    }
  }

  /** Every key press keeps the board consistent: in particular there are never more than six rows. */
  lemma KeyStepKeepsConsistent(c: Config, s: Session, key: string, remote: Remote, pick: nat, today: Today)
    requires PickOk(s.bank, pick) && Consistent(s)
    ensures Consistent(KeyStep(c, s, key, remote, pick, today))
  {
    if KeysIgnored(c, s) {
    } else if key == "DEL" {
    } else if key == "TRY" {
      TryKeeps(c, s, remote, pick, today);
    } else if IsLetterKey(key) && |s.board.current| < |s.board.target| {
    }
  }

  /** Once the round is over (or today's word is done) every key is ignored. */
  lemma KeysIgnoredWhenOver(c: Config, s: Session, key: string, remote: Remote, pick: nat, today: Today)
    requires PickOk(s.bank, pick)
    requires s.board.gameOver || (c.mode == WordOfDay && s.flags.wotdCompleted)
    ensures KeyStep(c, s, key, remote, pick, today) == s
  {
  }

  /** 'DEL' takes back a letter just typed. */
  lemma DeleteUndoesLetter(c: Config, s: Session, key: string, remote: Remote, pick: nat, today: Today)
    requires PickOk(s.bank, pick) && !KeysIgnored(c, s)
    requires IsLetterKey(key) && |s.board.current| < |s.board.target|
    ensures KeyStep(c, KeyStep(c, s, key, remote, pick, today), "DEL", remote, pick, today) == s
  {
    var s1 := KeyStep(c, s, key, remote, pick, today);
    assert s1 == s.(board := s.board.(current := s.board.current + key));
    assert s1.board.current[..|s1.board.current| - 1] == s.board.current;
  }

  /**
   * 'TRY' while a validation is pending does nothing; with the wrong length,
   * or a word the validator rejects, it only shakes the row (and notes a
   * network error), leaving rows and keyboard alone.
   */
  lemma TryRefused(c: Config, s: Session, remote: Remote, pick: nat, today: Today)
    requires PickOk(s.bank, pick) && !KeysIgnored(c, s)
    ensures s.flags.validating ==> KeyStep(c, s, "TRY", remote, pick, today) == s
    ensures !s.flags.validating && |s.board.current| != |s.board.target| ==>
              KeyStep(c, s, "TRY", remote, pick, today) == s.(board := s.board.(shake := s.board.shake + 1))
    ensures var v := ValidateWord(s.board.current, s.normalizedSet, c.lang, s.flags.simulateNetworkError, remote);
            !s.flags.validating && |s.board.current| == |s.board.target| && !v.accepted ==>
              KeyStep(c, s, "TRY", remote, pick, today)
              == s.(board := s.board.(shake := s.board.shake + 1),
                    flags := s.flags.(networkErrorDetected := s.flags.networkErrorDetected || v.networkErrorCalls > 0))
  {
    if s.flags.validating {
    } else if |s.board.current| != |s.board.target| {
    } else {
      var s1 := Validated(c, s, remote);
      assert KeyStep(c, s, "TRY", remote, pick, today) == SyncTimer(s, TryStep(c, s, remote, pick, today));
    }
  }

  /** The conditions under which 'TRY' submits the typed guess. */
  predicate Submits(c: Config, s: Session, remote: Remote) {
    !KeysIgnored(c, s) && !s.flags.validating && |s.board.current| == |s.board.target|
    && ValidateWord(s.board.current, s.normalizedSet, c.lang, s.flags.simulateNetworkError, remote).accepted
  }

  /** Submitting hands the scored row to `AcceptStep`, with the validator's state, under the timer effect. */
  lemma TrySubmits(c: Config, s: Session, remote: Remote, pick: nat, today: Today)
    requires PickOk(s.bank, pick) && Submits(c, s, remote)
    ensures KeyStep(c, s, "TRY", remote, pick, today)
            == SyncTimer(s, AcceptStep(c, Validated(c, s, remote), SubmittedEntry(s.board.current, s.board.target),
                                       pick, today))
  {
  }

  /** An accepted row clears the input and is appended and folded in, unless it wins a timed round. */
  lemma AcceptAppends(c: Config, s: Session, e: GuessEntry, pick: nat, today: Today)
    requires PickOk(s.bank, pick)
    ensures var r := AcceptStep(c, s, e, pick, today);
            r.board.current == []
            && ((c.mode == Timed && AllCorrect(e.statuses))
                || (r.board.guesses == s.board.guesses + [e] && r.board.statuses == Merged(s.board.statuses, e)))
  {
    if c.mode == Timed { if AllCorrect(e.statuses) { } else { } } else { }
  }

  /** Outside timed mode an accepted row ends the round exactly on a win or on the sixth row. */
  lemma AcceptEnds(c: Config, s: Session, e: GuessEntry, pick: nat, today: Today)
    requires PickOk(s.bank, pick) && c.mode != Timed && !s.board.gameOver
    ensures var r := AcceptStep(c, s, e, pick, today);
            var win := AllCorrect(e.statuses);
            (r.board.gameOver <==> win || |s.board.guesses| + 1 == NUM_ROWS)
            && (win ==> r.board.endMsg == YouWin)
            && (!win && |s.board.guesses| + 1 == NUM_ROWS ==> r.board.endMsg == YouLose)
            && !r.flags.validating && r.run.totalPoints == s.run.totalPoints
  {
    if AllCorrect(e.statuses) { } else { }
  }

  /** The points an accepted row leaves: one more on a timed win, none after a timed sixth miss, else unchanged. */
  lemma AcceptPoints(c: Config, s: Session, e: GuessEntry, pick: nat, today: Today)
    requires PickOk(s.bank, pick)
    ensures var r := AcceptStep(c, s, e, pick, today);
            var win := AllCorrect(e.statuses);
            (c.mode == Timed && win ==> r.run.totalPoints == s.run.totalPoints + 1)
            && (c.mode == Timed && !win && |s.board.guesses| + 1 == NUM_ROWS ==> r.run.totalPoints == 0)
            && (c.mode != Timed || (!win && |s.board.guesses| + 1 < NUM_ROWS) ==> r.run.totalPoints == s.run.totalPoints)
  {
    if c.mode == Timed { if AllCorrect(e.statuses) { } else { } } else { }
  }

  /**
   * A submitted guess adds exactly one row, scored against the answer, folds
   * it into the keyboard and clears the input - unless it wins a timed
   * round, which clears the board for the next word.
   */
  lemma SubmittedGuessRecorded(c: Config, s: Session, remote: Remote, pick: nat, today: Today)
    requires PickOk(s.bank, pick) && Submits(c, s, remote)
    ensures var r := KeyStep(c, s, "TRY", remote, pick, today);
            var e := SubmittedEntry(s.board.current, s.board.target);
            r.board.current == []
            && ((c.mode == Timed && AllCorrect(e.statuses))
                || (r.board.guesses == s.board.guesses + [e] && r.board.statuses == Merged(s.board.statuses, e)))
  {
    TrySubmits(c, s, remote, pick, today);
    AcceptAppends(c, Validated(c, s, remote), SubmittedEntry(s.board.current, s.board.target), pick, today);
  }

  /**
   * Outside timed mode the round ends exactly on a winning guess or on the
   * sixth row, with the matching message.
   */
  lemma RoundEndsOnWinOrSixthRow(c: Config, s: Session, remote: Remote, pick: nat, today: Today)
    requires PickOk(s.bank, pick) && Submits(c, s, remote) && c.mode != Timed
    ensures var r := KeyStep(c, s, "TRY", remote, pick, today);
            var win := AllCorrect(SubmittedEntry(s.board.current, s.board.target).statuses);
            (r.board.gameOver <==> win || |s.board.guesses| + 1 == NUM_ROWS)
            && (win ==> r.board.endMsg == YouWin)
            && (!win && |s.board.guesses| + 1 == NUM_ROWS ==> r.board.endMsg == YouLose)
            && !r.flags.validating
  {
    TrySubmits(c, s, remote, pick, today);
    AcceptEnds(c, Validated(c, s, remote), SubmittedEntry(s.board.current, s.board.target), pick, today);
  }

  /** A timed win scores a point, persists it, counts the word, and starts a clear round with a fresh countdown. */
  lemma TimedWinScores(c: Config, s: Session, remote: Remote, pick: nat, today: Today)
    requires PickOk(s.bank, pick) && Submits(c, s, remote) && c.mode == Timed
    requires AllCorrect(SubmittedEntry(s.board.current, s.board.target).statuses)
    ensures var r := KeyStep(c, s, "TRY", remote, pick, today);
            r.run.totalPoints == s.run.totalPoints + 1
            && r.storage == s.storage[POINTS_KEY := PointsText(s.run.totalPoints + 1)]
            && r.run.wordCount == s.run.wordCount + 1
            && r.board.target == NewTarget(s.bank, pick, s.board.target)
            && r.board.guesses == [] && r.board.statuses == map[] && r.hints.penalties == 0
            && !r.hints.synonymsUsed && !r.hints.definitionUsed && !r.board.gameOver && !r.flags.validating
            && r.run.timeLeft == INITIAL_SECONDS
  {
    TrySubmits(c, s, remote, pick, today);
  }

  /**
   * A sixth wrong guess in timed mode ends the run with the words found and
   * resets the points, but leaves `validating` set.
   */
  lemma TimedLossLeavesValidating(c: Config, s: Session, remote: Remote, pick: nat, today: Today)
    requires PickOk(s.bank, pick) && Submits(c, s, remote) && c.mode == Timed
    requires !AllCorrect(SubmittedEntry(s.board.current, s.board.target).statuses)
    requires |s.board.guesses| + 1 == NUM_ROWS
    ensures var r := KeyStep(c, s, "TRY", remote, pick, today);
            r.board.gameOver && r.board.endMsg == LoseWordsFound(s.run.totalPoints) && r.run.totalPoints == 0
            && r.storage == s.storage[POINTS_KEY := PointsText(0)]
            && r.flags.validating
  {
    TrySubmits(c, s, remote, pick, today);
  }

  /**
   * Restarting never clears `validating`, so the first 'TRY' of the
   * restarted game is ignored; `ValidatingForGood` extends this to every
   * later 'TRY'.
   */
  lemma RestartAfterTimedLossIgnoresTry(c: Config, s: Session, pick: nat, remote: Remote, pick2: nat, today: Today)
    requires PickOk(s.bank, pick) && PickOk(s.bank, pick2) && s.flags.validating
    ensures RestartStep(s, pick).flags.validating
    ensures KeyStep(c, RestartStep(s, pick), "TRY", remote, pick2, today) == RestartStep(s, pick)
  {
  }

  // --- Event sequences ----------------------------------------------------------

  /** Everything that can happen to the mounted screen, with the inputs the environment supplies. */
  datatype Event =
    | Press(key: string, remote: Remote, pick: nat, today: Today)
    | Restart(pick: nat)
    | Second
    | Expire
    | SynonymsHint
    | DefinitionHint
    | LoadPoints
    | Load(today: Today, pick: nat)
    | Autofill
    | AutoWinSix
    | ForceLose
    | ResetPoints
    | ToggleSimulation
    | ToggleDetected
    | ResetToday(today: Today, word: string)

  /** The random pick an event carries is an index of the bank it draws from. */
  predicate EventOk(c: Config, s: Session, ev: Event) {
    match ev
    case Press(_, _, pick, _) => PickOk(s.bank, pick)
    case Restart(pick) => PickOk(s.bank, pick)
    case Load(_, pick) => PickOk(BankFor(c.banks, c.lang), pick)
    case _ => true
  }

  /** The handler an event runs. */
  function Apply(c: Config, s: Session, ev: Event): Session
    requires EventOk(c, s, ev)
  {
    match ev
    case Press(key, remote, pick, today) => KeyStep(c, s, key, remote, pick, today)
    case Restart(pick) => RestartStep(s, pick)
    case Second => TickStep(c, s)
    case Expire => TimeoutStep(s)
    case SynonymsHint => SynonymsStep(c, s)
    case DefinitionHint => DefinitionStep(c, s)
    case LoadPoints => LoadPointsStep(s)
    case Load(today, pick) => LoadStep(c, s, today, pick)
    case Autofill => AutofillStep(s)
    case AutoWinSix => AutoWinStep(s)
    case ForceLose => ForceLoseStep(s)
    case ResetPoints => ResetPointsStep(s)
    case ToggleSimulation => ToggleSimulationStep(s)
    case ToggleDetected => ToggleDetectedStep(s)
    case ResetToday(today, word) => ResetWotdStep(c, s, today, word)
  }

  /** Every event of the sequence can happen in the state the earlier ones leave. */
  predicate Playable(c: Config, s: Session, evs: seq<Event>)
    decreases |evs|
  {
    evs == [] || (EventOk(c, s, evs[0]) && Playable(c, Apply(c, s, evs[0]), evs[1..]))
  }

  /** The session after the events, one after the other. */
  function Replay(c: Config, s: Session, evs: seq<Event>): Session
    requires Playable(c, s, evs)
    decreases |evs|
  {
    if evs == [] then s else Replay(c, Apply(c, s, evs[0]), evs[1..])
  }

  /** A key press with `validating` set never clears it, and a 'TRY' does nothing at all. */
  lemma PressKeepsValidating(c: Config, s: Session, key: string, remote: Remote, pick: nat, today: Today)
    requires PickOk(s.bank, pick) && s.flags.validating
    ensures KeyStep(c, s, key, remote, pick, today).flags.validating
    ensures KeyStep(c, s, "TRY", remote, pick, today) == s
  {
  }

  /** No handler of the screen clears `validating`. */
  lemma ValidatingStays(c: Config, s: Session, ev: Event)
    requires EventOk(c, s, ev) && s.flags.validating
    ensures Apply(c, s, ev).flags.validating
  {
    match ev
    case Press(key, remote, pick, today) => PressKeepsValidating(c, s, key, remote, pick, today);
    case _ =>
  }

  /**
   * Once `validating` is left set (as a timed loss leaves it), it stays set
   * whatever happens next, and every later 'TRY' is ignored.
   */
  lemma {:induction false} ValidatingForGood(c: Config, s: Session, evs: seq<Event>, remote: Remote, pick: nat, today: Today)
    requires Playable(c, s, evs) && s.flags.validating
    ensures var r := Replay(c, s, evs);
            r.flags.validating && (PickOk(r.bank, pick) ==> KeyStep(c, r, "TRY", remote, pick, today) == r)
    decreases |evs|
  {
    if evs == [] {
      if PickOk(s.bank, pick) {
        PressKeepsValidating(c, s, "TRY", remote, pick, today);
      }
    } else {
      ValidatingStays(c, s, evs[0]);
      ValidatingForGood(c, Apply(c, s, evs[0]), evs[1..], remote, pick, today);
    }
  }

  /** Only a timed win or a timed end changes the points: outside timed mode, key presses never do. */
  lemma KeyPointsOnlyInTimedMode(c: Config, s: Session, key: string, remote: Remote, pick: nat, today: Today)
    requires PickOk(s.bank, pick)
    ensures var r := KeyStep(c, s, key, remote, pick, today);
            (c.mode != Timed ==> r.run.totalPoints == s.run.totalPoints)
            && (r.run.totalPoints == s.run.totalPoints || r.run.totalPoints == s.run.totalPoints + 1
                || r.run.totalPoints == 0)
  {
    if key == "TRY" && Submits(c, s, remote) {
      TrySubmits(c, s, remote, pick, today);
      AcceptPoints(c, Validated(c, s, remote), SubmittedEntry(s.board.current, s.board.target), pick, today);
    } else if KeysIgnored(c, s) {
    } else if key == "DEL" {
    } else if key == "TRY" {
    } else if IsLetterKey(key) && |s.board.current| < |s.board.target| {
    }
  }

  // --- Word of the day ----------------------------------------------------------

  /** In word-of-the-day mode a row that ends the round is stored, with the round, under today's key. */
  lemma AcceptStoresWotd(c: Config, s: Session, e: GuessEntry, pick: nat, today: Today)
    requires PickOk(s.bank, pick) && c.mode == WordOfDay
    requires AllCorrect(e.statuses) || |s.board.guesses| + 1 == NUM_ROWS
    ensures var r := AcceptStep(c, s, e, pick, today);
            var win := AllCorrect(e.statuses);
            r.flags.wotdCompleted && r.board.gameOver && r.board.target == s.board.target
            && r.board.guesses == s.board.guesses + [e] && r.board.statuses == Merged(s.board.statuses, e)
            && r.board.endMsg == (if win then YouWin else YouLose)
            && r.storage == s.storage[WotdKey(c, today) :=
                 WotdJson(WotdRecord(s.board.target, r.board.guesses, r.board.statuses, win))]
  {
    if AllCorrect(e.statuses) { } else { }
  }

  /** A stored record for today is restored on load: the round over, the day completed. */
  lemma LoadRestoresWotd(c: Config, s: Session, today: Today, pick: nat)
    requires PickOk(BankFor(c.banks, c.lang), pick) && c.mode == WordOfDay
    requires WotdKey(c, today) in s.storage && s.storage[WotdKey(c, today)].WotdJson?
    ensures var l := LoadStep(c, s, today, pick);
            var rec := s.storage[WotdKey(c, today)].record;
            l.board.target == rec.target && l.board.guesses == rec.guesses && l.board.statuses == rec.statuses
            && l.board.gameOver && l.flags.wotdCompleted && l.board.endMsg == (if rec.win then YouWin else YouLose)
            && l.board.current == []
  {
  }

  /**
   * Finishing today's word stores the round under today's key, and a later
   * mount on the same day restores it: the same answer, rows and keyboard,
   * with the round over and the game locked for the day.
   */
  lemma WotdStoredAndRestored(c: Config, s: Session, remote: Remote, pick: nat, today: Today, pick2: nat)
    requires PickOk(s.bank, pick) && PickOk(BankFor(c.banks, c.lang), pick2)
    requires Submits(c, s, remote) && c.mode == WordOfDay
    requires AllCorrect(SubmittedEntry(s.board.current, s.board.target).statuses) || |s.board.guesses| + 1 == NUM_ROWS
    ensures var r := KeyStep(c, s, "TRY", remote, pick, today);
            var e := SubmittedEntry(s.board.current, s.board.target);
            var win := AllCorrect(e.statuses);
            r.flags.wotdCompleted
            && r.storage == s.storage[WotdKey(c, today) :=
                 WotdJson(WotdRecord(s.board.target, s.board.guesses + [e], Merged(s.board.statuses, e), win))]
            && var l := LoadStep(c, Initial(r.storage), today, pick2);
               l.board.target == s.board.target && l.board.guesses == r.board.guesses
               && l.board.statuses == r.board.statuses
               && l.board.gameOver && l.flags.wotdCompleted && l.board.endMsg == r.board.endMsg
               && KeysIgnored(c, l)
  {
    var e := SubmittedEntry(s.board.current, s.board.target);
    var r := KeyStep(c, s, "TRY", remote, pick, today);
    TrySubmits(c, s, remote, pick, today);
    AcceptStoresWotd(c, Validated(c, s, remote), e, pick, today);
    LoadRestoresWotd(c, Initial(r.storage), today, pick2);
  }

  /** Without a record for today, the round starts clear on the daily word. */
  lemma WotdFreshStart(c: Config, s: Session, today: Today, pick: nat)
    requires PickOk(BankFor(c.banks, c.lang), pick)
    requires c.mode == WordOfDay && WotdKey(c, today) !in s.storage
    ensures var l := LoadStep(c, s, today, pick);
            l.board.target == DailyWord(BankFor(c.banks, c.lang), today.daysSince)
            && l.board.guesses == [] && l.board.statuses == map[] && l.board.current == []
            && !l.board.gameOver && !l.flags.wotdCompleted
            && l.normalizedSet == WordForms(BankFor(c.banks, c.lang))
  {
  }

  /** A record that does not parse is removed; no answer is picked and the day is not completed. */
  lemma WotdCorruptRecordDropped(c: Config, s: Session, today: Today, pick: nat)
    requires PickOk(BankFor(c.banks, c.lang), pick)
    requires c.mode == WordOfDay && WotdKey(c, today) in s.storage && !s.storage[WotdKey(c, today)].WotdJson?
    ensures var l := LoadStep(c, s, today, pick);
            l.storage == s.storage - {WotdKey(c, today)} && l.board == s.board
            && !l.flags.wotdCompleted && l.flags.wotdLoaded
  {
  }

  /** Outside word-of-the-day mode the load picks a random word and clears the board, but keeps `gameOver`. */
  lemma LoadOtherModes(c: Config, s: Session, today: Today, pick: nat)
    requires PickOk(BankFor(c.banks, c.lang), pick) && c.mode != WordOfDay
    ensures var l := LoadStep(c, s, today, pick);
            l.board.target == NewTarget(BankFor(c.banks, c.lang), pick, s.board.target)
            && l.board.guesses == [] && l.board.statuses == map[] && l.board.current == []
            && l.board.gameOver == s.board.gameOver && l.storage == s.storage
  {
  }

  /** Loading keeps the board consistent (given consistent storage). */
  lemma LoadKeepsConsistent(c: Config, s: Session, today: Today, pick: nat)
    requires PickOk(BankFor(c.banks, c.lang), pick) && Consistent(s)
    ensures Consistent(LoadStep(c, s, today, pick))
  {
    var key := WotdKey(c, today);
    if c.mode == WordOfDay && key in s.storage && !s.storage[key].WotdJson? {
      assert StorageOk(s.storage - {key});
    }
  }

  // --- Restart, timer, hints ------------------------------------------------------

  /** Restart zeroes the points, counts from word 1 and clears the board, keeping it consistent. */
  lemma RestartClears(s: Session, pick: nat)
    requires PickOk(s.bank, pick)
    ensures var r := RestartStep(s, pick);
            r.run.totalPoints == 0 && r.storage == s.storage[POINTS_KEY := PointsText(0)] && r.run.wordCount == 1
            && !r.board.gameOver && r.board.guesses == [] && r.board.statuses == map[] && r.board.current == []
            && r.hints.penalties == 0 && !r.hints.synonymsUsed && !r.hints.definitionUsed
            && r.flags.validating == s.flags.validating && r.board.endMsg == s.board.endMsg
    ensures Consistent(s) ==> Consistent(RestartStep(s, pick))
  {
    if Consistent(s) {
      PointsWriteKeepsStorage(s.storage, 0);
    }
  }

  /** The countdown ends the timed round at its last second: points reset, and the timer shows the initial time again. */
  lemma TickTimesOut(c: Config, s: Session)
    requires c.mode == Timed && !s.board.gameOver && s.run.timeLeft <= 1
    ensures var r := TickStep(c, s);
            r.board.gameOver && r.board.endMsg == TimeUp(s.run.totalPoints) && r.run.totalPoints == 0
            && r.storage == s.storage[POINTS_KEY := PointsText(0)] && r.run.timeLeft == INITIAL_SECONDS
            && r.board.guesses == s.board.guesses
  {
  }

  /** The countdown only runs in timed mode while the round is on, one second per tick. */
  lemma TickCountsDown(c: Config, s: Session)
    ensures c.mode != Timed || s.board.gameOver ==> TickStep(c, s) == s
    ensures c.mode == Timed && !s.board.gameOver && s.run.timeLeft > 1 ==>
              TickStep(c, s) == s.(run := s.run.(timeLeft := s.run.timeLeft - 1))
  {
  }

  /** A tick keeps the board consistent. */
  lemma TickKeepsConsistent(c: Config, s: Session)
    requires Consistent(s)
    ensures Consistent(TickStep(c, s))
  {
    if c.mode == Timed && !s.board.gameOver && s.run.timeLeft <= 1 {
      PointsWriteKeepsStorage(s.storage, 0);
    }
  }

  /**
   * The synonyms hint costs 4 x rows-left squared the first time in a
   * penalised mode and nothing afterwards; in freeplay and word of the day it
   * is free.
   */
  lemma SynonymsPenalty(c: Config, s: Session)
    ensures var r := SynonymsStep(c, s);
            var rows := NUM_ROWS - |s.board.guesses|;
            r.hints.penalties == s.hints.penalties
                                 + (if HintsPenalised(c.mode) && !s.hints.synonymsUsed then 4 * rows * rows else 0)
            && r.hints.synonymsList == GetSynonymsLocal(s.board.target, s.bank)
            && r.board == s.board && r.storage == s.storage
    ensures SynonymsStep(c, SynonymsStep(c, s)).hints.penalties == SynonymsStep(c, s).hints.penalties
  {
    var rows := NUM_ROWS - |s.board.guesses|;
    var r := SynonymsStep(c, s);
    if HintsPenalised(c.mode) && !s.hints.synonymsUsed {
      assert SynPenalty(rows, false) == 4 * rows * rows;
      assert r.hints.penalties == s.hints.penalties + 4 * rows * rows;
      assert r.hints.synonymsUsed;
    } else {
      assert r.hints.penalties == s.hints.penalties;
    }
    assert r.hints.synonymsUsed || !HintsPenalised(c.mode);
    var r2 := SynonymsStep(c, r);
    assert r2.hints.penalties == r.hints.penalties;
  }

  /**
   * The definition hint costs 2 x rows-left squared the first time in a
   * penalised mode and nothing afterwards; in freeplay and word of the day it
   * is free.
   */
  lemma DefinitionPenalty(c: Config, s: Session)
    ensures var r := DefinitionStep(c, s);
            var rows := NUM_ROWS - |s.board.guesses|;
            r.hints.penalties == s.hints.penalties
                                 + (if HintsPenalised(c.mode) && !s.hints.definitionUsed then 2 * rows * rows else 0)
            && r.hints.definitionText == GetDefinitionLocal(s.board.target, s.bank)
            && r.board == s.board && r.storage == s.storage
    ensures DefinitionStep(c, DefinitionStep(c, s)).hints.penalties == DefinitionStep(c, s).hints.penalties
  {
    var rows := NUM_ROWS - |s.board.guesses|;
    var r := DefinitionStep(c, s);
    if HintsPenalised(c.mode) && !s.hints.definitionUsed {
      assert DefPenalty(rows, false) == 2 * rows * rows;
      assert r.hints.penalties == s.hints.penalties + 2 * rows * rows;
      assert r.hints.definitionUsed;
    } else {
      assert r.hints.penalties == s.hints.penalties;
    }
    assert r.hints.definitionUsed || !HintsPenalised(c.mode);
    var r2 := DefinitionStep(c, r);
    assert r2.hints.penalties == r.hints.penalties;
  }

  // --- Developer actions ------------------------------------------------------------

  /** Each board action does nothing on an empty bank. */
  lemma DevBoardActionsNeedABank(s: Session)
    requires s.bank == []
    ensures AutofillStep(s) == s && AutoWinStep(s) == s && ForceLoseStep(s) == s
  {
  }

  /** The autofilled board: up to five rows, none the answer, round still on. */
  lemma AutofillBoard(s: Session)
    requires s.bank != [] && StorageOk(s.storage)
    ensures var a := AutofillStep(s);
            a.board.guesses == AutofillEntries(s.bank, s.board.target) && !a.board.gameOver
            && (forall i :: 0 <= i < |a.board.guesses| ==> a.board.guesses[i].letters != s.board.target)
            && Consistent(a)
  {
  }

  /** The auto-won board: wrong rows then the answer in green, round over. */
  lemma AutoWinBoard(s: Session)
    requires s.bank != [] && StorageOk(s.storage)
    ensures var w := AutoWinStep(s);
            w.board.guesses == AutoWinEntries(s.bank, s.board.target) && w.board.gameOver
            && w.board.guesses[|w.board.guesses| - 1] == WinEntry(s.board.target)
            && AllCorrect(w.board.guesses[|w.board.guesses| - 1].statuses)
            && Consistent(w)
  {
  }

  /** The force-lost board: up to six rows, none the answer, round over. */
  lemma ForceLoseBoard(s: Session)
    requires s.bank != [] && StorageOk(s.storage)
    ensures var l := ForceLoseStep(s);
            l.board.guesses == ForceLoseEntries(s.bank, s.board.target) && l.board.gameOver
            && (forall i :: 0 <= i < |l.board.guesses| ==> l.board.guesses[i].letters != s.board.target)
            && Consistent(l)
  {
  }

  /** Either network-error switch, pressed twice, leaves the session as it was; each changes only its flag. */
  lemma DevToggles(s: Session)
    ensures ToggleSimulationStep(ToggleSimulationStep(s)) == s
    ensures ToggleDetectedStep(ToggleDetectedStep(s)) == s
    ensures ToggleSimulationStep(s).flags.simulateNetworkError != s.flags.simulateNetworkError
    ensures ToggleDetectedStep(s).flags.networkErrorDetected != s.flags.networkErrorDetected
  {
  }

  /** Resetting today's word does nothing outside word-of-the-day mode, and otherwise forgets today's record and clears the board. */
  lemma ResetWotd(c: Config, s: Session, today: Today, word: string)
    ensures c.mode != WordOfDay ==> ResetWotdStep(c, s, today, word) == s
    ensures c.mode == WordOfDay ==>
              var r := ResetWotdStep(c, s, today, word);
              WotdKey(c, today) !in r.storage && r.board.target == word && r.board.guesses == []
              && r.board.current == [] && r.board.statuses == map[] && r.hints.penalties == 0
              && !r.hints.synonymsUsed && !r.hints.definitionUsed && !r.board.gameOver && !r.flags.wotdCompleted
    ensures Consistent(s) ==> Consistent(ResetWotdStep(c, s, today, word))
  {
  }

  /** The screen resets to today's word; the hook to a bank word, or nothing for an empty bank. */
  lemma ResetWords(c: Config, today: Today, pick: nat)
    requires PickOk(BankFor(c.banks, c.lang), pick)
    ensures BankFor(c.banks, c.lang) == [] ==> ScreenResetWord(c, today) == [] && HookResetWord(c, pick) == []
    ensures BankFor(c.banks, c.lang) != [] ==>
              exists i :: 0 <= i < |BankFor(c.banks, c.lang)|
                          && HookResetWord(c, pick) == Upper(BankFor(c.banks, c.lang)[i].word)
  {
    var b := BankFor(c.banks, c.lang);
    if b != [] {
      assert HookResetWord(c, pick) == Upper(b[pick].word);
    }
  }

}
