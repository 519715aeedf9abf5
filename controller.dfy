/**
 * The game loop and key handling of src/com/tetris/controller/GameController.java.
 *
 * The boards are opaque collaborators: their logic is not part of this
 * model. The controller records every command it issues to a board, in
 * order, in its `calls` field, and every answer it reads from a board is an
 * input to the step that reads it, including answers read after a command
 * (the line-clear timer after `decrementLineClearTimer`, `isGameOver` after
 * `finishLineClear`). The clock, the key code and key character, and the
 * profile the database returns are inputs as well.
 */
module GameControl {
  datatype Option<T> = None | Some(value: T)

  datatype GameMode = OnePlayer | TwoPlayer

  datatype GameScreen =
    | MainMenu
    | ModeSelect
    | RankingScreen
    | RankingScreen2P
    | RulesScreen
    | ControlsScreen
    | PausedMain
    | PausedControls
    | PausedRules
    | ProfileSelection

  /** Which of the two boards a command goes to. */
  datatype Player = P1 | P2

  /** The mutating `Board` methods the controller calls. */
  datatype BoardCommand =
    | Start
    | ResetForMenu
    | MoveLeft
    | MoveRight
    | MovePieceDown
    | RotateLeft
    | RotateRight
    | DropDown
    | ToggleGhostPiece
    | DecrementLineClearTimer
    | FinishLineClear
    | NewPiece
    | AddIncomingGarbage(lines: int)
    | ClearOutgoingGarbage
    | AddWin

  datatype Call = Call(board: Player, command: BoardCommand)

  /** The key codes the controller distinguishes; every other code is `OtherKey`. */
  datatype Key =
    | KeyUp | KeyDown | KeyLeft | KeyRight
    | KeyW | KeyA | KeyS | KeyD | KeyQ | KeyZ | KeyM | KeyN
    | KeyP | KeyT | KeyG
    | KeyEnter | KeyEscape | KeyBackSpace | KeySpace
    | OtherKey

  /** The logged-in profile, known to the controller only through its id. */
  type UserId = int

  const InitialDelay: int := 400
  const MinDelay: int := 100
  const DelayStep: int := 30
  const MainMenuOptions: int := 5
  const ModeSelectOptions: int := 2
  const GameOverMenuOptions: int := 2
  const PauseMenuOptions: int := 4
  /** `Theme.AVAILABLE_THEMES.length`. */
  const ThemeCount: int := 3
  const MaxNameLength: int := 15

  // ---------------------------------------------------------------------
  // Menu selection

  /**
   * `(s - 1 + n) % n`: one entry up, wrapping from the first to the last.
   * The operand is never negative, so Java's `%` and Dafny's agree.
   */
  function SelectPrevious(s: int, n: int): (r: int)
    requires 0 <= s < n
    ensures 0 <= r < n
    ensures r == if s == 0 then n - 1 else s - 1
  {
    (s - 1 + n) % n
  }

  /** `(s + 1) % n`: one entry down, wrapping from the last to the first. */
  function SelectNext(s: int, n: int): (r: int)
    requires 0 <= s < n
    ensures 0 <= r < n
    ensures r == if s == n - 1 then 0 else s + 1
  {
    (s + 1) % n
  }

  /** Up then down, or down then up, returns to the same entry. */
  lemma SelectionStepsInverse(s: int, n: int)
    requires 0 <= s < n
    ensures SelectNext(SelectPrevious(s, n), n) == s
    ensures SelectPrevious(SelectNext(s, n), n) == s
  {
  }

  // ---------------------------------------------------------------------
  // Gravity

  /** `getDelayForLevel`: milliseconds between automatic drops, `max(100, 400 - (level - 1) * 30)`. */
  function DelayForLevel(level: int): (d: int)
    ensures d >= MinDelay
    ensures level == 1 ==> d == InitialDelay
    ensures d == MinDelay <==> level >= 11
    ensures level <= 11 ==> d == InitialDelay - (level - 1) * DelayStep
  {
    var v := InitialDelay - (level - 1) * DelayStep;
    if MinDelay >= v then MinDelay else v
  }

  /** A higher level never drops more slowly. */
  lemma DelayNonIncreasing(a: int, b: int)
    requires a <= b
    ensures DelayForLevel(b) <= DelayForLevel(a)
  {
  }

  // ---------------------------------------------------------------------
  // One board's share of a tick

  /** What a board answers to the queries `handlePlayerLogic` makes, in the order it makes them. */
  datatype PlayerReads = PlayerReads(
    gameOver: bool,              // isGameOver() on entry
    animating: bool,             // isAnimatingLineClear()
    timerAfterDecrement: int,    // getLineClearTimer() after decrementLineClearTimer()
    gameOverAfterFinish: bool,   // isGameOver() after finishLineClear()
    started: bool)               // isStarted()

  /** The commands `handlePlayerLogic` issues to board `b`, given its answers and the time since its last drop. */
  function PlayerLogicCalls(b: Player, r: PlayerReads, elapsed: int, delay: int): seq<Call> {
    if r.gameOver then []
    else if r.animating then
      [Call(b, DecrementLineClearTimer)]
      + (if r.timerAfterDecrement <= 0 then
           [Call(b, FinishLineClear)] + (if !r.gameOverAfterFinish then [Call(b, NewPiece)] else [])
         else [])
    else if r.started && elapsed > delay then [Call(b, MovePieceDown)]
    else []
  }

  /** A command that moves, turns or drops the falling piece. */
  predicate IsPieceCommand(c: BoardCommand) {
    c.MoveLeft? || c.MoveRight? || c.MovePieceDown? || c.RotateLeft? || c.RotateRight? || c.DropDown?
  }

  /**
   * A board that is over gets nothing; an animating board has its timer
   * decremented, is finished only once the timer reaches zero, gets a new
   * piece only if it is still not over after that, and never falls in the
   * same tick; any other board falls iff it is started and its delay has
   * passed.
   */
  lemma PlayerLogicOrdering(b: Player, r: PlayerReads, elapsed: int, delay: int)
    ensures var c := PlayerLogicCalls(b, r, elapsed, delay);
      && (forall k :: 0 <= k < |c| ==> c[k].board == b)
      && (forall k :: 0 <= k < |c| ==> !c[k].command.AddIncomingGarbage? && !c[k].command.ClearOutgoingGarbage? && !c[k].command.AddWin?)
      && (r.gameOver ==> c == [])
      && (!r.gameOver && r.animating ==>
            && c[0] == Call(b, DecrementLineClearTimer)
            && Call(b, MovePieceDown) !in c
            && (Call(b, FinishLineClear) in c <==> r.timerAfterDecrement <= 0)
            && (Call(b, NewPiece) in c <==> r.timerAfterDecrement <= 0 && !r.gameOverAfterFinish)
            && (Call(b, NewPiece) in c ==> c[1] == Call(b, FinishLineClear)))
      && (!r.gameOver && !r.animating ==>
            (c == [Call(b, MovePieceDown)] <==> r.started && elapsed > delay)
            && (c == [] <==> !(r.started && elapsed > delay)))
  {
  }

  // ---------------------------------------------------------------------
  // Garbage exchange

  /** The commands of the garbage exchange, given the two outgoing counts. */
  function GarbageExchangeCalls(out1: int, out2: int): seq<Call> {
    if out1 > 0 || out2 > 0 then
      (if out1 > out2 then [Call(P2, AddIncomingGarbage(out1 - out2))]
       else if out2 > out1 then [Call(P1, AddIncomingGarbage(out2 - out1))]
       else [])
      + [Call(P1, ClearOutgoingGarbage), Call(P2, ClearOutgoingGarbage)]
    else []
  }

  /** Total garbage lines sent to board `b` by the commands `c`. */
  function IncomingTo(c: seq<Call>, b: Player): int {
    if c == [] then 0
    else (if c[0].board == b && c[0].command.AddIncomingGarbage? then c[0].command.lines else 0) + IncomingTo(c[1..], b)
  }

  lemma {:induction false} IncomingToConcat(c: seq<Call>, d: seq<Call>, b: Player)
    ensures IncomingTo(c + d, b) == IncomingTo(c, b) + IncomingTo(d, b)
  {
    if c == [] {
      assert c + d == d;
    } else {
      assert (c + d)[0] == c[0];
      assert (c + d)[1..] == c[1..] + d;
      IncomingToConcat(c[1..], d, b);
    }
  }

  /** How many `addWin` calls the commands `c` hold. */
  function WinsIn(c: seq<Call>): nat {
    if c == [] then 0 else (if c[0].command.AddWin? then 1 else 0) + WinsIn(c[1..])
  }

  lemma {:induction false} WinsInConcat(c: seq<Call>, d: seq<Call>)
    ensures WinsIn(c + d) == WinsIn(c) + WinsIn(d)
  {
    if c == [] {
      assert c + d == d;
    } else {
      assert (c + d)[0] == c[0];
      assert (c + d)[1..] == c[1..] + d;
      WinsInConcat(c[1..], d);
    }
  }

  /** Commands without an `addWin` count no wins. */
  lemma {:induction false} NoWinsIn(c: seq<Call>)
    requires forall k :: 0 <= k < |c| ==> !c[k].command.AddWin?
    ensures WinsIn(c) == 0
  {
    if c != [] {
      NoWinsIn(c[1..]);
    }
  }

  /** Commands that send or clear garbage. */
  predicate IsGarbageCommand(c: BoardCommand) {
    c.AddIncomingGarbage? || c.ClearOutgoingGarbage?
  }

  /**
   * Only the difference travels, from the board with more to the board with
   * less, and nothing travels when the counts are equal.
   */
  lemma GarbageTransfer(out1: int, out2: int)
    ensures var c := GarbageExchangeCalls(out1, out2);
      && (out1 > out2 && out1 > 0 ==> IncomingTo(c, P2) == out1 - out2 && IncomingTo(c, P1) == 0)
      && (out2 > out1 && out2 > 0 ==> IncomingTo(c, P1) == out2 - out1 && IncomingTo(c, P2) == 0)
      && (out1 == out2 ==> forall k :: 0 <= k < |c| ==> !c[k].command.AddIncomingGarbage?)
  {
    var clears := [Call(P1, ClearOutgoingGarbage), Call(P2, ClearOutgoingGarbage)];
    NoGarbageSent(clears);
    if out1 > 0 || out2 > 0 {
      var sent := if out1 > out2 then [Call(P2, AddIncomingGarbage(out1 - out2))]
                  else if out2 > out1 then [Call(P1, AddIncomingGarbage(out2 - out1))]
                  else [];
      assert GarbageExchangeCalls(out1, out2) == sent + clears;
      IncomingToConcat(sent, clears, P1);
      IncomingToConcat(sent, clears, P2);
    }
  }

  /**
   * When either count is positive both are cleared, even when they are
   * equal; when neither is, no board is called.
   */
  lemma GarbageClearing(out1: int, out2: int)
    ensures var c := GarbageExchangeCalls(out1, out2);
      && ((out1 > 0 || out2 > 0) <==> Call(P1, ClearOutgoingGarbage) in c && Call(P2, ClearOutgoingGarbage) in c)
      && (out1 <= 0 && out2 <= 0 ==> c == [])
  {
    var c := GarbageExchangeCalls(out1, out2);
    if out1 > 0 || out2 > 0 {
      assert c[|c| - 2] == Call(P1, ClearOutgoingGarbage);
      assert c[|c| - 1] == Call(P2, ClearOutgoingGarbage);
    }
  }

  // ---------------------------------------------------------------------
  // Round end

  /** A one-player round ends when board 1 is over; a two-player round when either board is. */
  predicate RoundFinished(mode: GameMode, over1: bool, over2: bool) {
    if mode == OnePlayer then over1 else over1 || over2
  }

  /** The `addWin` calls at the end of a round: to the survivor of a two-player round, if someone is logged in. */
  function WinCalls(mode: GameMode, loggedIn: bool, over1: bool, over2: bool): seq<Call> {
    if loggedIn && mode == TwoPlayer then
      if over1 && !over2 then [Call(P2, AddWin)]
      else if over2 && !over1 then [Call(P1, AddWin)]
      else []
    else []
  }

  /** A win goes only to the one surviving board, only in a two-player round with a user logged in; a draw awards nothing. */
  lemma WinAwarding(mode: GameMode, loggedIn: bool, over1: bool, over2: bool)
    ensures var w := WinCalls(mode, loggedIn, over1, over2);
      && |w| <= 1
      && (forall k :: 0 <= k < |w| ==> w[k].command == AddWin)
      && (Call(P2, AddWin) in w <==> mode == TwoPlayer && loggedIn && over1 && !over2)
      && (Call(P1, AddWin) in w <==> mode == TwoPlayer && loggedIn && over2 && !over1)
      && (over1 == over2 ==> w == [])
  {
  }

  // ---------------------------------------------------------------------
  // The whole tick

  /** What the boards answer during one tick of `actionPerformed`, in query order. */
  datatype TickReads = TickReads(
    started1: bool,        // board1.isStarted()
    level1: int,           // board1.getLevel()
    player1: PlayerReads,  // board 1 during handlePlayerLogic
    level2: int,           // board2.getLevel()
    player2: PlayerReads,  // board 2 during handlePlayerLogic
    outgoing1: int,        // board1.getOutgoingGarbage()
    outgoing2: int,        // board2.getOutgoingGarbage()
    over1: bool,           // board1.isGameOver() at the round-end check
    over2: bool)           // board2.isGameOver() at the round-end check

  /** The tick does anything only while board 1 is started and no pause or profile screen is up. */
  predicate GameRunning(started1: bool, screen: Option<GameScreen>) {
    && started1
    && screen != Some(PausedMain)
    && screen != Some(PausedControls)
    && screen != Some(PausedRules)
    && screen != Some(ProfileSelection)
  }

  /** The commands of a running tick before the garbage exchange: the per-board steps. */
  function MoveCalls(mode: GameMode, now: int, last1: int, last2: int, t: TickReads): seq<Call> {
    PlayerLogicCalls(P1, t.player1, now - last1, DelayForLevel(t.level1))
    + (if mode == TwoPlayer then PlayerLogicCalls(P2, t.player2, now - last2, DelayForLevel(t.level2)) else [])
  }

  /** The commands of a running tick from the garbage exchange on. */
  function EndOfTickCalls(mode: GameMode, timerRunning: bool, loggedIn: bool, t: TickReads): seq<Call> {
    (if mode == TwoPlayer then GarbageExchangeCalls(t.outgoing1, t.outgoing2) else [])
    + (if RoundFinished(mode, t.over1, t.over2) && timerRunning then WinCalls(mode, loggedIn, t.over1, t.over2) else [])
  }

  /** Every command one tick of `actionPerformed` issues, in order: the per-board steps, then the closing steps. */
  function TickCalls(mode: GameMode, screen: Option<GameScreen>, timerRunning: bool, loggedIn: bool,
                     now: int, last1: int, last2: int, t: TickReads): seq<Call>
  {
    if !GameRunning(t.started1, screen) then []
    else MoveCalls(mode, now, last1, last2, t) + EndOfTickCalls(mode, timerRunning, loggedIn, t)
  }

  /** A one-player tick touches board 1 only, and never exchanges garbage or awards a win. */
  lemma TickOnePlayer(screen: Option<GameScreen>, timerRunning: bool, loggedIn: bool,
                      now: int, last1: int, last2: int, t: TickReads)
    ensures var c := TickCalls(OnePlayer, screen, timerRunning, loggedIn, now, last1, last2, t);
      forall k :: 0 <= k < |c| ==> c[k].board == P1 && !IsGarbageCommand(c[k].command) && !c[k].command.AddWin?
  {
    PlayerLogicOrdering(P1, t.player1, now - last1, DelayForLevel(t.level1));
  }

  /**
   * In a running two-player tick, for any non-negative outgoing counts,
   * board 2 receives exactly the difference `outgoing1 - outgoing2` more
   * than board 1 receives, and one of the two receives nothing.
   */
  lemma TickGarbageNetTransfer(screen: Option<GameScreen>, timerRunning: bool, loggedIn: bool,
                               now: int, last1: int, last2: int, t: TickReads)
    requires GameRunning(t.started1, screen)
    requires t.outgoing1 >= 0 && t.outgoing2 >= 0
    ensures var c := TickCalls(TwoPlayer, screen, timerRunning, loggedIn, now, last1, last2, t);
      && IncomingTo(c, P2) - IncomingTo(c, P1) == t.outgoing1 - t.outgoing2
      && (IncomingTo(c, P1) == 0 || IncomingTo(c, P2) == 0)
  {
    var m := MoveCalls(TwoPlayer, now, last1, last2, t);
    var g := GarbageExchangeCalls(t.outgoing1, t.outgoing2);
    var w := if RoundFinished(TwoPlayer, t.over1, t.over2) && timerRunning then WinCalls(TwoPlayer, loggedIn, t.over1, t.over2) else [];
    assert EndOfTickCalls(TwoPlayer, timerRunning, loggedIn, t) == g + w;
    MovesSendNoGarbage(TwoPlayer, now, last1, last2, t);
    WinAwarding(TwoPlayer, loggedIn, t.over1, t.over2);
    NoGarbageSent(w);
    GarbageTransfer(t.outgoing1, t.outgoing2);
    if t.outgoing1 == t.outgoing2 {
      NoGarbageSent(g);
    }
    IncomingToConcat(g, w, P1);
    IncomingToConcat(g, w, P2);
    IncomingToConcat(m, g + w, P1);
    IncomingToConcat(m, g + w, P2);
  }

  /** The per-board steps of a tick send no garbage. */
  lemma MovesSendNoGarbage(mode: GameMode, now: int, last1: int, last2: int, t: TickReads)
    ensures IncomingTo(MoveCalls(mode, now, last1, last2, t), P1) == 0
    ensures IncomingTo(MoveCalls(mode, now, last1, last2, t), P2) == 0
  {
    var a := PlayerLogicCalls(P1, t.player1, now - last1, DelayForLevel(t.level1));
    var b := if mode == TwoPlayer then PlayerLogicCalls(P2, t.player2, now - last2, DelayForLevel(t.level2)) else [];
    PlayerLogicOrdering(P1, t.player1, now - last1, DelayForLevel(t.level1));
    PlayerLogicOrdering(P2, t.player2, now - last2, DelayForLevel(t.level2));
    NoGarbageSent(a);
    NoGarbageSent(b);
    IncomingToConcat(a, b, P1);
    IncomingToConcat(a, b, P2);
  }

  /**
   * Garbage is sent or cleared only in a two-player tick, and only while
   * board 1 is started and no pause or profile screen is up.
   */
  lemma GarbageOnlyInRunningTwoPlayerTick(mode: GameMode, screen: Option<GameScreen>, timerRunning: bool, loggedIn: bool,
                                          now: int, last1: int, last2: int, t: TickReads)
    ensures var c := TickCalls(mode, screen, timerRunning, loggedIn, now, last1, last2, t);
      forall k :: 0 <= k < |c| && IsGarbageCommand(c[k].command) ==> mode == TwoPlayer && GameRunning(t.started1, screen)
  {
    if mode == OnePlayer {
      TickOnePlayer(screen, timerRunning, loggedIn, now, last1, last2, t);
    }
  }

  /** Commands that send no garbage add nothing to either board's incoming total. */
  lemma {:induction false} NoGarbageSent(c: seq<Call>)
    requires forall k :: 0 <= k < |c| ==> !c[k].command.AddIncomingGarbage?
    ensures IncomingTo(c, P1) == 0 && IncomingTo(c, P2) == 0
  {
    if c != [] {
      NoGarbageSent(c[1..]);
    }
  }

  /** Once the loop timer is stopped no tick awards a win again, and a tick awards at most one. */
  lemma TickAwardsAtMostOnce(mode: GameMode, screen: Option<GameScreen>, timerRunning: bool, loggedIn: bool,
                             now: int, last1: int, last2: int, t: TickReads)
    ensures var c := TickCalls(mode, screen, timerRunning, loggedIn, now, last1, last2, t);
      && WinsIn(c) <= 1
      && (!timerRunning ==> WinsIn(c) == 0)
  {
    if GameRunning(t.started1, screen) {
      MovesAwardNoWin(mode, now, last1, last2, t);
      EndAwardsAtMostOnce(mode, timerRunning, loggedIn, t);
      WinsInConcat(MoveCalls(mode, now, last1, last2, t), EndOfTickCalls(mode, timerRunning, loggedIn, t));
    }
  }

  /** The per-board steps of a tick award no win. */
  lemma MovesAwardNoWin(mode: GameMode, now: int, last1: int, last2: int, t: TickReads)
    ensures WinsIn(MoveCalls(mode, now, last1, last2, t)) == 0
  {
    var a := PlayerLogicCalls(P1, t.player1, now - last1, DelayForLevel(t.level1));
    var b := if mode == TwoPlayer then PlayerLogicCalls(P2, t.player2, now - last2, DelayForLevel(t.level2)) else [];
    PlayerLogicOrdering(P1, t.player1, now - last1, DelayForLevel(t.level1));
    PlayerLogicOrdering(P2, t.player2, now - last2, DelayForLevel(t.level2));
    NoWinsIn(a);
    NoWinsIn(b);
    WinsInConcat(a, b);
  }

  /** The closing steps of a tick award at most one win, and none while the loop timer is stopped. */
  lemma EndAwardsAtMostOnce(mode: GameMode, timerRunning: bool, loggedIn: bool, t: TickReads)
    ensures var e := EndOfTickCalls(mode, timerRunning, loggedIn, t);
      WinsIn(e) <= 1 && (!timerRunning ==> WinsIn(e) == 0)
  {
    var g := if mode == TwoPlayer then GarbageExchangeCalls(t.outgoing1, t.outgoing2) else [];
    var w := if RoundFinished(mode, t.over1, t.over2) && timerRunning then WinCalls(mode, loggedIn, t.over1, t.over2) else [];
    NoWinsIn(g);
    WinAwarding(mode, loggedIn, t.over1, t.over2);
    assert WinsIn(w) <= |w|;
    WinsInConcat(g, w);
  }

  /** Concatenation is associative; the methods below build their logs one append at a time. */
  lemma AppendAssoc<T>(s: seq<T>, a: seq<T>, b: seq<T>)
    ensures s + a + b == s + (a + b)
  {
  }

  // ---------------------------------------------------------------------
  // Game keys

  /** The one-player key map: arrows move and drop, Up turns right, Z turns left, Space hard-drops. */
  function OnePlayerKeyCalls(key: Key): seq<Call> {
    match key
    case KeyLeft => [Call(P1, MoveLeft)]
    case KeyRight => [Call(P1, MoveRight)]
    case KeyDown => [Call(P1, MovePieceDown)]
    case KeyUp => [Call(P1, RotateRight)]
    case KeyZ => [Call(P1, RotateLeft)]
    case KeySpace => [Call(P1, DropDown)]
    case _ => []
  }

  /** The two-player key map: A/D/S/W/Q/Space for board 1, arrows/M/N for board 2, each only if that board can play. */
  function TwoPlayerKeyCalls(key: Key, canPlay1: bool, canPlay2: bool): seq<Call> {
    match key
    case KeyA => if canPlay1 then [Call(P1, MoveLeft)] else []
    case KeyD => if canPlay1 then [Call(P1, MoveRight)] else []
    case KeyS => if canPlay1 then [Call(P1, MovePieceDown)] else []
    case KeyW => if canPlay1 then [Call(P1, RotateRight)] else []
    case KeyQ => if canPlay1 then [Call(P1, RotateLeft)] else []
    case KeySpace => if canPlay1 then [Call(P1, DropDown)] else []
    case KeyLeft => if canPlay2 then [Call(P2, MoveLeft)] else []
    case KeyRight => if canPlay2 then [Call(P2, MoveRight)] else []
    case KeyDown => if canPlay2 then [Call(P2, MovePieceDown)] else []
    case KeyUp => if canPlay2 then [Call(P2, RotateRight)] else []
    case KeyM => if canPlay2 then [Call(P2, RotateLeft)] else []
    case KeyN => if canPlay2 then [Call(P2, DropDown)] else []
    case _ => []
  }

  /** The commands `handleGameKeys` issues for a key other than T, G and P. */
  function GameKeyCalls(mode: GameMode, key: Key, animating1: bool, animating2: bool): seq<Call> {
    var canPlay1 := !animating1;
    var canPlay2 := mode == TwoPlayer && !animating2;
    (if mode == OnePlayer && canPlay1 then OnePlayerKeyCalls(key) else [])
    + (if mode == TwoPlayer then TwoPlayerKeyCalls(key, canPlay1, canPlay2) else [])
  }

  /**
   * A key moves, turns or drops at most one piece, never one on a board that
   * is animating a line clear, and never board 2's in a one-player game.
   */
  lemma GameKeysRespectAnimation(mode: GameMode, key: Key, animating1: bool, animating2: bool)
    ensures var c := GameKeyCalls(mode, key, animating1, animating2);
      && |c| <= 1
      && (forall k :: 0 <= k < |c| ==> IsPieceCommand(c[k].command))
      && (forall k :: 0 <= k < |c| && c[k].board == P1 ==> !animating1)
      && (forall k :: 0 <= k < |c| && c[k].board == P2 ==> !animating2 && mode == TwoPlayer)
  {
  }

  /** Whether `key` is a soft or hard drop for board `b` that `handleGameKeys` lets through. */
  predicate DropKey(mode: GameMode, key: Key, animating1: bool, animating2: bool, b: Player) {
    if b == P1 then
      !animating1 && ((mode == OnePlayer && (key == KeyDown || key == KeySpace)) || (mode == TwoPlayer && (key == KeyS || key == KeySpace)))
    else
      mode == TwoPlayer && !animating2 && (key == KeyDown || key == KeyN)
  }

  /** A board's drop clock restarts exactly when the key drops that board's piece. */
  lemma DropKeyIssuesDrop(mode: GameMode, key: Key, animating1: bool, animating2: bool, b: Player)
    ensures var c := GameKeyCalls(mode, key, animating1, animating2);
      (Call(b, MovePieceDown) in c || Call(b, DropDown) in c) <==> DropKey(mode, key, animating1, animating2, b)
  {
  }

  // ---------------------------------------------------------------------
  // Name input

  /** `Character.isLetterOrDigit`, on ASCII. */
  predicate IsLetterOrDigit(c: char) {
    ('A' <= c <= 'Z') || ('a' <= c <= 'z') || ('0' <= c <= '9')
  }

  /** `Character.toUpperCase`, on ASCII. */
  function ToUpper(c: char): (u: char)
    ensures IsLetterOrDigit(c) ==> IsNameChar(u)
    ensures 'a' <= c <= 'z' ==> u as int - 'A' as int == c as int - 'a' as int
    ensures !('a' <= c <= 'z') ==> u == c
  {
    if 'a' <= c <= 'z' then (c as int - 'a' as int + 'A' as int) as char else c
  }

  /** The characters a name can hold: upper-case letters and digits. */
  predicate IsNameChar(c: char) {
    ('A' <= c <= 'Z') || ('0' <= c <= '9')
  }

  predicate ValidName(s: string) {
    |s| <= MaxNameLength && forall i :: 0 <= i < |s| ==> IsNameChar(s[i])
  }

  /** Java's `String.trim`: drops leading and trailing characters up to and including the space. */
  function Trim(s: string): string {
    TrimEnd(TrimStart(s))
  }

  function TrimStart(s: string): (r: string)
    ensures |r| <= |s|
  {
    if |s| > 0 && s[0] <= ' ' then TrimStart(s[1..]) else s
  }

  function TrimEnd(s: string): (r: string)
    ensures |r| <= |s|
  {
    if |s| > 0 && s[|s| - 1] <= ' ' then TrimEnd(s[..|s| - 1]) else s
  }

  /** Trimming a name typed on the profile screen leaves it as it is. */
  lemma TrimName(s: string)
    requires ValidName(s)
    ensures Trim(s) == s
  {
  }

  /**
   * The name after a key other than Enter and Escape: Backspace drops the
   * last character if there is one; any other key appends its character,
   * upper-cased, if it is a letter or digit and the name is shorter than 15.
   */
  function EditName(name: string, key: Key, ch: char): (r: string)
    ensures ValidName(name) ==> ValidName(r)
  {
    if key == KeyBackSpace then
      if |name| > 0 then name[..|name| - 1] else name
    else if IsLetterOrDigit(ch) && |name| < MaxNameLength then name + [ToUpper(ch)]
    else name
  }

  /** Editing keeps a name within 15 upper-case letters and digits, and changes it by at most one character at the end. */
  lemma EditNameBounded(name: string, key: Key, ch: char)
    requires ValidName(name)
    ensures var r := EditName(name, key, ch);
      && ValidName(r)
      && (key == KeyBackSpace ==> r == name[..if |name| > 0 then |name| - 1 else 0])
      && (key != KeyBackSpace ==> r == name || (|name| < MaxNameLength && IsLetterOrDigit(ch) && r == name + [ToUpper(ch)]))
      && (key != KeyBackSpace && |name| == MaxNameLength ==> r == name)
  {
  }

  // ---------------------------------------------------------------------
  // Key handling as a step on the controller's state

  /** Every field of the controller, as one value. */
  datatype ControllerState = ControllerState(
    calls: seq<Call>,
    currentScreen: Option<GameScreen>,
    currentGameMode: GameMode,
    mainMenuSelection: int,
    modeSelectSelection: int,
    gameOverSelection: int,
    pauseMenuSelection: int,
    currentThemeIndex: int,
    playerNameInput: string,
    currentUser: Option<UserId>,
    timerRunning: bool,
    lastPieceMoveTime1: int,
    lastPieceMoveTime2: int,
    exitRequested: bool)

  /** Every selection is an entry of its menu, the theme index names a theme, and the name is one the profile screen can type. */
  predicate ValidState(s: ControllerState) {
    && 0 <= s.mainMenuSelection < MainMenuOptions
    && 0 <= s.modeSelectSelection < ModeSelectOptions
    && 0 <= s.gameOverSelection < GameOverMenuOptions
    && 0 <= s.pauseMenuSelection < PauseMenuOptions
    && 0 <= s.currentThemeIndex < ThemeCount
    && ValidName(s.playerNameInput)
  }

  /** Commands that start a board or reset it for the menu. */
  predicate IsMenuCommand(c: BoardCommand) {
    c.Start? || c.ResetForMenu?
  }

  /** Commands a key sends during play: piece commands and the ghost-piece toggle. */
  predicate IsPlayCommand(c: BoardCommand) {
    IsPieceCommand(c) || c.ToggleGhostPiece?
  }

  /** `after` is `before` followed by menu commands only. */
  predicate AppendsMenuCommands(before: seq<Call>, after: seq<Call>) {
    before <= after && forall k :: |before| <= k < |after| ==> IsMenuCommand(after[k].command)
  }

  /** `after` is `before` followed by play commands only. */
  predicate AppendsPlayCommands(before: seq<Call>, after: seq<Call>) {
    before <= after && forall k :: |before| <= k < |after| ==> IsPlayCommand(after[k].command)
  }

  /** `startGame`: starts the board(s) of `mode`, runs the loop timer, restarts both drop clocks and leaves the menus. */
  function StartGameStep(s: ControllerState, mode: GameMode, now: int): ControllerState {
    s.(currentGameMode := mode,
       calls := s.calls + [Call(P1, BoardCommand.Start)] + (if mode == TwoPlayer then [Call(P2, BoardCommand.Start)] else []),
       timerRunning := true,
       lastPieceMoveTime1 := now,
       lastPieceMoveTime2 := now,
       currentScreen := None)
  }

  /** `unpauseGame`: back to the round, with both drop clocks restarted. */
  function UnpauseStep(s: ControllerState, now: int): ControllerState {
    s.(currentScreen := None, lastPieceMoveTime1 := now, lastPieceMoveTime2 := now)
  }

  /** `goToMenu`: resets both boards, logs out, clears the name and returns to the first entry of the main menu. */
  function GoToMenuStep(s: ControllerState): ControllerState {
    s.(calls := s.calls + [Call(P1, ResetForMenu), Call(P2, ResetForMenu)],
       currentScreen := Some(MainMenu),
       mainMenuSelection := 0,
       currentUser := None,
       playerNameInput := [])
  }

  /**
   * `handleProfileSelectionKeys`; `found` is what `findOrCreatePlayer`
   * returns for the trimmed name. No board is ever called, the user changes
   * only on Enter, and mode selection is reached only with a user logged in.
   */
  function ProfileKeyStep(s: ControllerState, key: Key, ch: char, found: Option<UserId>): (t: ControllerState)
    ensures ValidState(s) ==> ValidState(t)
    ensures t.calls == s.calls && t.currentGameMode == s.currentGameMode && t.timerRunning == s.timerRunning
    ensures t.currentUser != s.currentUser ==> key == KeyEnter && t.currentUser == found
    ensures t.currentScreen == Some(ModeSelect) && s.currentScreen != Some(ModeSelect) ==> t.currentUser.Some?
  {
    if key == KeyEnter then
      if Trim(s.playerNameInput) != [] then
        s.(currentUser := found, currentScreen := if found.Some? then Some(ModeSelect) else s.currentScreen)
      else s
    else if key == KeyEscape then s.(currentScreen := Some(MainMenu))
    else s.(playerNameInput := EditName(s.playerNameInput, key, ch))
  }

  /**
   * `handleGameOverKeys`: Up/W and Down/S move the selection; Enter plays
   * the same mode again (entry 0) or goes to the menu (entry 1). Only start
   * and reset commands are sent, and the mode and theme stay as they are.
   */
  function GameOverKeyStep(s: ControllerState, key: Key, now: int): (t: ControllerState)
    requires ValidState(s)
    ensures ValidState(t)
    ensures AppendsMenuCommands(s.calls, t.calls)
    ensures t.currentGameMode == s.currentGameMode && t.currentThemeIndex == s.currentThemeIndex
  {
    if (key == KeyUp || key == KeyW) then s.(gameOverSelection := SelectPrevious(s.gameOverSelection, GameOverMenuOptions))
    else if (key == KeyDown || key == KeyS) then s.(gameOverSelection := SelectNext(s.gameOverSelection, GameOverMenuOptions))
    else if key == KeyEnter then
      if s.gameOverSelection == 0 then StartGameStep(s, s.currentGameMode, now) else GoToMenuStep(s)
    else s
  }

  /** The `PAUSED_MAIN` case of `handlePausedKeys`: P resumes; Up/W, Down/S move; Enter resumes, opens a page or goes to the menu. */
  function PauseMenuKeyStep(s: ControllerState, key: Key, now: int): (t: ControllerState)
    requires ValidState(s)
    ensures ValidState(t)
    ensures t.calls == s.calls || t.calls == s.calls + [Call(P1, ResetForMenu), Call(P2, ResetForMenu)]
    ensures t.currentGameMode == s.currentGameMode && t.timerRunning == s.timerRunning
    ensures s.currentScreen.Some? && t.currentScreen == None ==> t.lastPieceMoveTime1 == now && t.lastPieceMoveTime2 == now
  {
    if key == KeyP then UnpauseStep(s, now)
    else if (key == KeyUp || key == KeyW) then s.(pauseMenuSelection := SelectPrevious(s.pauseMenuSelection, PauseMenuOptions))
    else if (key == KeyDown || key == KeyS) then s.(pauseMenuSelection := SelectNext(s.pauseMenuSelection, PauseMenuOptions))
    else if key == KeyEnter then
      if s.pauseMenuSelection == 0 then UnpauseStep(s, now)
      else if s.pauseMenuSelection == 1 then s.(currentScreen := Some(PausedControls))
      else if s.pauseMenuSelection == 2 then s.(currentScreen := Some(PausedRules))
      else if s.pauseMenuSelection == 3 then GoToMenuStep(s)
      else s
    else s
  }

  /**
   * `handlePausedKeys`. Only reset commands are sent, the loop timer and the
   * mode stay as they are, and leaving the pause screens for the round
   * restarts both drop clocks.
   */
  function PausedKeyStep(s: ControllerState, key: Key, now: int): (t: ControllerState)
    requires ValidState(s)
    ensures ValidState(t)
    ensures s.calls <= t.calls && forall k :: |s.calls| <= k < |t.calls| ==> t.calls[k].command == ResetForMenu
    ensures t.currentGameMode == s.currentGameMode && t.timerRunning == s.timerRunning
    ensures s.currentScreen.Some? && t.currentScreen == None ==> t.lastPieceMoveTime1 == now && t.lastPieceMoveTime2 == now
  {
    match s.currentScreen
    case None => s
    case Some(PausedMain) => PauseMenuKeyStep(s, key, now)
    case Some(PausedControls) => if (key == KeyEnter || key == KeyEscape || key == KeyBackSpace) then s.(currentScreen := Some(PausedMain)) else s
    case Some(PausedRules) => if (key == KeyEnter || key == KeyEscape || key == KeyBackSpace) then s.(currentScreen := Some(PausedMain)) else s
    case Some(_) => s.(currentScreen := Some(PausedMain))
  }

  /**
   * `handleGameKeys`: T cycles the theme, G toggles the ghost piece(s), P
   * pauses at the first entry; any other key goes to the boards through
   * `GameKeyCalls`, and a soft or hard drop restarts that board's drop
   * clock. Only play commands are sent; the mode and the loop timer stay.
   */
  function GameKeyStep(s: ControllerState, key: Key, animating1: bool, animating2: bool, now: int): (t: ControllerState)
    ensures ValidState(s) ==> ValidState(t)
    ensures AppendsPlayCommands(s.calls, t.calls)
    ensures t.currentGameMode == s.currentGameMode && t.timerRunning == s.timerRunning
  {
    if key == KeyT then CycleThemeStep(s)
    else if key == KeyG then ToggleGhostStep(s)
    else if key == KeyP then PauseStep(s)
    else PlayKeyStep(s, key, animating1, animating2, now)
  }

  /** T during play: the next of the available themes, wrapping to the first. */
  function CycleThemeStep(s: ControllerState): ControllerState {
    s.(currentThemeIndex := (s.currentThemeIndex + 1) % ThemeCount)
  }

  /** G during play: the ghost piece is toggled on board 1, and on board 2 in a two-player game. */
  function ToggleGhostStep(s: ControllerState): ControllerState {
    s.(calls := s.calls + [Call(P1, ToggleGhostPiece)] + (if s.currentGameMode == TwoPlayer then [Call(P2, ToggleGhostPiece)] else []))
  }

  /** P during play: the pause menu opens at its first entry. */
  function PauseStep(s: ControllerState): ControllerState {
    s.(currentScreen := Some(PausedMain), pauseMenuSelection := 0)
  }

  /** The part of `handleGameKeys` after T, G and P: the key's piece command, and the drop clock of a board whose piece it drops. */
  function PlayKeyStep(s: ControllerState, key: Key, animating1: bool, animating2: bool, now: int): (t: ControllerState)
    ensures s.calls <= t.calls && forall k :: |s.calls| <= k < |t.calls| ==> IsPieceCommand(t.calls[k].command)
  {
    var mode := s.currentGameMode;
    GameKeysRespectAnimation(mode, key, animating1, animating2);
    s.(calls := s.calls + GameKeyCalls(mode, key, animating1, animating2),
       lastPieceMoveTime1 := if DropKey(mode, key, animating1, animating2, P1) then now else s.lastPieceMoveTime1,
       lastPieceMoveTime2 := if DropKey(mode, key, animating1, animating2, P2) then now else s.lastPieceMoveTime2)
  }

  /** The `MAIN_MENU` case of `handleMenuKeys`: Up/W, Down/S move; Enter opens the entry's screen or asks to exit. */
  function MainMenuKeyStep(s: ControllerState, key: Key): (t: ControllerState)
    requires ValidState(s)
    ensures ValidState(t)
    ensures t.calls == s.calls && t.currentGameMode == s.currentGameMode && t.currentUser == s.currentUser
  {
    if (key == KeyUp || key == KeyW) then s.(mainMenuSelection := SelectPrevious(s.mainMenuSelection, MainMenuOptions))
    else if (key == KeyDown || key == KeyS) then s.(mainMenuSelection := SelectNext(s.mainMenuSelection, MainMenuOptions))
    else if key == KeyEnter then
      if s.mainMenuSelection == 0 then s.(playerNameInput := [], currentScreen := Some(ProfileSelection))
      else if s.mainMenuSelection == 1 then s.(currentScreen := Some(RankingScreen))
      else if s.mainMenuSelection == 2 then s.(currentScreen := Some(RulesScreen))
      else if s.mainMenuSelection == 3 then s.(currentScreen := Some(ControlsScreen))
      else if s.mainMenuSelection == 4 then s.(exitRequested := true)
      else s
    else s
  }

  /** The `MODE_SELECT` case of `handleMenuKeys`: Up/W, Down/S move; Enter starts the chosen mode; Escape/Backspace log out to the main menu. */
  function ModeSelectKeyStep(s: ControllerState, key: Key, now: int): (t: ControllerState)
    requires ValidState(s)
    ensures ValidState(t)
    ensures t.calls == s.calls || (t.calls == s.calls + [Call(P1, BoardCommand.Start)] + (if t.currentGameMode == TwoPlayer then [Call(P2, BoardCommand.Start)] else [])
                                   && t.currentScreen == None && t.timerRunning)
  {
    if (key == KeyUp || key == KeyW) then s.(modeSelectSelection := SelectPrevious(s.modeSelectSelection, ModeSelectOptions))
    else if (key == KeyDown || key == KeyS) then s.(modeSelectSelection := SelectNext(s.modeSelectSelection, ModeSelectOptions))
    else if key == KeyEnter then StartGameStep(s, if s.modeSelectSelection == 0 then OnePlayer else TwoPlayer, now)
    else if (key == KeyEscape || key == KeyBackSpace) then s.(currentScreen := Some(MainMenu), currentUser := None)
    else s
  }

  /** The `RANKING_SCREEN`, `RULES_SCREEN` and `CONTROLS_SCREEN` cases of `handleMenuKeys`: Enter, Escape or Backspace go back. */
  function InfoPageKeyStep(s: ControllerState, key: Key): (t: ControllerState)
    ensures t.calls == s.calls && t.currentUser == s.currentUser
  {
    if (key == KeyEnter || key == KeyEscape || key == KeyBackSpace) then s.(currentScreen := Some(MainMenu)) else s
  }

  /**
   * `handleMenuKeys`. Only start commands are sent, and a key that sends
   * them has left the menus for a round with the loop timer running.
   */
  function MenuKeyStep(s: ControllerState, key: Key, now: int): (t: ControllerState)
    requires ValidState(s)
    ensures ValidState(t)
    ensures s.calls <= t.calls && forall k :: |s.calls| <= k < |t.calls| ==> t.calls[k].command == BoardCommand.Start
    ensures t.calls != s.calls ==> t.currentScreen == None && t.timerRunning
  {
    match s.currentScreen
    case None => s
    case Some(MainMenu) => MainMenuKeyStep(s, key)
    case Some(ModeSelect) => ModeSelectKeyStep(s, key, now)
    case Some(RankingScreen) => InfoPageKeyStep(s, key)
    case Some(RulesScreen) => InfoPageKeyStep(s, key)
    case Some(ControlsScreen) => InfoPageKeyStep(s, key)
    case Some(_) => s.(currentScreen := Some(MainMenu))
  }

  /** What a board answers to the queries `keyPressed` makes. */
  datatype KeyReads = KeyReads(started1: bool, started2: bool, over1: bool, over2: bool, animating1: bool, animating2: bool)

  /** `keyPressed` hands the key to `handleGameKeys`: not on the profile screen, a board started, the round not over, and no pause screen up. */
  predicate InPlay(s: ControllerState, b: KeyReads) {
    && s.currentScreen != Some(ProfileSelection)
    && (b.started1 || b.started2)
    && !(b.over1 || (s.currentGameMode == TwoPlayer && b.over2))
    && s.currentScreen !in {Some(PausedMain), Some(PausedControls), Some(PausedRules)}
  }

  /**
   * The branch of `keyPressed` taken while a board is started: the
   * game-over menu if the round is over, else the pause screens if one is
   * up, else the game itself.
   */
  function ActiveKeyStep(s: ControllerState, key: Key, b: KeyReads, now: int): (t: ControllerState)
    requires ValidState(s)
    ensures ValidState(t)
    ensures s.currentScreen != Some(ProfileSelection) && (b.started1 || b.started2) ==>
      (InPlay(s, b) ==> AppendsPlayCommands(s.calls, t.calls)) && (!InPlay(s, b) ==> AppendsMenuCommands(s.calls, t.calls))
  {
    if b.over1 || (s.currentGameMode == TwoPlayer && b.over2) then GameOverKeyStep(s, key, now)
    else if (s.currentScreen == Some(PausedMain) || s.currentScreen == Some(PausedControls) || s.currentScreen == Some(PausedRules)) then PausedKeyStep(s, key, now)
    else GameKeyStep(s, key, b.animating1, b.animating2, now)
  }

  /**
   * `keyPressed`: the profile screen takes every key; otherwise, while a
   * board is started, the active branch takes it, and with no board started
   * the menus do. A key keeps the invariant; during play it sends only play
   * commands, and otherwise only start and reset commands. A key never
   * clears lines, sends garbage or awards a win: those commands come from
   * the tick alone.
   */
  function KeyStep(s: ControllerState, key: Key, ch: char, b: KeyReads, now: int, found: Option<UserId>): (t: ControllerState)
    requires ValidState(s)
    ensures ValidState(t)
    ensures InPlay(s, b) ==> AppendsPlayCommands(s.calls, t.calls)
    ensures !InPlay(s, b) ==> AppendsMenuCommands(s.calls, t.calls)
  {
    if s.currentScreen == Some(ProfileSelection) then ProfileKeyStep(s, key, ch, found)
    else if b.started1 || b.started2 then ActiveKeyStep(s, key, b, now)
    else MenuKeyStep(s, key, now)
  }

  /**
   * During play, P pauses and a second P resumes: the round is back on
   * screen with the pause selection at its first entry, both drop clocks
   * restarted at the second press, and nothing else changed.
   */
  lemma PauseResumeRoundTrip(s: ControllerState, ch: char, b: KeyReads, now1: int, now2: int, found: Option<UserId>)
    requires ValidState(s) && InPlay(s, b)
    ensures KeyStep(KeyStep(s, KeyP, ch, b, now1, found), KeyP, ch, b, now2, found)
            == s.(currentScreen := None, pauseMenuSelection := 0, lastPieceMoveTime1 := now2, lastPieceMoveTime2 := now2)
  {
    var paused := KeyStep(s, KeyP, ch, b, now1, found);
    assert paused == PauseStep(s);
    assert KeyStep(paused, KeyP, ch, b, now2, found) == UnpauseStep(paused, now2);
  }

  // ---------------------------------------------------------------------
  // The controller

  class GameController {
    /** Every command issued to a board so far, in order. */
    var calls: seq<Call>
    /** The screen on display; `None` while a round is being played (Java `null`). */
    var currentScreen: Option<GameScreen>
    var currentGameMode: GameMode
    var mainMenuSelection: int
    var modeSelectSelection: int
    var gameOverSelection: int
    var pauseMenuSelection: int
    var currentThemeIndex: int
    var playerNameInput: string
    var currentUser: Option<UserId>
    /** Whether the Swing game-loop timer is running. */
    var timerRunning: bool
    var lastPieceMoveTime1: int
    var lastPieceMoveTime2: int
    /** Set where the source calls `System.exit(0)`. */
    var exitRequested: bool

    /** The controller's fields as one value. */
    ghost function Snapshot(): ControllerState
      reads this
    {
      ControllerState(calls, currentScreen, currentGameMode, mainMenuSelection, modeSelectSelection,
                      gameOverSelection, pauseMenuSelection, currentThemeIndex, playerNameInput, currentUser,
                      timerRunning, lastPieceMoveTime1, lastPieceMoveTime2, exitRequested)
    }

    ghost predicate Valid()
      reads this
    {
      ValidState(Snapshot())
    }

    constructor ()
      ensures Valid()
      ensures calls == [] && currentScreen == Some(MainMenu) && currentGameMode == OnePlayer
      ensures mainMenuSelection == 0 && modeSelectSelection == 0 && gameOverSelection == 0 && pauseMenuSelection == 0
      ensures currentThemeIndex == 0 && playerNameInput == [] && currentUser == None
      ensures !timerRunning && !exitRequested
      ensures lastPieceMoveTime1 == 0 && lastPieceMoveTime2 == 0
    {
      calls := [];
      currentScreen := Some(MainMenu);
      currentGameMode := OnePlayer;
      mainMenuSelection, modeSelectSelection, gameOverSelection, pauseMenuSelection := 0, 0, 0, 0;
      currentThemeIndex := 0;
      playerNameInput := [];
      currentUser := None;
      timerRunning := false;
      lastPieceMoveTime1, lastPieceMoveTime2 := 0, 0;
      exitRequested := false;
    }

    /** `start`: both drop clocks restart at `now` and the loop timer runs. */
    method Start(now: int)
      modifies this`lastPieceMoveTime1, this`lastPieceMoveTime2, this`timerRunning
      ensures lastPieceMoveTime1 == now && lastPieceMoveTime2 == now && timerRunning
    {
      lastPieceMoveTime1 := now;
      lastPieceMoveTime2 := now;
      timerRunning := true;
    }

    /** `handlePlayerLogic` for board `b`. */
    method HandlePlayerLogic(b: Player, r: PlayerReads, now: int, lastMoveTime: int, delay: int)
      modifies this`calls
      ensures calls == old(calls) + PlayerLogicCalls(b, r, now - lastMoveTime, delay)
    {
      if r.gameOver {
        return;
      }
      if r.animating {
        calls := calls + [Call(b, DecrementLineClearTimer)];
        if r.timerAfterDecrement <= 0 {
          calls := calls + [Call(b, FinishLineClear)];
          if !r.gameOverAfterFinish {
            calls := calls + [Call(b, NewPiece)];
          }
        }
        return;
      }
      if r.started {
        if now - lastMoveTime > delay {
          calls := calls + [Call(b, MovePieceDown)];
        }
      }
    }

    /**
     * `actionPerformed`: one tick of the game loop. Drop clocks restart when
     * their delay has passed; at the end of a round the loop timer stops and
     * the game-over menu selection resets, once.
     */
    method Tick(now: int, t: TickReads)
      requires Valid()
      modifies this`calls, this`lastPieceMoveTime1, this`lastPieceMoveTime2, this`timerRunning, this`gameOverSelection
      ensures Valid()
      ensures calls == old(calls) + TickCalls(currentGameMode, currentScreen, old(timerRunning), currentUser.Some?,
                                              now, old(lastPieceMoveTime1), old(lastPieceMoveTime2), t)
      ensures var running := GameRunning(t.started1, currentScreen);
        var ends := running && RoundFinished(currentGameMode, t.over1, t.over2);
        && lastPieceMoveTime1 == (if running && now - old(lastPieceMoveTime1) > DelayForLevel(t.level1) then now else old(lastPieceMoveTime1))
        && lastPieceMoveTime2 == (if running && currentGameMode == TwoPlayer && now - old(lastPieceMoveTime2) > DelayForLevel(t.level2)
                                  then now else old(lastPieceMoveTime2))
        && timerRunning == (old(timerRunning) && !ends)
        && gameOverSelection == (if ends && old(timerRunning) then 0 else old(gameOverSelection))
    {
      var isGameRunning := t.started1
        && currentScreen != Some(PausedMain)
        && currentScreen != Some(PausedControls)
        && currentScreen != Some(PausedRules)
        && currentScreen != Some(ProfileSelection);
      if isGameRunning {
        RunningTick(now, t);
      } else {
        assert TickCalls(currentGameMode, currentScreen, timerRunning, currentUser.Some?, now, lastPieceMoveTime1, lastPieceMoveTime2, t) == [];
        assert calls == old(calls) + [];
      }
    }

    /** The body of `actionPerformed` once the game is known to be running. */
    method RunningTick(now: int, t: TickReads)
      requires Valid() && GameRunning(t.started1, currentScreen)
      modifies this`calls, this`lastPieceMoveTime1, this`lastPieceMoveTime2, this`timerRunning, this`gameOverSelection
      ensures Valid()
      ensures calls == old(calls) + TickCalls(currentGameMode, currentScreen, old(timerRunning), currentUser.Some?,
                                              now, old(lastPieceMoveTime1), old(lastPieceMoveTime2), t)
      ensures var ends := RoundFinished(currentGameMode, t.over1, t.over2);
        && lastPieceMoveTime1 == (if now - old(lastPieceMoveTime1) > DelayForLevel(t.level1) then now else old(lastPieceMoveTime1))
        && lastPieceMoveTime2 == (if currentGameMode == TwoPlayer && now - old(lastPieceMoveTime2) > DelayForLevel(t.level2)
                                  then now else old(lastPieceMoveTime2))
        && timerRunning == (old(timerRunning) && !ends)
        && gameOverSelection == (if ends && old(timerRunning) then 0 else old(gameOverSelection))
    {
      MovePieces(now, t);
      EndTick(t);
      AppendAssoc(old(calls), MoveCalls(currentGameMode, now, old(lastPieceMoveTime1), old(lastPieceMoveTime2), t),
                  EndOfTickCalls(currentGameMode, old(timerRunning), currentUser.Some?, t));
    }

    /** The per-board step of `actionPerformed`: board 1, then board 2 in a two-player game. */
    method MovePieces(now: int, t: TickReads)
      modifies this`calls, this`lastPieceMoveTime1, this`lastPieceMoveTime2
      ensures calls == old(calls) + MoveCalls(currentGameMode, now, old(lastPieceMoveTime1), old(lastPieceMoveTime2), t)
      ensures lastPieceMoveTime1 == (if now - old(lastPieceMoveTime1) > DelayForLevel(t.level1) then now else old(lastPieceMoveTime1))
      ensures lastPieceMoveTime2 == (if currentGameMode == TwoPlayer && now - old(lastPieceMoveTime2) > DelayForLevel(t.level2)
                                     then now else old(lastPieceMoveTime2))
    {
      var delay1 := DelayForLevel(t.level1);
      HandlePlayerLogic(P1, t.player1, now, lastPieceMoveTime1, delay1);
      if now - lastPieceMoveTime1 > delay1 {
        lastPieceMoveTime1 := now;
      }
      ghost var afterFirst := calls;
      if currentGameMode == TwoPlayer {
        var delay2 := DelayForLevel(t.level2);
        HandlePlayerLogic(P2, t.player2, now, lastPieceMoveTime2, delay2);
        if now - lastPieceMoveTime2 > delay2 {
          lastPieceMoveTime2 := now;
        }
      }
      AppendAssoc(old(calls), afterFirst[|old(calls)|..], calls[|afterFirst|..]);
    }

    /** The garbage exchange and the round-end check that close `actionPerformed`. */
    method EndTick(t: TickReads)
      requires Valid()
      modifies this`calls, this`timerRunning, this`gameOverSelection
      ensures Valid()
      ensures calls == old(calls) + EndOfTickCalls(currentGameMode, old(timerRunning), currentUser.Some?, t)
      ensures var ends := RoundFinished(currentGameMode, t.over1, t.over2);
        && timerRunning == (old(timerRunning) && !ends)
        && gameOverSelection == (if ends && old(timerRunning) then 0 else old(gameOverSelection))
    {
      if currentGameMode == TwoPlayer {
        ExchangeGarbage(t.outgoing1, t.outgoing2);
      }
      FinishRound(t.over1, t.over2);
    }

    /** The garbage exchange of `actionPerformed`, given the two outgoing counts. */
    method ExchangeGarbage(p1Garbage: int, p2Garbage: int)
      modifies this`calls
      ensures calls == old(calls) + GarbageExchangeCalls(p1Garbage, p2Garbage)
    {
      if p1Garbage > 0 || p2Garbage > 0 {
        if p1Garbage > p2Garbage {
          calls := calls + [Call(P2, AddIncomingGarbage(p1Garbage - p2Garbage))];
        } else if p2Garbage > p1Garbage {
          calls := calls + [Call(P1, AddIncomingGarbage(p2Garbage - p1Garbage))];
        }
        calls := calls + [Call(P1, ClearOutgoingGarbage)];
        calls := calls + [Call(P2, ClearOutgoingGarbage)];
      }
    }

    /**
     * The round-end check of `actionPerformed`: the first time a finished
     * round is seen while the loop timer runs, the timer stops, the survivor
     * of a two-player round is credited a win if a user is logged in, and
     * the game-over menu selection resets.
     */
    method FinishRound(over1: bool, over2: bool)
      requires Valid()
      modifies this`calls, this`timerRunning, this`gameOverSelection
      ensures Valid()
      ensures var ends := RoundFinished(currentGameMode, over1, over2);
        && calls == old(calls) + (if ends && old(timerRunning) then WinCalls(currentGameMode, currentUser.Some?, over1, over2) else [])
        && timerRunning == (old(timerRunning) && !ends)
        && gameOverSelection == (if ends && old(timerRunning) then 0 else old(gameOverSelection))
    {
      var p1Over := over1;
      var p2Over := currentGameMode == TwoPlayer && over2;
      var roundIsFinished := if currentGameMode == OnePlayer then p1Over else p1Over || p2Over;
      if roundIsFinished {
        if timerRunning {
          timerRunning := false;
          if currentUser.Some? {
            if currentGameMode == OnePlayer && p1Over {
              // the score is saved to the database here; not part of this model
            } else if currentGameMode == TwoPlayer {
              if p1Over && !p2Over {
                calls := calls + [Call(P2, AddWin)];
              } else if p2Over && !p1Over {
                calls := calls + [Call(P1, AddWin)];
              }
            }
          }
          gameOverSelection := 0;
        }
      }
    }

    /** `startGame`. */
    method StartGame(mode: GameMode, now: int)
      modifies this`currentGameMode, this`calls, this`timerRunning, this`lastPieceMoveTime1, this`lastPieceMoveTime2, this`currentScreen
      ensures Snapshot() == StartGameStep(old(Snapshot()), mode, now)
    {
      currentGameMode := mode;
      calls := calls + [Call(P1, BoardCommand.Start)];
      if currentGameMode == TwoPlayer {
        calls := calls + [Call(P2, BoardCommand.Start)];
      }
      // `timer.start()` unless it already runs: it runs afterwards either way
      timerRunning := true;
      lastPieceMoveTime1 := now;
      lastPieceMoveTime2 := now;
      currentScreen := None;
    }

    /** `unpauseGame`. */
    method UnpauseGame(now: int)
      modifies this`currentScreen, this`lastPieceMoveTime1, this`lastPieceMoveTime2
      ensures Snapshot() == UnpauseStep(old(Snapshot()), now)
    {
      currentScreen := None;
      lastPieceMoveTime1 := now;
      lastPieceMoveTime2 := now;
    }

    /** `goToMenu`. */
    method GoToMenu()
      modifies this`calls, this`currentScreen, this`mainMenuSelection, this`currentUser, this`playerNameInput
      ensures Snapshot() == GoToMenuStep(old(Snapshot()))
    {
      calls := calls + [Call(P1, ResetForMenu), Call(P2, ResetForMenu)];
      currentScreen := Some(MainMenu);
      mainMenuSelection := 0;
      currentUser := None;
      playerNameInput := [];
    }

    /** `handleProfileSelectionKeys`; `found` is what `findOrCreatePlayer` returns for the trimmed name. */
    method HandleProfileSelectionKeys(key: Key, ch: char, found: Option<UserId>)
      requires Valid()
      modifies this`currentUser, this`currentScreen, this`playerNameInput
      ensures Snapshot() == ProfileKeyStep(old(Snapshot()), key, ch, found)
    {
      if key == KeyEnter {
        var cleanUsername := Trim(playerNameInput);
        if cleanUsername != [] {
          currentUser := found;
          if currentUser.Some? {
            currentScreen := Some(ModeSelect);
          }
        }
      } else if key == KeyBackSpace {
        if playerNameInput != [] {
          playerNameInput := playerNameInput[..|playerNameInput| - 1];
        }
      } else if key == KeyEscape {
        currentScreen := Some(MainMenu);
      } else {
        if IsLetterOrDigit(ch) && |playerNameInput| < MaxNameLength {
          playerNameInput := playerNameInput + [ToUpper(ch)];
        }
      }
    }

    /** `handleGameOverKeys`. */
    method HandleGameOverKeys(key: Key, now: int)
      requires Valid()
      modifies this`gameOverSelection, this`currentGameMode, this`calls, this`timerRunning, this`lastPieceMoveTime1,
               this`lastPieceMoveTime2, this`currentScreen, this`mainMenuSelection, this`currentUser, this`playerNameInput
      ensures Snapshot() == GameOverKeyStep(old(Snapshot()), key, now)
    {
      if key == KeyUp || key == KeyW {
        gameOverSelection := SelectPrevious(gameOverSelection, GameOverMenuOptions);
      }
      if key == KeyDown || key == KeyS {
        gameOverSelection := SelectNext(gameOverSelection, GameOverMenuOptions);
      }
      if key == KeyEnter {
        if gameOverSelection == 0 {
          StartGame(currentGameMode, now);
        } else {
          GoToMenu();
        }
      }
    }

    /** `handlePausedKeys`, on the pause menu and the two pages it opens. */
    method HandlePausedKeys(key: Key, now: int)
      requires Valid()
      modifies this`currentScreen, this`pauseMenuSelection, this`lastPieceMoveTime1, this`lastPieceMoveTime2,
               this`calls, this`mainMenuSelection, this`currentUser, this`playerNameInput
      ensures Snapshot() == PausedKeyStep(old(Snapshot()), key, now)
    {
      if currentScreen.None? {
        return;
      }
      match currentScreen.value
      case PausedMain => PauseMenuKey(key, now);
      case PausedControls =>
        if key == KeyEnter || key == KeyEscape || key == KeyBackSpace {
          currentScreen := Some(PausedMain);
        }
      case PausedRules =>
        if key == KeyEnter || key == KeyEscape || key == KeyBackSpace {
          currentScreen := Some(PausedMain);
        }
      case _ =>
        currentScreen := Some(PausedMain);
    }

    /** The `PAUSED_MAIN` case of `handlePausedKeys`. */
    method PauseMenuKey(key: Key, now: int)
      requires Valid()
      modifies this`currentScreen, this`pauseMenuSelection, this`lastPieceMoveTime1, this`lastPieceMoveTime2,
               this`calls, this`mainMenuSelection, this`currentUser, this`playerNameInput
      ensures Snapshot() == PauseMenuKeyStep(old(Snapshot()), key, now)
    {
      if key == KeyP {
        UnpauseGame(now);
        return;
      }
      if key == KeyUp || key == KeyW {
        pauseMenuSelection := SelectPrevious(pauseMenuSelection, PauseMenuOptions);
      }
      if key == KeyDown || key == KeyS {
        pauseMenuSelection := SelectNext(pauseMenuSelection, PauseMenuOptions);
      }
      if key == KeyEnter {
        match pauseMenuSelection
        case 0 => UnpauseGame(now);
        case 1 => currentScreen := Some(PausedControls);
        case 2 => currentScreen := Some(PausedRules);
        case 3 => GoToMenu();
      }
    }

    /** `handleGameKeys`. */
    method HandleGameKeys(key: Key, animating1: bool, animating2: bool, now: int)
      requires Valid()
      modifies this`currentThemeIndex, this`calls, this`currentScreen, this`pauseMenuSelection,
               this`lastPieceMoveTime1, this`lastPieceMoveTime2
      ensures Snapshot() == GameKeyStep(old(Snapshot()), key, animating1, animating2, now)
    {
      if key == KeyT {
        CycleTheme();
      } else if key == KeyG {
        ToggleGhostPieces();
      } else if key == KeyP {
        PauseGame();
      } else {
        PlayKey(key, animating1, animating2, now);
      }
    }

    /** The T case of `handleGameKeys`. */
    method CycleTheme()
      modifies this`currentThemeIndex
      ensures Snapshot() == CycleThemeStep(old(Snapshot()))
    {
      currentThemeIndex := (currentThemeIndex + 1) % ThemeCount;
    }

    /** The G case of `handleGameKeys`. */
    method ToggleGhostPieces()
      modifies this`calls
      ensures Snapshot() == ToggleGhostStep(old(Snapshot()))
    {
      calls := calls + [Call(P1, ToggleGhostPiece)];
      if currentGameMode == TwoPlayer {
        calls := calls + [Call(P2, ToggleGhostPiece)];
      }
    }

    /** The P case of `handleGameKeys`; the music is stopped here, which is not part of this model. */
    method PauseGame()
      modifies this`currentScreen, this`pauseMenuSelection
      ensures Snapshot() == PauseStep(old(Snapshot()))
    {
      currentScreen := Some(PausedMain);
      pauseMenuSelection := 0;
    }

    /** The part of `handleGameKeys` after T, G and P: the key goes to the board(s) that can play. */
    method PlayKey(key: Key, animating1: bool, animating2: bool, now: int)
      modifies this`calls, this`lastPieceMoveTime1, this`lastPieceMoveTime2
      ensures calls == old(calls) + GameKeyCalls(currentGameMode, key, animating1, animating2)
      ensures lastPieceMoveTime1 == (if DropKey(currentGameMode, key, animating1, animating2, P1) then now else old(lastPieceMoveTime1))
      ensures lastPieceMoveTime2 == (if DropKey(currentGameMode, key, animating1, animating2, P2) then now else old(lastPieceMoveTime2))
    {
      var p1CanPlay := !animating1;
      var p2CanPlay := currentGameMode == TwoPlayer && !animating2;
      if currentGameMode == OnePlayer && p1CanPlay {
        PlayOnePlayerKey(key, now);
      }
      if currentGameMode == TwoPlayer {
        PlayTwoPlayerKey(key, p1CanPlay, p2CanPlay, now);
      }
    }

    /** The one-player `switch` of `handleGameKeys`; a soft or hard drop restarts the drop clock. */
    method PlayOnePlayerKey(key: Key, now: int)
      modifies this`calls, this`lastPieceMoveTime1
      ensures calls == old(calls) + OnePlayerKeyCalls(key)
      ensures lastPieceMoveTime1 == (if key == KeyDown || key == KeySpace then now else old(lastPieceMoveTime1))
    {
      match key
      case KeyLeft => calls := calls + [Call(P1, MoveLeft)];
      case KeyRight => calls := calls + [Call(P1, MoveRight)];
      case KeyDown =>
        calls := calls + [Call(P1, MovePieceDown)];
        lastPieceMoveTime1 := now;
      case KeyUp => calls := calls + [Call(P1, RotateRight)];
      case KeyZ => calls := calls + [Call(P1, RotateLeft)];
      case KeySpace =>
        calls := calls + [Call(P1, DropDown)];
        lastPieceMoveTime1 := now;
      case _ =>
    }

    /** The two-player `switch` of `handleGameKeys`; a soft or hard drop restarts that board's drop clock. */
    method PlayTwoPlayerKey(key: Key, p1CanPlay: bool, p2CanPlay: bool, now: int)
      modifies this`calls, this`lastPieceMoveTime1, this`lastPieceMoveTime2
      ensures calls == old(calls) + TwoPlayerKeyCalls(key, p1CanPlay, p2CanPlay)
      ensures lastPieceMoveTime1 == (if p1CanPlay && (key == KeyS || key == KeySpace) then now else old(lastPieceMoveTime1))
      ensures lastPieceMoveTime2 == (if p2CanPlay && (key == KeyDown || key == KeyN) then now else old(lastPieceMoveTime2))
    {
      match key
      case KeyA => if p1CanPlay { calls := calls + [Call(P1, MoveLeft)]; }
      case KeyD => if p1CanPlay { calls := calls + [Call(P1, MoveRight)]; }
      case KeyS =>
        if p1CanPlay {
          calls := calls + [Call(P1, MovePieceDown)];
          lastPieceMoveTime1 := now;
        }
      case KeyW => if p1CanPlay { calls := calls + [Call(P1, RotateRight)]; }
      case KeyQ => if p1CanPlay { calls := calls + [Call(P1, RotateLeft)]; }
      case KeySpace =>
        if p1CanPlay {
          calls := calls + [Call(P1, DropDown)];
          lastPieceMoveTime1 := now;
        }
      case KeyLeft => if p2CanPlay { calls := calls + [Call(P2, MoveLeft)]; }
      case KeyRight => if p2CanPlay { calls := calls + [Call(P2, MoveRight)]; }
      case KeyDown =>
        if p2CanPlay {
          calls := calls + [Call(P2, MovePieceDown)];
          lastPieceMoveTime2 := now;
        }
      case KeyUp => if p2CanPlay { calls := calls + [Call(P2, RotateRight)]; }
      case KeyM => if p2CanPlay { calls := calls + [Call(P2, RotateLeft)]; }
      case KeyN =>
        if p2CanPlay {
          calls := calls + [Call(P2, DropDown)];
          lastPieceMoveTime2 := now;
        }
      case _ =>
    }

    /** `handleMenuKeys`, on the main menu, the mode selection and the information pages. */
    method HandleMenuKeys(key: Key, now: int)
      requires Valid()
      modifies this`mainMenuSelection, this`playerNameInput, this`currentScreen, this`exitRequested,
               this`modeSelectSelection, this`currentGameMode, this`calls, this`timerRunning,
               this`lastPieceMoveTime1, this`lastPieceMoveTime2, this`currentUser
      ensures Snapshot() == MenuKeyStep(old(Snapshot()), key, now)
    {
      if currentScreen.None? {
        return;
      }
      match currentScreen.value
      case MainMenu => MainMenuKey(key);
      case ModeSelect => ModeSelectKey(key, now);
      case RankingScreen => InfoPageKey(key);
      case RulesScreen => InfoPageKey(key);
      case ControlsScreen => InfoPageKey(key);
      case _ =>
        currentScreen := Some(MainMenu);
    }

    /** The `MAIN_MENU` case of `handleMenuKeys`. */
    method MainMenuKey(key: Key)
      requires Valid()
      modifies this`mainMenuSelection, this`playerNameInput, this`currentScreen, this`exitRequested
      ensures Snapshot() == MainMenuKeyStep(old(Snapshot()), key)
    {
      if key == KeyUp || key == KeyW {
        mainMenuSelection := SelectPrevious(mainMenuSelection, MainMenuOptions);
      }
      if key == KeyDown || key == KeyS {
        mainMenuSelection := SelectNext(mainMenuSelection, MainMenuOptions);
      }
      if key == KeyEnter {
        match mainMenuSelection
        case 0 =>
          playerNameInput := [];
          currentScreen := Some(ProfileSelection);
        case 1 =>
          // the top scores are loaded from the database here; not part of this model
          currentScreen := Some(RankingScreen);
        case 2 => currentScreen := Some(RulesScreen);
        case 3 => currentScreen := Some(ControlsScreen);
        case 4 => exitRequested := true;
      }
    }

    /** The `MODE_SELECT` case of `handleMenuKeys`. */
    method ModeSelectKey(key: Key, now: int)
      requires Valid()
      modifies this`modeSelectSelection, this`currentGameMode, this`calls, this`timerRunning,
               this`lastPieceMoveTime1, this`lastPieceMoveTime2, this`currentScreen, this`currentUser
      ensures Snapshot() == ModeSelectKeyStep(old(Snapshot()), key, now)
    {
      if key == KeyUp || key == KeyW {
        modeSelectSelection := SelectPrevious(modeSelectSelection, ModeSelectOptions);
      }
      if key == KeyDown || key == KeyS {
        modeSelectSelection := SelectNext(modeSelectSelection, ModeSelectOptions);
      }
      if key == KeyEnter {
        if modeSelectSelection == 0 {
          StartGame(OnePlayer, now);
        } else {
          StartGame(TwoPlayer, now);
        }
      }
      if key == KeyEscape || key == KeyBackSpace {
        currentScreen := Some(MainMenu);
        currentUser := None;
      }
    }

    /** The `RANKING_SCREEN`, `RULES_SCREEN` and `CONTROLS_SCREEN` cases of `handleMenuKeys`. */
    method InfoPageKey(key: Key)
      modifies this`currentScreen
      ensures Snapshot() == InfoPageKeyStep(old(Snapshot()), key)
    {
      if key == KeyEnter || key == KeyEscape || key == KeyBackSpace {
        currentScreen := Some(MainMenu);
      }
    }

    /** `keyPressed`; the board answers are `b`, the key character `ch`, and `found` is what the profile lookup returns. */
    method KeyPressed(key: Key, ch: char, b: KeyReads, now: int, found: Option<UserId>)
      requires Valid()
      modifies this
      ensures Valid()
      ensures Snapshot() == KeyStep(old(Snapshot()), key, ch, b, now, found)
    {
      ghost var s0 := Snapshot();
      if currentScreen == Some(ProfileSelection) {
        assert KeyStep(s0, key, ch, b, now, found) == ProfileKeyStep(s0, key, ch, found);
        HandleProfileSelectionKeys(key, ch, found);
        return;
      }
      var isGameActive := b.started1 || b.started2;
      if isGameActive {
        assert KeyStep(s0, key, ch, b, now, found) == ActiveKeyStep(s0, key, b, now);
        HandleActiveKeys(key, b, now);
      } else {
        assert KeyStep(s0, key, ch, b, now, found) == MenuKeyStep(s0, key, now);
        HandleMenuKeys(key, now);
      }
    }

    /** The branch of `keyPressed` taken while a board is started. */
    method HandleActiveKeys(key: Key, b: KeyReads, now: int)
      requires Valid()
      modifies this`gameOverSelection, this`currentGameMode, this`calls, this`timerRunning, this`lastPieceMoveTime1,
               this`lastPieceMoveTime2, this`currentScreen, this`mainMenuSelection, this`currentUser, this`playerNameInput,
               this`pauseMenuSelection, this`currentThemeIndex
      ensures Snapshot() == ActiveKeyStep(old(Snapshot()), key, b, now)
    {
      ghost var s0 := Snapshot();
      var isGameOver := b.over1 || (currentGameMode == TwoPlayer && b.over2);
      if isGameOver {
        assert ActiveKeyStep(s0, key, b, now) == GameOverKeyStep(s0, key, now);
        HandleGameOverKeys(key, now);
      } else if currentScreen == Some(PausedMain) || currentScreen == Some(PausedControls) || currentScreen == Some(PausedRules) {
        assert ActiveKeyStep(s0, key, b, now) == PausedKeyStep(s0, key, now);
        HandlePausedKeys(key, now);
      } else {
        assert ActiveKeyStep(s0, key, b, now) == GameKeyStep(s0, key, b.animating1, b.animating2, now);
        HandleGameKeys(key, b.animating1, b.animating2, now);
      }
    }
  }
}
