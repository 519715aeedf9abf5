# Tetris core in Dafny

A model of the core of a two-player Java Swing Tetris game:

- **Shape** (`shape.dfy`): the nine `Tetrominoe` variants in declaration order
  and the constant table of block offsets, one row of four (x, y) offsets per
  variant. Lemmas prove that the table is well shaped, that every playable row
  is a real tetromino around its pivot, and that the two dummy rows are zeros.
- **Pieces** (`piece.dfy`): the `Piece` class. It keeps the source's 4x2
  `int` array of offsets and has the source's setters, getters, `minX`/`minY`
  scans, `setRandomShape` and the two rotations, which allocate a fresh
  piece. The Java `Math.abs(Integer.MIN_VALUE)` overflow inside
  `setRandomShape` is modelled explicitly. Pure rotation functions on offset
  sequences carry the algebra: left and right are inverse, four turns are the
  identity, and a rotation keeps a tetromino's cells distinct.
- **AudioPath** (`audio_path.dfy`): the path cleaning at the start of the
  `AudioManager` constructor. It drops one leading `src/` and forces a
  leading `/`.
- **GameControl** (`controller.dfy`): the decisions of `GameController`: the
  game-loop tick, per-board gravity and line-clear handling, the garbage
  exchange, round end and win awarding, the menus, and the name editor.
  `Board` is an opaque collaborator whose source is not part of this model.
  The controller records every command it issues to a board, in order, in its
  `calls` field. Each answer it reads from a board is an input to the step
  that reads it. So are the clock, the key code and character, and the profile
  the database returns. Pure functions (`TickCalls`, `PlayerLogicCalls`,
  `GarbageExchangeCalls`, `WinCalls`, `GameKeyCalls`, `EditName`) state which
  commands each step issues, and lemmas prove what those commands mean. The
  tick methods are proved to append exactly `TickCalls` and its parts to
  `calls`, and state each field they change. For key handling, the
  controller's fields form one `ControllerState` value. Each key handler has a
  step function on that value, and the handler method is proved to leave the
  controller in exactly the state its step function gives, every field
  included. The step functions' contracts state the handler's invariants.

## Model

| member | source | states |
|---|---|---|
| Shape.Ordinal | src/com/tetris/model/Shape.java:13-16 | Each variant's ordinal is below 9; ordinal 0 is exactly `NoShape` and ordinal 8 exactly `GarbageShape` |
| Shape.FromOrdinal | src/com/tetris/model/Shape.java:13-16 | `values()[i]` is the variant whose ordinal is `i` |
| Shape.OrdinalRoundTrip | src/com/tetris/model/Shape.java:13-16 | `values()[s.ordinal()] == s`: every variant is listed once, in ordinal order |
| Shape.TableWellShaped | src/com/tetris/model/Shape.java:22-32 | The table has one row per variant, each of 4 blocks of 2 coordinates |
| Shape.Blocks | src/com/tetris/model/Shape.java:22-32 | The four (x, y) offsets of a variant are row `ordinal` of the table, in block order |
| Shape.PlayableRowsWellFormed | src/com/tetris/model/Shape.java:24-30 | Each of the 7 playable rows has 4 pairwise-distinct cells, includes the pivot (0, 0), and lies within [-1, 2] on both axes |
| Shape.DummyRowsAreZero | src/com/tetris/model/Shape.java:23-31 | The `NoShape` and `GarbageShape` rows are all zeros |
| Shape.SquareIsTwoByTwo | src/com/tetris/model/Shape.java:28 | The square row is exactly the 2x2 block {(0,0),(1,0),(0,1),(1,1)} |
| Pieces.JavaAbs | src/com/tetris/model/Piece.java:58 | `Math.abs` returns the non-negative absolute value, except on `Integer.MIN_VALUE`, which it returns unchanged |
| Pieces.JavaRem | src/com/tetris/model/Piece.java:58 | Java's `%` by a positive divisor lies in [0, b) for a non-negative dividend and in (-b, 0] for a negative one, and differs from the dividend by a multiple of the divisor |
| Pieces.RandomIndex | src/com/tetris/model/Piece.java:58 | `abs(r) % 7 + 1` lies in [1, 7] and is one more than `abs(r)` modulo 7 for every `r` except `Integer.MIN_VALUE`, where it is -1 |
| Pieces.RandomIndexPlayable | src/com/tetris/model/Piece.java:56-61 | For every other `r`, the index names a variant that is neither `NoShape` nor `GarbageShape` |
| Pieces.RotationsAreInverse | src/com/tetris/model/Piece.java:85-115 | Turning right undoes turning left and vice versa, for any offsets |
| Pieces.FourTurnsIdentity | src/com/tetris/model/Piece.java:85-115 | Four quarter turns in the same direction restore the offsets |
| Pieces.RotationKeepsCellsAndPivot | src/com/tetris/model/Piece.java:91-95 | A rotation keeps four distinct cells distinct and the pivot (0, 0) in place |
| Pieces.SquareWouldMoveIfTurned | src/com/tetris/model/Piece.java:86 | Turning the square either way would move a cell outside its 2x2 block, which is why it is exempt |
| Pieces.Piece.constructor | src/com/tetris/model/Piece.java:20-23 | A new piece has shape `NoShape`, all-zero offsets, a fresh 4x2 array and its pivot at (0, 0) |
| Pieces.Piece.SetShape | src/com/tetris/model/Piece.java:29-38 | After `setShape(s)` the shape is `s` and the offsets are table row `ordinal(s)`; the position is unchanged |
| Pieces.Piece.SetX | src/com/tetris/model/Piece.java:42 | Sets the pivot's x and nothing else |
| Pieces.Piece.SetY | src/com/tetris/model/Piece.java:44 | Sets the pivot's y and nothing else |
| Pieces.Piece.SetCoordX | src/com/tetris/model/Piece.java:47 | Replaces only block `index`'s x offset |
| Pieces.Piece.SetCoordY | src/com/tetris/model/Piece.java:48 | Replaces only block `index`'s y offset |
| Pieces.Piece.X | src/com/tetris/model/Piece.java:49 | Returns block `index`'s x offset |
| Pieces.Piece.Y | src/com/tetris/model/Piece.java:50 | Returns block `index`'s y offset |
| Pieces.Piece.SetRandomShape | src/com/tetris/model/Piece.java:56-61 | Succeeds iff `r != Integer.MIN_VALUE`; it then sets the playable variant of ordinal `abs(r) % 7 + 1` with its table row, and on failure leaves the piece unchanged |
| Pieces.Piece.MinX | src/com/tetris/model/Piece.java:66-70 | Returns the x offset of some block, and no block's x offset is smaller |
| Pieces.Piece.MinY | src/com/tetris/model/Piece.java:75-79 | Returns the y offset of some block, and no block's y offset is smaller |
| Pieces.Piece.RotateLeft | src/com/tetris/model/Piece.java:85-97 | A square returns the receiver. Any other piece returns a fresh piece of the same variant whose offsets are all turned (x, y) to (-y, x), with its pivot at (0, 0). The receiver is never changed |
| Pieces.Piece.RotateRight | src/com/tetris/model/Piece.java:103-115 | As `RotateLeft`, turning (x, y) to (y, -x) |
| AudioPath.CleanPath | src/com/tetris/audio/AudioManager.java:28-36 | The result starts with "/", ends with the input minus one leading "src/", and is one "/" longer than that remainder exactly when the remainder does not already start with "/" |
| AudioPath.AbsolutePathUnchanged | src/com/tetris/audio/AudioManager.java:28-36 | A path already starting with "/" is returned unchanged |
| AudioPath.CleanPathIdempotent | src/com/tetris/audio/AudioManager.java:28-36 | Cleaning a cleaned path changes nothing |
| AudioPath.StripsSrcOnce | src/com/tetris/audio/AudioManager.java:28-30 | Only one "src/" is removed: "src/src/x" becomes "/src/x" |
| AudioPath.ControllerMusicPathUnchanged | src/com/tetris/controller/GameController.java:92 | The music path the controller passes is already clean |
| GameControl.SelectPrevious | src/com/tetris/controller/GameController.java:321 | `(s - 1 + n) % n` stays in [0, n) and is `s - 1`, wrapping from 0 to `n - 1` |
| GameControl.SelectNext | src/com/tetris/controller/GameController.java:324 | `(s + 1) % n` stays in [0, n) and is `s + 1`, wrapping from `n - 1` to 0 |
| GameControl.SelectionStepsInverse | src/com/tetris/controller/GameController.java:319-325 | Moving up then down, or down then up, returns to the same entry |
| GameControl.DelayForLevel | src/com/tetris/controller/GameController.java:549-551 | The delay is never below 100 and is 400 at level 1. It is exactly 100 iff the level is at least 11, and `400 - (level - 1) * 30` up to level 11 |
| GameControl.DelayNonIncreasing | src/com/tetris/controller/GameController.java:549-551 | A higher level never has a longer delay |
| GameControl.PlayerLogicOrdering | src/com/tetris/controller/GameController.java:184-197 | A game-over board gets nothing. An animating board gets `decrementLineClearTimer` first, `finishLineClear` iff the timer is then <= 0, `newPiece` iff also still not over and right after `finishLineClear`, and never `movePieceDown`. Otherwise `movePieceDown` is issued iff the board is started and the delay has passed. All calls go to that board, and none is a garbage or win command |
| GameControl.GarbageTransfer | src/com/tetris/controller/GameController.java:131-140 | Only the difference travels, to the board with less: board 2 receives exactly `out1 - out2` when that is positive, board 1 exactly `out2 - out1` when that is, and the other nothing. Equal counts send nothing |
| GameControl.GarbageClearing | src/com/tetris/controller/GameController.java:133-143 | Both outgoing counts are cleared iff either is positive, even when they are equal. With neither positive no board is called |
| GameControl.WinAwarding | src/com/tetris/controller/GameController.java:159-173 | At most one `addWin`. It goes to board 2 iff two-player, logged in and only board 1 is over, and symmetrically to board 1. A draw awards nothing |
| GameControl.TickOnePlayer | src/com/tetris/controller/GameController.java:109-144 | A one-player tick calls board 1 only and never exchanges garbage or awards a win |
| GameControl.GarbageOnlyInRunningTwoPlayerTick | src/com/tetris/controller/GameController.java:109-144 | Garbage is sent or cleared only in two-player mode, while board 1 is started and no pause or profile screen is up |
| GameControl.TickGarbageNetTransfer | src/com/tetris/controller/GameController.java:130-144 | Over a whole running two-player tick, for any non-negative outgoing counts (zero included), board 2 receives exactly `out1 - out2` more lines than board 1, and one of the two receives none |
| GameControl.TickAwardsAtMostOnce | src/com/tetris/controller/GameController.java:146-178 | A tick awards at most one win, and none once the loop timer is stopped |
| GameControl.MovesAwardNoWin | src/com/tetris/controller/GameController.java:117-129 | The per-board steps of a tick award no win |
| GameControl.MovesSendNoGarbage | src/com/tetris/controller/GameController.java:117-129 | The per-board steps of a tick send no garbage to either board |
| GameControl.EndAwardsAtMostOnce | src/com/tetris/controller/GameController.java:130-178 | The closing steps of a tick award at most one win, and none while the loop timer is stopped |
| GameControl.ToUpper | src/com/tetris/controller/GameController.java:288 | Upper-casing maps each lower-case letter to the upper-case letter at the same place in the alphabet, so a letter or digit gives an upper-case letter or digit; other characters are unchanged |
| GameControl.TrimName | src/com/tetris/controller/GameController.java:267 | Trimming a name built by the editor leaves it unchanged |
| GameControl.EditNameBounded | src/com/tetris/controller/GameController.java:278-290 | Backspace drops the last character only if there is one. Any other key appends one upper-cased letter or digit only while the name is shorter than 15, or leaves it unchanged. The name stays within 15 upper-case letters and digits |
| GameControl.GameKeysRespectAnimation | src/com/tetris/controller/GameController.java:426-481 | A key issues at most one move, turn or drop. It never goes to an animating board, and never to board 2 in one-player mode |
| GameControl.DropKeyIssuesDrop | src/com/tetris/controller/GameController.java:426-481 | A key issues a soft or hard drop to a board iff it is that board's drop key in the current mode and the board is not animating |
| GameControl.GameController.constructor | src/com/tetris/controller/GameController.java:58-79 | Starts on the main menu in one-player mode: all selections 0, theme 0, empty name, nobody logged in, timer stopped, both drop clocks 0, no board called |
| GameControl.GameController.Start | src/com/tetris/controller/GameController.java:98-104 | Both drop clocks restart at `now` and the loop timer runs |
| GameControl.GameController.HandlePlayerLogic | src/com/tetris/controller/GameController.java:184-197 | Appends exactly `PlayerLogicCalls` for that board, the commands `PlayerLogicOrdering` characterises |
| GameControl.GameController.Tick | src/com/tetris/controller/GameController.java:107-182 | Appends exactly `TickCalls`. A drop clock restarts iff the game runs and its delay passed. At the first finished round seen with the timer running, the timer stops and the game-over selection resets to 0 |
| GameControl.GameController.RunningTick | src/com/tetris/controller/GameController.java:115-179 | The running branch of the tick, with the same promises |
| GameControl.GameController.MovePieces | src/com/tetris/controller/GameController.java:117-129 | Board 1's step, then board 2's in two-player mode; each clock restarts iff its delay passed |
| GameControl.GameController.EndTick | src/com/tetris/controller/GameController.java:130-178 | The garbage exchange in two-player mode, then the round-end check |
| GameControl.GameController.ExchangeGarbage | src/com/tetris/controller/GameController.java:131-143 | Appends exactly `GarbageExchangeCalls`, the commands `GarbageExchange` characterises |
| GameControl.GameController.FinishRound | src/com/tetris/controller/GameController.java:146-178 | If the round is finished and the timer runs: the timer stops, the `WinAwarding` commands are appended and the selection resets. Otherwise nothing changes |
| GameControl.GameController.StartGame | src/com/tetris/controller/GameController.java:294-317 | The new state is exactly `StartGameStep`: the mode is set, board 1 and, in two-player mode, board 2 are started, the timer runs, both clocks restart, the menus close, and no other field changes |
| GameControl.GameController.UnpauseGame | src/com/tetris/controller/GameController.java:374-382 | The new state is exactly `UnpauseStep`: the pause screen closes, both drop clocks restart, and no other field changes |
| GameControl.GameController.GoToMenu | src/com/tetris/controller/GameController.java:384-404 | The new state is exactly `GoToMenuStep`: both boards reset, main menu at entry 0, logged out, name cleared, and no other field changes |
| GameControl.GameController.HandleProfileSelectionKeys | src/com/tetris/controller/GameController.java:263-291 | The new state is exactly `ProfileKeyStep` of the old one |
| GameControl.GameController.HandleGameOverKeys | src/com/tetris/controller/GameController.java:319-334 | The new state is exactly `GameOverKeyStep` of the old one |
| GameControl.GameController.HandlePausedKeys | src/com/tetris/controller/GameController.java:336-372 | The new state is exactly `PausedKeyStep` of the old one |
| GameControl.GameController.PauseMenuKey | src/com/tetris/controller/GameController.java:341-360 | The new state is exactly `PauseMenuKeyStep` of the old one |
| GameControl.GameController.HandleGameKeys | src/com/tetris/controller/GameController.java:406-482 | The new state is exactly `GameKeyStep` of the old one |
| GameControl.GameController.CycleTheme | src/com/tetris/controller/GameController.java:408-411 | The new state is exactly `CycleThemeStep`: the next theme, wrapping, and no other field changes |
| GameControl.GameController.ToggleGhostPieces | src/com/tetris/controller/GameController.java:412-416 | The new state is exactly `ToggleGhostStep`: board 1's ghost piece is toggled, board 2's too in two-player mode, and no other field changes |
| GameControl.GameController.PauseGame | src/com/tetris/controller/GameController.java:417-424 | The new state is exactly `PauseStep`: the pause menu opens at entry 0, and no other field changes |
| GameControl.GameController.PlayKey | src/com/tetris/controller/GameController.java:426-481 | Appends exactly `GameKeyCalls`, restarting a board's clock iff the key drops that board's piece; nothing else in its frame changes |
| GameControl.GameController.PlayOnePlayerKey | src/com/tetris/controller/GameController.java:428-443 | The one-player key map, restarting the clock on Down and Space |
| GameControl.GameController.PlayTwoPlayerKey | src/com/tetris/controller/GameController.java:444-481 | The two-player key map, gated per board, restarting that board's clock on its soft or hard drop |
| GameControl.GameController.HandleMenuKeys | src/com/tetris/controller/GameController.java:484-547 | The new state is exactly `MenuKeyStep` of the old one |
| GameControl.GameController.MainMenuKey | src/com/tetris/controller/GameController.java:490-513 | The new state is exactly `MainMenuKeyStep` of the old one |
| GameControl.GameController.ModeSelectKey | src/com/tetris/controller/GameController.java:515-533 | The new state is exactly `ModeSelectKeyStep` of the old one |
| GameControl.GameController.InfoPageKey | src/com/tetris/controller/GameController.java:535-541 | The new state is exactly `InfoPageKeyStep` of the old one |
| GameControl.GameController.KeyPressed | src/com/tetris/controller/GameController.java:233-261 | Keeps `Valid`, and the new state is exactly `KeyStep` of the old one |
| GameControl.GameController.HandleActiveKeys | src/com/tetris/controller/GameController.java:244-255 | The new state is exactly `ActiveKeyStep` of the old one |
| GameControl.EditName | src/com/tetris/controller/GameController.java:278-290 | Editing keeps a valid name valid |
| GameControl.ProfileKeyStep | src/com/tetris/controller/GameController.java:263-291 | Keeps the invariant and calls no board. The user changes only on Enter, to the profile found. Mode selection is reached only with a user logged in |
| GameControl.GameOverKeyStep | src/com/tetris/controller/GameController.java:319-334 | Keeps the invariant. Only start and reset commands are appended, and the mode and theme are kept |
| GameControl.PauseMenuKeyStep | src/com/tetris/controller/GameController.java:341-360 | Keeps the invariant. The log is unchanged or gains exactly the two resets. Mode and timer are kept. Leaving the pause menu for the round restarts both drop clocks |
| GameControl.PausedKeyStep | src/com/tetris/controller/GameController.java:336-372 | Keeps the invariant. Only reset commands are appended. Mode and timer are kept. Leaving the pause screens for the round restarts both drop clocks |
| GameControl.GameKeyStep | src/com/tetris/controller/GameController.java:406-482 | Keeps the invariant. Only piece commands and ghost toggles are appended. Mode and timer are kept |
| GameControl.PlayKeyStep | src/com/tetris/controller/GameController.java:426-481 | Only piece commands are appended: never a ghost toggle |
| GameControl.MainMenuKeyStep | src/com/tetris/controller/GameController.java:490-513 | Keeps the invariant. No board is called, and the mode and user are kept |
| GameControl.ModeSelectKeyStep | src/com/tetris/controller/GameController.java:515-533 | Keeps the invariant. The log is unchanged, or gains the start command(s) of the new mode while the screen closes and the timer runs |
| GameControl.InfoPageKeyStep | src/com/tetris/controller/GameController.java:535-541 | No board is called and the user is kept |
| GameControl.MenuKeyStep | src/com/tetris/controller/GameController.java:484-547 | Keeps the invariant. Only start commands are appended, and a key that appends any has closed the menus with the timer running |
| GameControl.ActiveKeyStep | src/com/tetris/controller/GameController.java:244-255 | Keeps the invariant. During play only play commands are appended; on the game-over and pause screens only start and reset commands |
| GameControl.KeyStep | src/com/tetris/controller/GameController.java:233-261 | Keeps the invariant. During play a key appends only piece commands and ghost toggles; otherwise only start and reset commands. So no key clears lines, sends garbage or awards a win |
| GameControl.PauseResumeRoundTrip | src/com/tetris/controller/GameController.java:417-424 | During play, P then P again returns to the round with only the pause selection reset and both drop clocks restarted |

## Left out

- `Board` (collision, locking, row clearing, scoring, levels, garbage injection, ghost piece) is not part of this model: its source is not available. The controller only records the commands it sends, and everything a board answers is an input.
- Swing: `updateView`, `setMode`, `packAndCenter`, `repaint` and every panel are presentation only and are left out. So are the key listener registration and the `javax.swing.Timer` object, whose running state is the field `timerRunning`.
- The database is not modelled: `findOrCreatePlayer`, `addScore`, `updateStats1P`, `getTopSoloScores` and the `topSoloScores` list. The profile found for a name is an input, and a logged-in user is known only by an id.
- Audio playback is not modelled: `playMusic`, `stopMusic` and the `Clip` loading after the path cleaning are foreign I/O.
- `System.currentTimeMillis` is the parameter `now`, and a key event is its code (`Key`) and character. The number `Random.nextInt()` draws is the parameter of `SetRandomShape`.
- GameControl.GameController.HandleMenuKeys: `System.exit(0)` sets `exitRequested` instead of ending the process.
- GameControl.GameController.Tick: `lastPieceMoveTime1`/`lastPieceMoveTime2` and `now` are unbounded integers, so the Java `long` wrap-around on subtraction is not modelled.
- GameControl.DelayForLevel: does not model the 32-bit overflow of `(level - 1) * 30` for levels beyond about 71 million.
- GameControl.ToUpper: `Character.isLetterOrDigit` and `Character.toUpperCase` are modelled on ASCII only, not on all of Unicode.
- Pieces.Piece.SetCoordX: offsets and positions are unbounded integers, so 32-bit overflow when negating an offset is not modelled. The table's offsets lie in [-1, 2], so it cannot arise from rotation.
- `getX`, `getY` and `getShape` are plain reads of the fields `x`, `y` and `pieceShape`; they have no members of their own.
- The shared `java.util.Random` is a parameter, as above.
- The controller's music path is not passed through `CleanPath` in the controller model. `AudioPath.ControllerMusicPathUnchanged` proves that cleaning leaves it as it is.
