# Transcendence Pong: a Dafny model of the game core

Transcendence is a web site for playing Pong and tic-tac-toe, locally or in
knockout tournaments, with a back end that stores tournaments and their
brackets. This project models the game logic of its front end and the
bracket builder of its back end, and proves properties of the model.

What is modelled, module by module:

- `Constants`: the shared constants, the AI difficulty table and the
  in-place Fisher–Yates `shuffleArray` (frontend/src/utils/constants.ts).
  The random draws are an explicit parameter.
- `Keyboard`: the keyboard hook (frontend/src/components/pong/hooks/useKeyboardControls.ts).
  Key-down and key-up are pure transitions on the two movement cells, and the class
  `Controls` performs them in place. The first React page,
  frontend/src/PongGame.tsx, has handlers with the same switch; its
  `LegacyPage.KeyPressed` and `LegacyPage.KeyReleased` apply these
  transitions to that page's state.
- `RealMath`, `Geometry`, `PongCommon`: what the engines share. This covers `Math.min`,
  `Math.max`, `Math.abs`, `Math.sign`, the clamp, and the circle-against-rectangle
  collision test. It also covers the phase machine, the dead-zone AI and the
  held-key table.
- `PongView`: the canvas view frontend/src/views/Pong.ts. It has the classic one- and
  two-player modes, scored to WINNING_SCORE. It also has the four-player mode, where every player
  starts with three lives and an eliminated player's edge becomes a wall.
- `ClassicPong`: the earlier canvas engine frontend/src/pong.ts.
- `GameEngine`: the React hook frontend/src/components/pong/hooks/useGameEngine.ts
  and the component's `resetBall`.
- `Tournament`, `PongApp`: the React component frontend/src/components/pong/PongGame.tsx.
  This covers the roster of at most 16 distinct names, pairing with the BYE filler,
  recording a result, collecting a round's winners, and every click handler.
- `LegacyEngine`, `LegacyPage`: the first React page, frontend/src/PongGame.tsx.
  It has its own physics, an AI with a fixed speed, and a tournament whose
  rounds are shuffled before pairing.
- `TicTacToe`: the view frontend/src/views/TicTacToe.ts. It has the board,
  win and draw detection, the rule-based AI, and the pending AI move.
- `Bracket`: backend/controllers/Tournament.js. It validates a
  tournament request and writes the bracket into the match table.

Two modelling styles are used, depending on how the source is written.

- Code that updates an object in place is a class: the engines, the
  tic-tac-toe board, the keyboard cells and the match table. Each of its
  methods is proved to leave exactly the state that a specification function
  of the old state gives. The properties that matter are proved about those
  functions: bounds on the paddles, how lives and scores change,
  when and with what winner a game ends, and the shape of the bracket.
- React component state is a record. Each handler is the record that the
  component settles to once its updates apply.

Game loops become `Frame` events. Timers become explicit timer events.
Random numbers become parameters.

## Model

| member | source | states |
|---|---|---|
| RealMath.Clamp | frontend/src/views/Pong.ts:174 | `Math.max(lo, Math.min(v, hi))` lies in [lo, hi] when the range is non-empty, keeps a value already inside, and gives lo when the range is empty |
| RealMath.Sign | frontend/src/views/Pong.ts:166 | `Math.sign`: 1 for a positive, -1 for a negative, 0 for zero |
| Geometry.Closest | frontend/src/views/Pong.ts:31-32 | the clamped point lies in the rectangle |
| Geometry.ClosestIsNearest | frontend/src/views/Pong.ts:31-32 | the clamped point is at least as close to the centre as every point of the rectangle |
| Geometry.CircleHitsRect | frontend/src/views/Pong.ts:31-36 | the closest-point test holds exactly when some point of the rectangle lies strictly within the radius of the centre |
| Geometry.SeparatedOnXMisses | frontend/src/views/Pong.ts:31-36 | a centre at least one radius beyond the rectangle's left or right side is no hit |
| Geometry.SeparatedOnYMisses | frontend/src/views/Pong.ts:31-36 | the same above or below the rectangle |
| PongCommon.BounceSpeed | frontend/src/views/Pong.ts:205 | the bounce speed lies in [0, MAX_BALL_SPEED] |
| PongCommon.BounceSpeedPositive | frontend/src/views/Pong.ts:205 | a ball with horizontal motion bounces with a positive speed |
| PongCommon.AIStep | frontend/src/views/Pong.ts:162-167 | inside the error margin the AI paddle stays put; outside it moves toward the target by min(speed, distance), never past it and never by more than the speed |
| PongCommon.AIStepReachesOrApproaches | frontend/src/views/Pong.ts:164-167 | outside the margin, a target within one step is reached exactly, otherwise the distance shrinks by exactly one step |
| PongCommon.PressKey | frontend/src/views/Pong.ts:347 | the lower-cased key is pressed and no other key changes |
| PongCommon.ReleaseKey | frontend/src/views/Pong.ts:348 | the lower-cased key is released and no other key changes |
| PongCommon.OpposedVelocity | frontend/src/views/Pong.ts:157 | +speed exactly when only the "plus" key is held, -speed exactly when only the "minus" key is, 0 exactly when both or neither are |
| Constants.DifficultyLevels | frontend/src/utils/constants.ts:14-19 | every level's dead zone is non-negative, and it is zero exactly for IMPOSSIBLE |
| Constants.MarginsStrictlyDecrease | frontend/src/utils/constants.ts:14-19 | a harder level always has a strictly smaller error margin (70 > 50 > 15 > 0) |
| Constants.Swap | frontend/src/utils/constants.ts:25 | the destructuring swap exchanges positions i and j and leaves every other position as it was |
| Constants.SwapPermutes | frontend/src/utils/constants.ts:25 | a swap keeps the multiset of elements |
| Constants.FisherYatesPermutes | frontend/src/utils/constants.ts:23-26 | the loop from i down to 1, for any draws j in [0, i], keeps the length and the multiset of elements |
| Constants.ShuffledPermutes | frontend/src/utils/constants.ts:22-28 | the whole shuffle is a permutation of its input, whatever the random draws |
| Constants.Shuffled | frontend/src/utils/constants.ts:22-28 | the shuffle keeps the length, and an array of length 0 or 1 comes back as it was |
| Constants.FisherYates | frontend/src/utils/constants.ts:23-26 | the loop from i down to 1 keeps the length; its multiset is `FisherYatesPermutes` |
| Constants.SwapInPlace | frontend/src/utils/constants.ts:25 | the array's new contents are the swapped old contents |
| Constants.ShuffleSteps | frontend/src/utils/constants.ts:23-26 | the in-place loop leaves exactly the contents the Fisher–Yates specification gives |
| Constants.ShuffleArray | frontend/src/utils/constants.ts:22-28 | returns the same array object; its contents are a permutation of the old ones; arrays of length 0 or 1 come back unchanged |
| Keyboard.LowerChar | frontend/src/components/pong/hooks/useKeyboardControls.ts:11 | upper-case ASCII letters become lower-case letters, every other character is kept |
| Keyboard.ToLower | frontend/src/components/pong/hooks/useKeyboardControls.ts:11 | `toLowerCase` keeps the length and lower-cases character by character |
| Keyboard.ToLowerIdempotent | frontend/src/components/pong/hooks/useKeyboardControls.ts:11 | lower-casing twice is lower-casing once |
| Keyboard.KeyDown | frontend/src/components/pong/hooks/useKeyboardControls.ts:10-17 | w or arrowup sets P1 to up and s or arrowdown sets it to down; outside one-player mode o sets P2 to up and l sets it to down; every other key, and o/l in one-player mode, changes nothing |
| Keyboard.KeyUp | frontend/src/components/pong/hooks/useKeyboardControls.ts:19-26 | releasing a player's up key while that player moves up, or its down key while it moves down, makes it idle; a release only ever clears a direction, and only the direction that equals the released key's direction |
| Keyboard.CaseInsensitive | frontend/src/components/pong/hooks/useKeyboardControls.ts:11-20 | both handlers treat a key exactly as its lower-cased name |
| Keyboard.UnlistedKeysIgnored | frontend/src/components/pong/hooks/useKeyboardControls.ts:11-25 | a key outside the listed cases changes neither direction on press or release |
| Keyboard.OnePlayerIgnoresSecondPlayer | frontend/src/components/pong/hooks/useKeyboardControls.ts:14-15 | in one-player mode no key press changes P2 |
| Keyboard.PressThenReleaseIsIdle | frontend/src/components/pong/hooks/useKeyboardControls.ts:11-25 | pressing and releasing the same key leaves that player idle |
| Keyboard.OverriddenReleaseIgnored | frontend/src/components/pong/hooks/useKeyboardControls.ts:12-21 | holding w, pressing s, then releasing w keeps P1 moving down |
| Keyboard.Controls.constructor | frontend/src/components/pong/hooks/useKeyboardControls.ts:6-7 | both cells start as null (idle) |
| Keyboard.Controls.HandleKeyDown | frontend/src/components/pong/hooks/useKeyboardControls.ts:10-17 | the cells' new values are `KeyDown` of the old ones |
| Keyboard.Controls.HandleKeyUp | frontend/src/components/pong/hooks/useKeyboardControls.ts:19-26 | the cells' new values are `KeyUp` of the old ones |
| Keyboard.Controls.Clear | frontend/src/components/pong/hooks/useKeyboardControls.ts:36 | the exposed setters called with null leave both cells idle |
| TicTacToe.Other | frontend/src/views/TicTacToe.ts:89 | the other player is never the same player |
| TicTacToe.WinningCondition | frontend/src/views/TicTacToe.ts:49-53 | each of the 8 lines is three distinct cells of the 3x3 board |
| TicTacToe.AnyLineFrom | frontend/src/views/TicTacToe.ts:170-172 | `some` over the lines from k on is true exactly when one of them is filled with the player's mark |
| TicTacToe.CheckWinner | frontend/src/views/TicTacToe.ts:169-173 | `checkWinner(p)` is true exactly when some line is filled with p's mark |
| TicTacToe.RoundWonIffSomeoneWins | frontend/src/views/TicTacToe.ts:55-66 | the validation loop's "three equal non-empty cells" finds a line exactly when X or O has won |
| TicTacToe.WinnerIsMover | frontend/src/views/TicTacToe.ts:99-103 | on a board with no completed line, a new mark can complete only a line of that mark |
| TicTacToe.MarkKeepsLines | frontend/src/views/TicTacToe.ts:100 | writing into an empty cell never breaks a completed line |
| TicTacToe.PlayerChange | frontend/src/views/TicTacToe.ts:88-97 | the turn passes to the other player; the AI move is armed exactly when, against the AI, it becomes O's turn in an active game; the board is untouched |
| TicTacToe.ResultValidation | frontend/src/views/TicTacToe.ts:55-86 | a completed line or a full board deactivates the game and keeps the player to move as winner; otherwise the turn passes |
| TicTacToe.CellPlayed | frontend/src/views/TicTacToe.ts:99-104 | cell i gets the mover's mark and no other cell changes |
| TicTacToe.CellClick | frontend/src/views/TicTacToe.ts:106-118 | a click on an occupied cell, in an inactive game or on O's turn against the AI changes nothing; otherwise the cell gets the mover's mark; a placed mark is never overwritten |
| TicTacToe.EmptyBoard | frontend/src/views/TicTacToe.ts:178 | nine empty cells |
| TicTacToe.Restart | frontend/src/views/TicTacToe.ts:175-186 | restart empties all nine cells, gives X the move and reactivates the game; the mode and a pending AI move are kept |
| TicTacToe.SetMode | frontend/src/views/TicTacToe.ts:198-201 | a mode button sets the mode and restarts |
| TicTacToe.Initial | frontend/src/views/TicTacToe.ts:44-47 | the view starts in HvsH, active, X to move, on an empty board |
| TicTacToe.EmptyAmong | frontend/src/views/TicTacToe.ts:155 | the filter keeps exactly the listed cells that are empty |
| TicTacToe.Pick | frontend/src/views/TicTacToe.ts:157 | `Math.floor(Math.random() * n)` is an index below n |
| TicTacToe.FirstCompleting | frontend/src/views/TicTacToe.ts:130-139 | the trial loop returns the first empty cell whose mark completes a line of the player, or -1 when there is none |
| TicTacToe.Positional | frontend/src/views/TicTacToe.ts:152-166 | the centre when empty, else an empty corner, else an empty side; -1 exactly on a full board |
| TicTacToe.BestMove | frontend/src/views/TicTacToe.ts:129-167 | a winning move for O if there is one, else a move blocking X, else the positional choice; the result is an empty cell, or -1 exactly on a full board |
| TicTacToe.AIMove | frontend/src/views/TicTacToe.ts:120-127 | the timer's move clears the pending flag; on a board with a free cell it marks exactly the cell `BestMove` chooses, an empty one, with the mark of the player to move, then ends the round on a win or a full board (the turn kept) or passes the turn; a full board changes nothing else |
| TicTacToe.EmptyBoardNotWon | frontend/src/views/TicTacToe.ts:178 | the empty board has no completed line and is not full |
| TicTacToe.InitialConsistent | frontend/src/views/TicTacToe.ts:44-47 | the initial state is consistent: active exactly while no line is complete and a cell is empty |
| TicTacToe.SetModeConsistent | frontend/src/views/TicTacToe.ts:198-201 | a mode change gives a consistent state |
| TicTacToe.CellPlayedConsistent | frontend/src/views/TicTacToe.ts:99-104 | playing an empty cell keeps the state consistent, and a completed line belongs to the player named as winner |
| TicTacToe.CellClickConsistent | frontend/src/views/TicTacToe.ts:106-118 | every click keeps the state consistent; a click that ends the game with a line names the clicking player |
| TicTacToe.AIMoveConsistent | frontend/src/views/TicTacToe.ts:120-127 | the AI's move keeps the state consistent |
| TicTacToe.StaleAIMoveMarksForX | frontend/src/views/TicTacToe.ts:93-95 | a mode change does not cancel the armed AI move: after X's first move against the AI and a switch to HvsH, the AI's centre move is played with X's mark |
| TicTacToe.Board.constructor | frontend/src/views/TicTacToe.ts:44-47 | the board starts as `Initial()` and consistent |
| TicTacToe.Board.HandlePlayerChange | frontend/src/views/TicTacToe.ts:88-97 | the state becomes `PlayerChange` of the old state |
| TicTacToe.Board.HandleResultValidation | frontend/src/views/TicTacToe.ts:55-86 | the loop over the lines, with its skip of lines holding an empty cell, yields `ResultValidation` of the old state |
| TicTacToe.Board.HandleCellPlayed | frontend/src/views/TicTacToe.ts:99-104 | the state becomes `CellPlayed` of the old state |
| TicTacToe.Board.HandleCellClick | frontend/src/views/TicTacToe.ts:106-118 | the state becomes `CellClick` of the old state and stays consistent |
| TicTacToe.Board.FindBestMove | frontend/src/views/TicTacToe.ts:129-167 | the trial writes leave the board exactly as it was, and the result is `BestMove` of the board |
| TicTacToe.Board.MakeAIMove | frontend/src/views/TicTacToe.ts:120-127 | the state becomes `AIMove` of the old state and stays consistent |
| TicTacToe.Board.HandleRestartGame | frontend/src/views/TicTacToe.ts:175-186 | a fresh nine-cell board; the state becomes `Restart` of the old state |
| TicTacToe.Board.SelectMode | frontend/src/views/TicTacToe.ts:198-201 | the state becomes `SetMode` of the old state and is consistent |
| Tournament.OrBye | frontend/src/components/pong/PongGame.tsx:88 | `name \|\| BYE` keeps a non-empty name and replaces the empty (falsy) one by the filler |
| Tournament.Pairings | frontend/src/components/pong/PongGame.tsx:86-91 | ceil(n/2) matches; match k pairs players 2k and 2k+1 (the filler when 2k+1 is past the end or empty) and has no winner |
| Tournament.PairingsPlaceEveryone | frontend/src/components/pong/PongGame.tsx:86-91 | with non-empty names, every player sits in exactly the match of its pair, as p1 at an even position and as p2 at an odd one |
| Tournament.ByeOnlyLast | frontend/src/components/pong/PongGame.tsx:86-91 | with non-empty names, a match's p2 is the filler exactly when it is the last match of an odd roster (or a player is literally named like the filler) |
| Tournament.PairingsUseOnlyPlayers | frontend/src/components/pong/PongGame.tsx:86-91 | every name in the schedule is a player of the roster or the filler |
| Tournament.RecordWinner | frontend/src/components/pong/PongGame.tsx:100 | the `map` sets the winner of the match at the current index only; every other match is unchanged |
| Tournament.RoundWinners | frontend/src/components/pong/PongGame.tsx:107 | the winners are exactly the set, non-filler results, at most one per match, and one per match when all are decided |
| Tournament.RoundWinnersInOrder | frontend/src/components/pong/PongGame.tsx:107 | when every match is decided, winner k is the winner of match k |
| Tournament.NextRoundShrinks | frontend/src/components/pong/PongGame.tsx:107-118 | a fully decided round of m matches leads to ceil(m/2) matches, fewer than m while m > 1 |
| Tournament.TrimStart | frontend/src/components/pong/PongGame.tsx:127 | a suffix of the input that does not start with white space; everything removed is white space |
| Tournament.TrimEnd | frontend/src/components/pong/PongGame.tsx:127 | a prefix of the input that does not end with white space; everything removed is white space |
| Tournament.Trim | frontend/src/components/pong/PongGame.tsx:127 | `trim` gives a slice of the input with no white space at either end, and everything before and after the slice is white space |
| Tournament.TrimmedSlice | frontend/src/components/pong/PongGame.tsx:127 | trimming the front and then the back leaves a slice of the input flanked by white space only |
| Tournament.AddPlayer | frontend/src/components/pong/PongGame.tsx:125-132 | the list changes exactly when the trimmed name is non-empty, not yet present and the list has fewer than 16 entries, and then the trimmed name is appended |
| Tournament.AddPlayerKeepsRoster | frontend/src/components/pong/PongGame.tsx:127-129 | the roster stays duplicate-free, with non-empty trimmed names and at most 16 entries |
| Tournament.TrimTrimmed | frontend/src/components/pong/PongGame.tsx:127 | trimming twice is trimming once |
| PongApp.GameReset | frontend/src/components/pong/PongGame.tsx:60-68 | score 0-0, no winner, unpaused, unstarted, no key held, the ball served again when canvas and objects exist; tournament and mode untouched |
| PongApp.GameModeChange | frontend/src/components/pong/PongGame.tsx:70-80 | a reset and the new mode; entering or leaving the tournament mode clears players and schedule, resets the index to 0, clears the champion and returns to setup; otherwise the tournament is kept |
| PongApp.StartTournament | frontend/src/components/pong/PongGame.tsx:83-97 | as written: nothing for fewer than 2 players; otherwise ceil(n/2) pairings of the shuffled roster, index 0, in progress, a reset, and the game mode switched to two players |
| PongApp.StartTournamentIntended | frontend/src/components/pong/PongGame.tsx:83-97 | the same start with the page left in tournament mode |
| PongApp.SameMembers | frontend/src/components/pong/PongGame.tsx:85 | a rearrangement has the same members |
| PongApp.DistinctPermutation | frontend/src/components/pong/PongGame.tsx:85 | a rearrangement of a duplicate-free roster is duplicate-free |
| PongApp.SeatsOnce | frontend/src/components/pong/PongGame.tsx:86-91 | pairing a duplicate-free roster without the filler's name puts each player in one match only and never against itself |
| PongApp.PairingsSeatRoster | frontend/src/components/pong/PongGame.tsx:85-91 | pairing any rearrangement of the roster seats every player in exactly one match, never against itself, with only players or the filler, no results, and the filler exactly in the last match of an odd roster |
| PongApp.SeatsEveryone | frontend/src/components/pong/PongGame.tsx:86-91 | every player of the roster sits in some match |
| PongApp.ByeSeatLast | frontend/src/components/pong/PongGame.tsx:88 | without a player named like the filler, the filler is p2 exactly in the last match of an odd roster |
| PongApp.StartTournamentSeatsEveryone | frontend/src/components/pong/PongGame.tsx:83-97 | the first round of the start as written, and of the intended one, seats every registered player in exactly one match, as above |
| PongApp.AdvanceTournament | frontend/src/components/pong/PongGame.tsx:99-123 | the current match's result is recorded alone; while matches remain the index advances by one with a reset; otherwise one winner is the champion and finishes the tournament, and more winners are paired into a new round from index 0 |
| PongApp.AddPlayerClick | frontend/src/components/pong/PongGame.tsx:125-132 | the roster becomes `AddPlayer` of the typed name, the input clears only when the name was added, nothing else changes |
| PongApp.MatchResult | frontend/src/components/pong/PongGame.tsx:137-139 | a match against the filler advances p1; otherwise the side the engine named ("Jugador 1" gives p1); always one of the two seated |
| PongApp.ButtonClick | frontend/src/components/pong/PongGame.tsx:134-149 | with a winner: advance the tournament with the match result in tournament mode, reset otherwise; without one, an unstarted game starts unpaused, a started one toggles the pause |
| PongApp.StartedTournamentNeverAdvances | frontend/src/components/pong/PongGame.tsx:95 | as written, the result of the first match of a started tournament is never recorded: the schedule, index 0 and the in-progress state stay |
| PongApp.IntendedTournamentAdvances | frontend/src/components/pong/PongGame.tsx:134-139 | with the intended start, the first result is recorded and the next match becomes current, or two players yield a champion from the roster |
| PongApp.ResultClick | frontend/src/components/pong/PongGame.tsx:134-139 | a result click on the first match of a round of registered players decides it and moves on, or crowns a registered champion |
| PongApp.Step | frontend/src/components/pong/PongGame.tsx:60-149 | the game mode changes only on a mode change or on a tournament start with two players or more, which switches it to TWO_PLAYERS as written |
| PongApp.AsWrittenNothingRecorded | frontend/src/components/pong/PongGame.tsx:83-149 | as written, from the mounted page on, no event ever records a match result or a champion: outside tournament mode the schedule stays empty or unplayed |
| PongApp.MountedWellformed | frontend/src/components/pong/PongGame.tsx:19-32 | the freshly mounted page's tournament bookkeeping is consistent |
| PongApp.ScheduleOfGrows | frontend/src/components/pong/PongGame.tsx:129 | adding players keeps a schedule a schedule of the roster |
| PongApp.RecordWinnerKeepsSchedule | frontend/src/components/pong/PongGame.tsx:100 | recording one of the two seated players keeps the schedule consistent |
| PongApp.RoundWinnersFromRoster | frontend/src/components/pong/PongGame.tsx:107 | the round's winners are players of the roster |
| PongApp.PairingsScheduleOf | frontend/src/components/pong/PongGame.tsx:112-117 | a round paired from roster players is a schedule of the roster |
| PongApp.AdvanceKeepsWellformed | frontend/src/components/pong/PongGame.tsx:99-123 | advancing with a seated player keeps the bookkeeping consistent, including a champion from the roster |
| PongApp.StepKeepsWellformed | frontend/src/components/pong/PongGame.tsx:60-149 | every event, with the start as written, keeps the bookkeeping consistent: a duplicate-free roster of at most 16, a schedule of it, a current match while in progress, a champion from the roster |
| PongApp.SameTournamentWellformed | frontend/src/components/pong/PongGame.tsx:27-32 | the bookkeeping depends on the tournament fields alone |
| PongApp.AddPlayerKeepsWellformed | frontend/src/components/pong/PongGame.tsx:125-132 | adding a player keeps the bookkeeping consistent |
| PongApp.StartKeepsWellformed | frontend/src/components/pong/PongGame.tsx:83-97 | starting a tournament, as written and as intended, keeps the bookkeeping consistent |
| PongApp.ButtonKeepsWellformed | frontend/src/components/pong/PongGame.tsx:134-149 | the button keeps the bookkeeping consistent |
| PongApp.ModeChangeKeepsWellformed | frontend/src/components/pong/PongGame.tsx:70-80 | a mode change keeps the bookkeeping consistent |
| GameEngine.InitialObjects | frontend/src/components/pong/hooks/useGameEngine.ts:37-42 | the ball starts at the centre moving down-right at equal speeds; the paddles are vertically centred at x = 0 and x = width - PADDLE_WIDTH |
| GameEngine.Served | frontend/src/components/pong/PongGame.tsx:40-52 | `resetBall` recentres the ball and both paddles, gives dx the sign opposite to its old value (positive when it was 0), and \|dx\| = \|dy\| = INITIAL_BALL_SPEED |
| GameEngine.Steered | frontend/src/components/pong/hooks/useGameEngine.ts:64-65 | up moves by -PADDLE_SPEED, down by +PADDLE_SPEED, null not at all |
| GameEngine.MovePaddles | frontend/src/components/pong/hooks/useGameEngine.ts:64-78 | player 1 by its key direction, player 2 by the AI step in one-player mode or by its keys otherwise, each clamped into [0, height - PADDLE_HEIGHT]; the ball and the x positions are untouched |
| GameEngine.WallBounce | frontend/src/components/pong/hooks/useGameEngine.ts:80 | dy flips exactly when the ball overlaps the top or bottom edge; nothing else changes |
| GameEngine.Deflected | frontend/src/components/pong/hooks/useGameEngine.ts:83-85 | the sign of dx flips, \|dx\| is multiplied by ACCELERATION_FACTOR, and \|dy\| < BOUNCE_ANGLE_FACTOR/2 |
| GameEngine.HitLeft | frontend/src/components/pong/hooks/useGameEngine.ts:82-86 | the ball changes only when it moves left, its edge has passed the paddle face and its centre is strictly within the span; then it moves right, faster by the factor, with \|dy\| < BOUNCE_ANGLE_FACTOR/2 |
| GameEngine.HitRight | frontend/src/components/pong/hooks/useGameEngine.ts:88-92 | the mirror image for player 2 and a ball moving right |
| GameEngine.Scoring | frontend/src/components/pong/hooks/useGameEngine.ts:94-104 | at most one score rises, by one: player 2's exactly on a left exit, player 1's exactly on a right exit; reaching exactly WINNING_SCORE names the winner and leaves the ball, any other point serves again, no point changes nothing |
| GameEngine.Moved | frontend/src/components/pong/hooks/useGameEngine.ts:61-92 | after the physics both paddles lie in [0, height - PADDLE_HEIGHT] |
| GameEngine.Frame | frontend/src/components/pong/hooks/useGameEngine.ts:46-104 | nothing moves while paused or once a winner exists; otherwise both paddles end the frame in [0, height - PADDLE_HEIGHT] |
| GameEngine.FrameScoresAtMostOnce | frontend/src/components/pong/hooks/useGameEngine.ts:94-104 | a frame adds at most one point in total, and a new winner appears only with a score equal to WINNING_SCORE |
| GameEngine.Engine.constructor | frontend/src/components/pong/hooks/useGameEngine.ts:31 | no objects exist at mount |
| GameEngine.Engine.Initialize | frontend/src/components/pong/hooks/useGameEngine.ts:35-44 | the objects are created once, as `InitialObjects`; a second run changes nothing |
| GameEngine.Engine.ResetBall | frontend/src/components/pong/PongGame.tsx:40-52 | on existing objects the new objects are `Served` of the old ones; without objects nothing changes |
| GameEngine.Engine.GameLoop | frontend/src/components/pong/hooks/useGameEngine.ts:46-104 | with objects, the new objects and the reported score and winner are `Frame` of the old objects; without objects nothing changes |
| GameEngine.Engine.Advance | frontend/src/components/pong/hooks/useGameEngine.ts:61-92 | the objects become `Moved` of the old objects |
| GameEngine.Engine.MoveBallAndPaddles | frontend/src/components/pong/hooks/useGameEngine.ts:61-78 | the ball moves by its velocity, then the paddles move as `MovePaddles` says |
| GameEngine.Engine.BounceWalls | frontend/src/components/pong/hooks/useGameEngine.ts:80 | the ball becomes `WallBounce` of the old ball |
| GameEngine.Engine.MovePlayer1 | frontend/src/components/pong/hooks/useGameEngine.ts:64-66 | player 1's y becomes the clamped steered y; nothing else changes |
| GameEngine.Engine.MovePlayer2 | frontend/src/components/pong/hooks/useGameEngine.ts:68-78 | player 2's y becomes the clamped AI step (one-player) or the clamped steered y; nothing else changes |
| GameEngine.Engine.CheckPaddle1 | frontend/src/components/pong/hooks/useGameEngine.ts:82-86 | the ball becomes `HitLeft` of the old ball |
| GameEngine.Engine.CheckPaddle2 | frontend/src/components/pong/hooks/useGameEngine.ts:88-92 | the ball becomes `HitRight` of the old ball |
| GameEngine.Engine.CheckScore | frontend/src/components/pong/hooks/useGameEngine.ts:94-104 | the objects, score and winner become `Scoring` of the old objects |
| PongView.PaddleLength | frontend/src/views/Pong.ts:125 | the paddle length of the mode is positive and fits the canvas both ways |
| PongView.PaddleSpeed | frontend/src/views/Pong.ts:153 | the paddle speed of the mode is positive |
| PongView.AliveCount | frontend/src/views/Pong.ts:263 | at most four paddles are alive (the ball has no `isAlive` and is never counted) |
| PongView.FirstPositive | frontend/src/views/Pong.ts:265-266 | the winner is the first player, in the order 1 to 4, with lives left, and 0 exactly when nobody has any |
| PongView.CheckCollision | frontend/src/views/Pong.ts:27-37 | a dead paddle is never hit; a living one is hit exactly when some point of its rectangle lies strictly within BALL_RADIUS of the ball centre |
| PongView.BallReset | frontend/src/views/Pong.ts:89-119 | the ball goes to the centre, paddles 1 and 2 are vertically centred, paddles 3 and 4 horizontally centred only in the four-player mode; nothing else but the ball velocity changes |
| PongView.ServeKeepsSpeed | frontend/src/views/Pong.ts:105-118 | the serve leaves at exactly INITIAL_BALL_SPEED, whatever the random draws |
| PongView.ServeAngle | frontend/src/views/Pong.ts:104-115 | the serve angle lies in [0, 2π) in the four-player mode, and within 30 degrees of straight right (or of straight left, when the side draw exceeds 0.5) otherwise |
| PongView.Served | frontend/src/views/Pong.ts:117-118 | only the ball's velocity changes, and its speed is exactly INITIAL_BALL_SPEED |
| PongView.GameReset | frontend/src/views/Pong.ts:122-147 | back to the menu on an 800 by 800 (four players) or 800 by 600 canvas, three lives each or zero points, a ball stopped at the centre; velocities, keys, mode, difficulty and winner are kept |
| PongView.GameResetKeepsInv | frontend/src/views/Pong.ts:136-141 | after a reset all four paddles are alive, sized for the mode and inside the canvas along their edges |
| PongView.MovePaddles | frontend/src/views/Pong.ts:156-188 | each living human paddle takes a velocity of -speed, 0 or +speed from its keys; the AI paddle moves by at most the speed and never past its target; paddles 1 and 2 end inside the canvas height, paddles 3 and 4 inside the width in the four-player mode; dead paddles keep their velocity |
| PongView.SidesMoved | frontend/src/views/Pong.ts:156-175 | the same for paddles 1 and 2 alone, with paddles 3 and 4 untouched |
| PongView.EndsMoved | frontend/src/views/Pong.ts:177-188 | the same for paddles 3 and 4 alone, clamped into the canvas width |
| PongView.BounceVertical | frontend/src/views/Pong.ts:205-211 | a side paddle keeps the ball's y, bounds \|dx\| by the accelerated speed capped at MAX_BALL_SPEED, and puts the ball one radius beyond the face it leaves toward |
| PongView.BounceHorizontal | frontend/src/views/Pong.ts:212-218 | the mirror image for an end paddle, on y and dy |
| PongView.BounceClearsPaddle | frontend/src/views/Pong.ts:203-219 | after a bounce the ball no longer touches the paddle it bounced off |
| PongView.BounceVerticalKeepsSpeed | frontend/src/views/Pong.ts:205-210 | apart from the spin the paddle's velocity adds to dy, the new velocity has exactly the accelerated speed capped at MAX_BALL_SPEED |
| PongView.BounceHorizontalKeepsSpeed | frontend/src/views/Pong.ts:212-216 | the same for an end paddle, the spin added to dx |
| PongView.Bounce | frontend/src/views/Pong.ts:203-219 | a side paddle keeps the ball's y and an end paddle its x; the new velocity component across the paddle never exceeds MAX_BALL_SPEED |
| PongView.VerticalParts | frontend/src/views/Pong.ts:205-210 | the side bounce is the speed times the cosine and sine of the impact angle, the cosine in [-1, 1] |
| PongView.HorizontalParts | frontend/src/views/Pong.ts:212-216 | the same decomposition for an end bounce |
| PongView.HitOne | frontend/src/views/Pong.ts:193 | the ball changes only when it touches the paddle, and then no longer touches it |
| PongView.PaddleHits | frontend/src/views/Pong.ts:193-198 | only the ball changes, and only when it touches a paddle (paddles 3 and 4 only in the four-player mode) |
| PongView.ReflectDeadWalls | frontend/src/views/Pong.ts:224-227 | an edge whose player is dead reflects the ball and puts it one radius inside; a ball touching no dead edge is left as it was |
| PongView.GameEnded | frontend/src/views/Pong.ts:333-334 | the game is over and the winner is the one given; nothing else changes |
| PongView.LifeTaken | frontend/src/views/Pong.ts:253-271 | the player loses one life and dies exactly when none is left; the game ends exactly when at most one player is alive, naming the first player with lives; otherwise the phase is SCORED and the ball is served |
| PongView.LifeDeductedKeepsInv | frontend/src/views/Pong.ts:254-260 | taking one life from a living player keeps lives in [0, 3] and matched with `isAlive` |
| PongView.LifeDeducted | frontend/src/views/Pong.ts:254-260 | the phase becomes SCORED, the player loses exactly one life and dies exactly when it had at most one left; the other lives, the other paddles and the ball are untouched |
| PongView.ReflectKeepsInv | frontend/src/views/Pong.ts:224-227 | the dead-wall reflections keep the invariant |
| PongView.SameFramesPlaced | frontend/src/views/Pong.ts:96-101 | moving paddles only along their edges keeps the placement exactly when they stay inside the canvas |
| PongView.Scoring4P | frontend/src/views/Pong.ts:223-232 | four-player scoring changes neither the mode, the canvas, the keys, the velocities nor the difficulty |
| PongView.LifeLost | frontend/src/views/Pong.ts:229-232 | names at most one player, in the order 1 to 4 |
| PongView.AtMostOneLifeLost | frontend/src/views/Pong.ts:229-232 | when nobody crosses a living edge the score and phase stay; otherwise a living player loses exactly one life and nobody else any |
| PongView.Scoring4PTakes | frontend/src/views/Pong.ts:223-232 | four-player scoring is the dead-wall reflection followed by `LifeTaken` of the player `LifeLost` names, who is alive |
| PongView.ScoringClassic | frontend/src/views/Pong.ts:234-250 | a left exit gives player 2 a point, a right exit player 1, a ball on the canvas changes neither score nor phase; a game it ends has a score at WINNING_SCORE and the scorer as winner |
| PongView.WallsFlipped | frontend/src/views/Pong.ts:235 | only the ball's velocity may change, never its position |
| PongView.ClassicScored | frontend/src/views/Pong.ts:240-248 | the game ends, with the scorer as winner, exactly when a score reached WINNING_SCORE; otherwise the phase is SCORED and the ball is at the centre |
| PongView.ClassicGoal | frontend/src/views/Pong.ts:236-249 | a ball inside the canvas changes nothing; one past the left edge gives player 2 a point and one past the right edge player 1; after a point the game ends exactly when a score reached WINNING_SCORE, with the scorer as winner |
| PongView.WallFlipIgnoresDirection | frontend/src/views/Pong.ts:235 | a ball overlapping the top edge while already moving down is turned back up again |
| PongView.NextFrame | frontend/src/views/Pong.ts:149-201 | nothing changes outside PLAYING; otherwise every living human paddle's velocity is -speed, 0 or +speed and the mode, canvas, keys and difficulty are kept |
| PongView.BallStepped | frontend/src/views/Pong.ts:190-191 | the ball moves by its velocity and nothing else changes |
| PongView.MovedSteps | frontend/src/views/Pong.ts:156-198 | the frame before scoring is paddles, then ball, then paddle hits, in that order |
| PongView.NextFramePlays | frontend/src/views/Pong.ts:149-201 | a playing frame is the movement followed by the scoring of the mode |
| PongView.InvShaped | frontend/src/views/Pong.ts:122-147 | in every reachable state the canvas is wider and taller than the ball and every paddle has positive extent |
| PongView.ResetBallKeepsInv | frontend/src/views/Pong.ts:89-119 | recentring and serving keep the invariant |
| PongView.LoseLifeKeepsInv | frontend/src/views/Pong.ts:253-271 | losing a life keeps the invariant |
| PongView.MovePaddlesKeepsInv | frontend/src/views/Pong.ts:156-188 | the paddle moves keep the invariant |
| PongView.Scoring4PKeepsInv | frontend/src/views/Pong.ts:223-232 | four-player scoring keeps the invariant |
| PongView.ClassicScoredKeepsInv | frontend/src/views/Pong.ts:240-248 | classic scoring after a point keeps the invariant |
| PongView.ScoringClassicKeepsInv | frontend/src/views/Pong.ts:234-250 | classic scoring keeps the invariant |
| PongView.Moved | frontend/src/views/Pong.ts:156-198 | the movement keeps the canvas and paddle shape a frame needs |
| PongView.MovedKeepsInv | frontend/src/views/Pong.ts:156-198 | the movement keeps the invariant, the score and the mode |
| PongView.FrameKeepsInv | frontend/src/views/Pong.ts:149-201 | a frame keeps the invariant |
| PongView.FrameLosesAtMostOneLife | frontend/src/views/Pong.ts:229-232 | in the four-player mode each life counter stays or drops by one in a frame, and no two counters change |
| PongView.WinnerIsSurvivor | frontend/src/views/Pong.ts:263-266 | a four-player frame that ends the game leaves at most one player alive; the winner is that survivor, and 0 exactly when nobody is alive |
| PongView.LifeTakenWinner | frontend/src/views/Pong.ts:258-266 | the same for a single `loseLife` call |
| PongView.GameStarted | frontend/src/views/Pong.ts:321-331 | no change while PLAYING; otherwise PLAYING with a serve at exactly INITIAL_BALL_SPEED |
| PongView.StartButton | frontend/src/views/Pong.ts:379-384 | from the menu or after a game a fresh game starts at once with all four paddles alive and the mode's starting score; during play or a pause nothing changes |
| PongView.TimerFired | frontend/src/views/Pong.ts:247 | the one-second timer sets the phase to PLAYING and nothing else |
| PongView.Initial | frontend/src/views/Pong.ts:77-389 | the view starts in the menu, one-player mode, EASY, satisfying the invariant |
| PongView.StepPreservesInv | frontend/src/views/Pong.ts:149-389 | every event (frame, serve timer, start, mode or difficulty button, key down or up) keeps the invariant |
| PongView.Step | frontend/src/views/Pong.ts:347-387 | a key event changes only the pressed set, adding or removing the lower-cased key; the serve timer only resumes play; mode and difficulty buttons return to the menu; the start button starts a fresh game with everybody alive from the menu or after a game; a frame outside play and a start click while scored change nothing |
| PongView.PhaseKeysKeepInv | frontend/src/views/Pong.ts:347-348 | the phase and the pressed keys do not affect the invariant |
| PongView.StartKeepsInv | frontend/src/views/Pong.ts:379-384 | the start button keeps the invariant |
| PongView.Session.constructor | frontend/src/views/Pong.ts:77-389 | the state after set-up is `Initial` and satisfies the invariant |
| PongView.Session.ResetBall | frontend/src/views/Pong.ts:89-119 | the state becomes `BallReset` of the old state |
| PongView.Session.Recentre | frontend/src/views/Pong.ts:90-102 | the ball and the paddles are recentred as `Recentred` says |
| PongView.Session.Serve | frontend/src/views/Pong.ts:105-118 | the ball velocity becomes the serve for the draws |
| PongView.Session.ResetGame | frontend/src/views/Pong.ts:122-147 | the state becomes `GameReset` of the old state |
| PongView.Session.ResetCanvas | frontend/src/views/Pong.ts:123-137 | phase, canvas, score and ball reset as `CanvasReset` says |
| PongView.Session.PlacePaddles | frontend/src/views/Pong.ts:138-141 | four fresh paddles as `PaddlesPlaced` says |
| PongView.Session.Update | frontend/src/views/Pong.ts:149-201 | the state becomes `NextFrame` of the old state, and the invariant is kept |
| PongView.Session.PlayFrame | frontend/src/views/Pong.ts:153-200 | a playing frame is `NextFrame` of the old state |
| PongView.Session.MoveFrame | frontend/src/views/Pong.ts:153-198 | the state becomes `Moved` of the old state |
| PongView.Session.StepPaddlesAndBall | frontend/src/views/Pong.ts:153-191 | the paddles move, then the ball |
| PongView.Session.StepPaddles | frontend/src/views/Pong.ts:153-188 | the state becomes `MovePaddles` of the old state |
| PongView.Session.StepSidePaddles | frontend/src/views/Pong.ts:156-175 | the state becomes `SidesMoved` of the old state |
| PongView.Session.StepFirstPaddle | frontend/src/views/Pong.ts:156-159 | player 1 moves by the velocity its keys give, when alive |
| PongView.Session.StepSecondPaddle | frontend/src/views/Pong.ts:160-172 | player 2 takes the AI step in the one-player mode, its keys' velocity otherwise, when alive |
| PongView.Session.StepEndPaddles | frontend/src/views/Pong.ts:177-188 | the state becomes `EndsMoved` of the old state |
| PongView.Session.StepBall | frontend/src/views/Pong.ts:190-191 | the state becomes `BallStepped` of the old state |
| PongView.Session.HandlePaddleHits | frontend/src/views/Pong.ts:193-198 | the state becomes `PaddleHits` of the old state |
| PongView.Session.HandlePaddleBounce | frontend/src/views/Pong.ts:203-219 | only the ball changes, to `Bounce` of the old ball |
| PongView.Session.HandleScoring | frontend/src/views/Pong.ts:221-251 | the state becomes `Scoring4P` or `ScoringClassic` of the old state, by mode |
| PongView.Session.HandleScoring4P | frontend/src/views/Pong.ts:223-232 | the state becomes `Scoring4P` of the old state |
| PongView.Session.ReflectDeadWallsStep | frontend/src/views/Pong.ts:224-227 | the state becomes `ReflectDeadWalls` of the old state |
| PongView.Session.HandleScoringClassic | frontend/src/views/Pong.ts:234-250 | the state becomes `ScoringClassic` of the old state |
| PongView.Session.FlipAtWalls | frontend/src/views/Pong.ts:235 | the state becomes `WallsFlipped` of the old state |
| PongView.Session.ScoreGoal | frontend/src/views/Pong.ts:236-249 | the state becomes the classic goal test of the old state |
| PongView.Session.LoseLife | frontend/src/views/Pong.ts:253-271 | the state becomes `LifeTaken` of the old state |
| PongView.Session.Eliminate | frontend/src/views/Pong.ts:259 | only the given paddle changes, to dead |
| PongView.Session.StartGame | frontend/src/views/Pong.ts:321-331 | the state becomes `GameStarted` of the old state |
| PongView.Session.EndGame | frontend/src/views/Pong.ts:333-334 | the state becomes `GameEnded` of the old state |
| PongView.Session.StartButtonClick | frontend/src/views/Pong.ts:379-384 | the state becomes `StartButton` of the old state, and the invariant is kept |
| PongView.Session.ServeTimerFires | frontend/src/views/Pong.ts:247 | the phase becomes PLAYING, and the invariant is kept |
| PongView.Session.SelectMode | frontend/src/views/Pong.ts:350-363 | the mode changes and the game resets, and the invariant is kept |
| PongView.Session.SelectDifficulty | frontend/src/views/Pong.ts:365-377 | the difficulty changes and the game resets, and the invariant is kept |
| PongView.Session.HandleKeyDown | frontend/src/views/Pong.ts:347 | the lower-cased key joins the pressed set; the invariant is kept |
| PongView.Session.HandleKeyUp | frontend/src/views/Pong.ts:348 | the lower-cased key leaves the pressed set; the invariant is kept |
| ClassicPong.ServeBall | frontend/src/pong.ts:93-100 | the ball starts at the centre, moves horizontally at INITIAL_BALL_SPEED toward the receiving player (left exactly for player 1), with a vertical speed of at most a quarter of it |
| ClassicPong.GameReset | frontend/src/pong.ts:102-115 | back to the menu with both scores 0, the ball stopped at the centre and both paddles vertically centred at their columns; mode, difficulty, keys and velocities are kept |
| ClassicPong.HeldVelocity | frontend/src/pong.ts:124-126 | the velocity is +speed exactly when the down key is held (it wins over up), -speed exactly when only up is held, 0 when neither is |
| ClassicPong.MovePaddles | frontend/src/pong.ts:123-144 | player 1's new y is its old y plus its keys' velocity clamped into [0, height - PADDLE_HEIGHT], and so is player 2's in the two-player mode; otherwise player 2 takes the clamped AI step (velocity kept); both stay at their columns and nothing else changes |
| ClassicPong.PaddlesInTurn | frontend/src/pong.ts:123-144 | player 1 moves first, then player 2 |
| ClassicPong.MoveBall | frontend/src/pong.ts:146-153 | the ball moves by its velocity; dy is negated exactly when the ball is past the top edge moving up or past the bottom edge moving down, so it then points back into the canvas |
| ClassicPong.CheckCollision | frontend/src/pong.ts:28-35 | true exactly when some point of the paddle lies strictly within BALL_RADIUS of the ball centre |
| ClassicPong.Bounce | frontend/src/pong.ts:157-178 | the ball keeps its y, is put one radius outside the face it hit, and \|dx\| is at most the accelerated speed capped at MAX_BALL_SPEED |
| ClassicPong.BounceKeepsSpeed | frontend/src/pong.ts:163-173 | apart from the paddle's spin on dy, the new velocity has exactly the capped accelerated speed |
| ClassicPong.BounceParts | frontend/src/pong.ts:158-173 | the new dx is the speed times the cosine of the impact angle, turned; dy is the speed times its sine plus the spin |
| ClassicPong.HitIsNearSpan | frontend/src/pong.ts:28-35 | a ball that touches a paddle has its centre within BALL_RADIUS of the paddle's vertical span |
| ClassicPong.BounceReverses | frontend/src/pong.ts:157-167 | after a real hit the horizontal direction reverses, because the impact angle stays below a right angle |
| ClassicPong.BounceClearsPaddle | frontend/src/pong.ts:175-178 | after a bounce the ball no longer touches the paddle |
| ClassicPong.HitPaddle | frontend/src/pong.ts:155-179 | only the paddle the ball heads toward is tested; on a hit the ball is put outside its face with \|dx\| at most MAX_BALL_SPEED; nothing but the ball changes |
| ClassicPong.GameEnded | frontend/src/pong.ts:245-246 | the phase becomes GAME_OVER and nothing else changes |
| ClassicPong.AfterScore | frontend/src/pong.ts:191-202 | the game ends exactly when a score has reached WINNING_SCORE; otherwise the phase is SCORED and the ball is served from the centre away from the scorer; scores are kept |
| ClassicPong.Scoring | frontend/src/pong.ts:181-188 | a ball past the left edge gives player 2 one point, past the right edge player 1, otherwise nothing changes; a game this ends has exactly one score at WINNING_SCORE |
| ClassicPong.NextFrame | frontend/src/pong.ts:118-189 | nothing changes outside PLAYING; otherwise both paddles end on the canvas and player 1's velocity is its keys' velocity |
| ClassicPong.GameStarted | frontend/src/pong.ts:234-243 | no change while PLAYING; otherwise PLAYING with a serve at \|dx\| = INITIAL_BALL_SPEED, nothing but phase and ball changing |
| ClassicPong.StartButton | frontend/src/pong.ts:285-290 | from the menu or after a game, a game starts at 0-0; during play or a pause nothing changes |
| ClassicPong.TimerFired | frontend/src/pong.ts:200 | the timer sets the phase to PLAYING and nothing else |
| ClassicPong.Initial | frontend/src/pong.ts:77-296 | the engine starts in the menu satisfying the invariant |
| ClassicPong.StepPreservesInv | frontend/src/pong.ts:118-293 | every event keeps the paddles on the canvas at their columns, the velocities in {-speed, 0, +speed} and the scores non-negative |
| ClassicPong.Step | frontend/src/pong.ts:256-293 | a key event changes only the pressed set, adding or removing the lower-cased key; the serve timer only resumes play; mode and difficulty buttons return to the menu with zero scores or the new level; the start button starts at 0-0 from the menu or after a game; a frame outside play and a start click while scored change nothing |
| ClassicPong.Match.constructor | frontend/src/pong.ts:77-296 | the state after set-up is `Initial` |
| ClassicPong.Match.ResetBall | frontend/src/pong.ts:93-100 | only the ball changes, to `ServeBall` |
| ClassicPong.Match.ResetGame | frontend/src/pong.ts:102-115 | the state becomes `GameReset` of the old state |
| ClassicPong.Match.EndGame | frontend/src/pong.ts:245-246 | the state becomes `GameEnded` of the old state |
| ClassicPong.Match.HandleScore | frontend/src/pong.ts:191-202 | the state becomes `AfterScore` of the old state |
| ClassicPong.Match.Update | frontend/src/pong.ts:118-189 | the state becomes `NextFrame` of the old state and the invariant is kept |
| ClassicPong.Match.StepPaddles | frontend/src/pong.ts:123-144 | the state becomes `MovePaddles` of the old state |
| ClassicPong.Match.StepFirstPaddle | frontend/src/pong.ts:124-128 | player 1 takes its keys' velocity and moves, clamped |
| ClassicPong.Match.StepSecondPaddle | frontend/src/pong.ts:130-144 | player 2 moves by its keys or the AI, clamped |
| ClassicPong.Match.StepBall | frontend/src/pong.ts:146-153 | only the ball changes, to `MoveBall` of the old ball |
| ClassicPong.Match.StepPaddleHit | frontend/src/pong.ts:155-179 | the state becomes `HitPaddle` of the old state |
| ClassicPong.Match.StepScoring | frontend/src/pong.ts:181-188 | the state becomes `Scoring` of the old state |
| ClassicPong.Match.StartGame | frontend/src/pong.ts:234-243 | the state becomes `GameStarted` of the old state |
| ClassicPong.Match.StartButtonClick | frontend/src/pong.ts:285-290 | the state becomes `StartButton` of the old state and the invariant is kept |
| ClassicPong.Match.ServeTimerFires | frontend/src/pong.ts:200 | the phase becomes PLAYING and the invariant is kept |
| ClassicPong.Match.SelectMode | frontend/src/pong.ts:264-273 | the mode changes and the game resets; the invariant is kept |
| ClassicPong.Match.SelectDifficulty | frontend/src/pong.ts:275-283 | the difficulty changes and the game resets; the invariant is kept |
| ClassicPong.Match.HandleKeyDown | frontend/src/pong.ts:256-258 | the lower-cased key joins the pressed set; the invariant is kept |
| ClassicPong.Match.HandleKeyUp | frontend/src/pong.ts:259-261 | the lower-cased key leaves the pressed set; the invariant is kept |
| LegacyEngine.ErrorMargin | frontend/src/PongGame.tsx:60-64 | every dead zone is positive and at most 80 |
| LegacyEngine.MarginsNarrow | frontend/src/PongGame.tsx:60-64 | a harder level has a strictly narrower dead zone (80 > 50 > 0.1) |
| LegacyEngine.AIMove | frontend/src/PongGame.tsx:286-296 | the page's up/down branches are exactly the generic dead-zone step at speed 6 |
| LegacyEngine.WallBounced | frontend/src/PongGame.tsx:306 | only dy may change, keeping its size; it changes only when the ball overlaps the top or bottom edge, and then it is negated |
| LegacyEngine.Reversed | frontend/src/PongGame.tsx:310 | the horizontal speed changes sign and grows by ACCELERATION_FACTOR |
| LegacyEngine.HitFirst | frontend/src/PongGame.tsx:309-311 | a ball overlapping the first paddle column strictly within the paddle's span is reversed and sped up; any other ball is unchanged |
| LegacyEngine.HitSecond | frontend/src/PongGame.tsx:314-316 | the same at the second paddle's column |
| LegacyEngine.HitIgnoresDirection | frontend/src/PongGame.tsx:309-311 | a ball already moving away from the first paddle but still overlapping it is turned back toward the wall, faster |
| LegacyEngine.ServedBall | frontend/src/PongGame.tsx:106-117 | the ball returns to the centre, serves against its last horizontal direction, with \|dx\| = \|dy\| = INITIAL_BALL_SPEED |
| LegacyEngine.Created | frontend/src/PongGame.tsx:410-416 | the created ball is at the centre moving at (5, 5); the paddles sit at x = 0 and x = width - PADDLE_WIDTH, vertically centred |
| LegacyEngine.PaddlesMoved | frontend/src/PongGame.tsx:278-303 | player 1 by its keys, player 2 by the AI at speed 6 or its keys, each clamped into [0, height - PADDLE_HEIGHT]; the ball and the columns are kept |
| LegacyEngine.Moved | frontend/src/PongGame.tsx:274-316 | after the physics both paddles are on the canvas, at their columns |
| LegacyEngine.MovedUnfolds | frontend/src/PongGame.tsx:274-316 | the physics are ball move, paddle moves, wall test, then the two paddle tests, in that order |
| LegacyEngine.Scoring | frontend/src/PongGame.tsx:318-335 | at most one score rises, by one: player 2's exactly on a left exit, player 1's exactly on a right exit; a score of exactly 3 names the winner and leaves the ball; any other point serves again |
| LegacyEngine.Frame | frontend/src/PongGame.tsx:259-335 | nothing changes while paused, after a win or without a canvas; otherwise both paddles end on the canvas |
| LegacyEngine.FrameKeepsPaddleColumns | frontend/src/PongGame.tsx:259-335 | no frame moves a paddle sideways |
| LegacyEngine.GameObjects.constructor | frontend/src/PongGame.tsx:99 | no objects exist at mount |
| LegacyEngine.GameObjects.Initialize | frontend/src/PongGame.tsx:410-416 | the objects are created once, as `Created`, when a canvas exists; otherwise nothing changes |
| LegacyEngine.GameObjects.ResetBall | frontend/src/PongGame.tsx:106-117 | on existing objects only the ball changes, to `ServedBall`; without objects nothing changes |
| LegacyEngine.GameObjects.GameLoop | frontend/src/PongGame.tsx:259-335 | the new objects and the reported score and winner are `Frame` of the old objects |
| LegacyEngine.GameObjects.Advance | frontend/src/PongGame.tsx:274-316 | the objects become `Moved` of the old objects |
| LegacyEngine.GameObjects.MoveFirst | frontend/src/PongGame.tsx:279-281 | only player 1 moves, by its keys, clamped |
| LegacyEngine.GameObjects.Hit | frontend/src/PongGame.tsx:308-316 | only the ball changes, by the two paddle tests in order |
| LegacyEngine.GameObjects.MoveSecond | frontend/src/PongGame.tsx:283-303 | only player 2 moves, by the AI or its keys, clamped |
| LegacyEngine.GameObjects.CheckScore | frontend/src/PongGame.tsx:318-335 | the objects, score and winner become `Scoring` of the old objects |
| LegacyPage.GameReset | frontend/src/PongGame.tsx:120-130 | without a canvas nothing changes; otherwise score 0-0, no winner, unpaused, unstarted, no key held, and the ball served when the objects exist; nothing else changes |
| LegacyPage.PairUp | frontend/src/PongGame.tsx:167-171 | the loop builds exactly the pairing of the players: each even position against the next, or the filler |
| LegacyPage.ShuffledCopy | frontend/src/PongGame.tsx:163 | the copy shuffled in place is the Fisher-Yates shuffle of the roster, a permutation of it |
| LegacyPage.StartTournament | frontend/src/PongGame.tsx:156-178 | with fewer than two players nothing changes; otherwise the shuffled roster is paired, the index is 0, the tournament is in progress, the field size is remembered, the mode becomes TWO_PLAYERS and the game is reset |
| LegacyPage.StartTournamentIntended | frontend/src/PongGame.tsx:156-178 | the same, except that the mode is kept |
| LegacyPage.WinnersAfter | frontend/src/PongGame.tsx:196 | the round's winners never include the filler and are no more than the matches |
| LegacyPage.AdvanceTournament | frontend/src/PongGame.tsx:180-216 | the winner is recorded; then the next match of the round, or the one winner left is champion, or the winners are shuffled and paired into a new round; roster and mode are kept |
| LegacyPage.AddPlayerClick | frontend/src/PongGame.tsx:220-229 | the roster gains the trimmed name exactly when the roster rule allows it, and the input is cleared exactly then; nothing else changes |
| LegacyPage.ButtonClick | frontend/src/PongGame.tsx:231-253 | a won tournament match advances the named player (player 1 against the filler); a won other game resets; otherwise the game starts or its pause toggles |
| LegacyPage.TournamentStalls | frontend/src/PongGame.tsx:156-253 | as written, for any roster of two or more, a started tournament whose first match is won stays in progress after the button click, at index 0, with no result recorded |
| LegacyPage.TournamentAdvances | frontend/src/PongGame.tsx:156-253 | with the intended start in tournament mode, for any roster of two or more without the filler's name, the same click records the first match's winner and makes the next match current, or with two players crowns one of them |
| LegacyPage.FirstResultRecorded | frontend/src/PongGame.tsx:180-216 | recording a result at index 0 moves to index 1 when more matches remain, or with a single match finishes the tournament with that player as champion |
| LegacyPage.FirstResultRegistered | frontend/src/PongGame.tsx:231-245 | pairing a shuffled roster gives ceil(n/2) matches, and the first match's result, whichever player the winner names, is a registered player other than the filler |
| Bracket.Log2 | backend/controllers/Tournament.js:36 | `Math.log2` of a power of two is the exponent k with 2^k = n |
| Bracket.PowersOfTwo | backend/controllers/Tournament.js:15 | every 2^k passes the single-bit test and has logarithm k |
| Bracket.PowerOfTwoExactly | backend/controllers/Tournament.js:15 | the single-bit test accepts exactly the powers of two 2^k |
| Bracket.Accepts | backend/controllers/Tournament.js:15-17 | a list is accepted only when it is present, has at least four entries and a power-of-two length, so the bracket has at least two rounds |
| Bracket.AcceptsPowers | backend/controllers/Tournament.js:15-17 | every field of 2^k participants with k >= 2 is accepted |
| Bracket.Id | backend/controllers/Tournament.js:41-46 | match i of round r gets an id after every round created before it (rounds above r) and within its own block of 2^(r-1) ids |
| Bracket.MatchTable.constructor | backend/controllers/Tournament.js:46 | the match table starts empty, keyed by position |
| Bracket.MatchTable.Create | backend/controllers/Tournament.js:46-54 | a new record is appended under the next id, without a next match; the ids stay their positions plus one |
| Bracket.MatchTable.SetNext | backend/controllers/Tournament.js:61-63 | only the given record changes, and only its next match id |
| Bracket.CreateRound | backend/controllers/Tournament.js:42-56 | the 2^(r-1) matches of round r are appended under consecutive ids, pending, seated only in the placing round, not linked; earlier records are untouched |
| Bracket.LinkRound | backend/controllers/Tournament.js:59-65 | match k of the round created before now points at match k / 2 of the new round; no other record changes |
| Bracket.LinkStep | backend/controllers/Tournament.js:61-63 | one update extends the linked prefix by one match and touches nothing else |
| Bracket.BuildRound | backend/controllers/Tournament.js:42-66 | creating round r and linking the round before to it leaves every round from r up complete as `Expected` says, round r pending, and the table before the bracket untouched |
| Bracket.BuildBracket | backend/controllers/Tournament.js:34-68 | the loop from round log2(n) down to 1 appends n - 1 records, every match of every round as `Expected` says, the table before it untouched |
| Bracket.FinalCompletes | backend/controllers/Tournament.js:41-67 | the final, created last, needs no link, so the bracket is complete |
| Bracket.CreateKeeps | backend/controllers/Tournament.js:46 | appending a round keeps every record of the rounds created before |
| Bracket.LinkKeepsBelow | backend/controllers/Tournament.js:59-65 | linking touches neither the table before the bracket nor the rounds created earlier |
| Bracket.UnlinkedKept | backend/controllers/Tournament.js:59-65 | a record before the first linked one is unchanged by linking |
| Bracket.LinkCompletes | backend/controllers/Tournament.js:59-65 | linking completes the round created before |
| Bracket.LinkKeepsPending | backend/controllers/Tournament.js:59-66 | linking leaves the round just created, which becomes the last round, as it was |
| Bracket.CreateBracket | backend/controllers/Tournament.js:34-68 | as written: the bracket is complete with the players seated in round 1, the final |
| Bracket.CreateBracketIntended | backend/controllers/Tournament.js:34-68 | the bracket is complete with the players seated in round log2(n), the first round played |
| Bracket.CreateTournament | backend/controllers/Tournament.js:10-31 | as written: a rejected list answers 400 and writes nothing; an accepted one answers 201 after writing the complete bracket of the shuffled list (a permutation of it) with the players seated in round 1, the final |
| Bracket.CreateTournamentIntended | backend/controllers/Tournament.js:10-31 | the same with the intended bracket: the players seated in round log2(n), the first round played |
| Bracket.Locate | backend/controllers/Tournament.js:41-56 | every new record's position belongs to some match i of some round q |
| Bracket.RecordAt | backend/controllers/Tournament.js:46-54 | every new record is a pending match of the tournament and its game, in the round whose block holds it |
| Bracket.ExpectedInRound | backend/controllers/Tournament.js:46-54 | a match's record lies in the block of its own round and no other |
| Bracket.RoundsDisjoint | backend/controllers/Tournament.js:41-42 | the blocks of different rounds do not overlap |
| Bracket.BracketLayout | backend/controllers/Tournament.js:34-68 | the n - 1 new records are pending matches of the tournament, round r in one block of consecutive records, the first round played first and the final last |
| Bracket.FedByTwo | backend/controllers/Tournament.js:62 | a match of a later round is fed by exactly matches 2j and 2j + 1 of the round before, and both exist |
| Bracket.BracketEnds | backend/controllers/Tournament.js:59-66 | nothing feeds a match of the first round played, and the final feeds none |
| Bracket.AsWrittenSeatsTwo | backend/controllers/Tournament.js:52-53 | as written only the final is seated, with the first two participants; every other match has no players |
| Bracket.IntendedSeatsEveryone | backend/controllers/Tournament.js:52-53 | seating the first round played gives match i participants 2i and 2i + 1, each participant exactly once, and no later round is seated |
| LegacyPage.KeyPressed | frontend/src/PongGame.tsx:355-372 | a key press changes only the two movement cells: w/arrowup and s/arrowdown set player 1 to up and down, o and l set player 2 to up and down outside ONE_PLAYER mode; no other key changes a cell |
| LegacyPage.KeyReleased | frontend/src/PongGame.tsx:374-395 | a key release changes only the movement cells, only ever to null, and releasing a player's key while it moves that way does clear it |

## Left out

- Drawing: the canvas rendering, the DOM and JSX markup, the scoreboard, menus and winner messages are not modelled. They produce no game state.
- Animation: `requestAnimationFrame` and the loop's scheduling are not modelled. Each animation frame is one `Frame` event, or one `GameLoop` call.
- Timers: `setTimeout` is not modelled as time. The serve timers of frontend/src/views/Pong.ts and frontend/src/pong.ts become a `ServeTimer` event, and the 700 ms tic-tac-toe AI move becomes the `aiMovePending` flag with its firing event. The source never cancels these timers, so a timer event is accepted in every phase.
- Randomness: `Math.random` is not modelled. Its values are parameters: reals in [0, 1) for serves, and draws `js[k] <= k` for the Fisher–Yates shuffle.
- Floating-point library: `Math.sqrt`, `Math.cos`, `Math.sin` and `Math.PI` are not defined. They are the `MathLib` parameter, and only the laws in `PongCommon.Sound` are assumed of it.
- Floating point: numbers are exact reals, so rounding is not modelled.
- Undefined constants: frontend/src/views/Pong.ts imports PADDLE_THICKNESS, PADDLE_LENGTH_CLASSIC, PADDLE_LENGTH_4P, PADDLE_SPEED_CLASSIC, PADDLE_SPEED_4P, MAX_BALL_SPEED and PADDLE_INFLUENCE_FACTOR from frontend/src/utils/constants.ts, and frontend/src/pong.ts imports MAX_BALL_SPEED and PADDLE_INFLUENCE_FACTOR from it, but that file defines none of them. They are the `Tuning` parameters of `PongView` and `ClassicPong`, and only positivity and paddles fitting the canvas are assumed.
- PongView.Bounce: MAX_BOUNCE_ANGLE, which frontend/src/utils/constants.ts:12 defines as π/4, stays the `Tuning` field `maxBounceAngle` in `PongView`, assumed only positive, so its contracts hold for π/4 among other values; `ClassicPong` uses π/4 itself (`quarterPi`).
- Unshown constants, the React component: frontend/src/components/pong/utils/constants.ts is not part of this model. The constants it gives the hook and the component are the `GameEngine.Config` parameter, and only positivity is assumed. Its `shuffleArray`, imported at frontend/src/components/pong/PongGame.tsx:6, is taken to be the Fisher–Yates shuffle of frontend/src/utils/constants.ts:22-28, so the component's shuffles are `Constants.Shuffled`.
- React mechanics: re-rendering, effects and closures that outlive their render are not modelled. Each handler reads the state of one render, and the updates it issues are applied in order.
- Back-end I/O: the database connection, `async`/`await` and the 500 error path are not modelled. Neither are the tournament and match queries other than the bracket insertions. The new tournament's id is the `tournamentId` parameter.
- Back-end shuffle: the `sort(() => Math.random() - 0.5)` shuffle is not modelled as an algorithm. It stands for any permutation of the participants, passed as `shuffled`.
- Other back-end controllers, authentication, the music player, the 3D Pong and the internationalisation files are not part of this model.
- PongApp.StepKeepsWellformed: assumes that no player registers under the filler's name BYE, which the source does not check.
- LegacyEngine.GameObjects.GameLoop: requires that the objects were created, or that the game is paused or won; the source would throw on the null objects in the remaining case, and that crash is not modelled.
- PongApp.ButtonClick: requires a current match when a tournament game has a winner; the source would throw reading `p1` of an undefined match, and that crash is not modelled. `PongApp.Enabled` states the same condition for `PongApp.Step`.
- LegacyPage.ButtonClick: requires the same current match, with the same crash left out.

## Findings

| source | as written | input that shows it | evidently intended | confidence | as-written member | corrected member |
|---|---|---|---|---|---|---|
| backend/controllers/Tournament.js:52-53 | players are seated only in the matches of round 1, which is the final, so only the first two participants are seated | any field of 4 participants: the two first-round matches (round 2) have no players | seat the participants in round log2(n), the first round played, two per match | not executed | Bracket.AsWrittenSeatsTwo | Bracket.IntendedSeatsEveryone |
| frontend/src/components/pong/PongGame.tsx:95 | `startTournament` switches the game mode to TWO_PLAYERS, so the tournament branch of the button handler never runs | two registered players, tournament started, first match won, button clicked: the result is never recorded | keep the TOURNAMENT mode so that the finished match advances the tournament | not executed | PongApp.StartedTournamentNeverAdvances, PongApp.AsWrittenNothingRecorded | PongApp.IntendedTournamentAdvances |
| frontend/src/PongGame.tsx:176 | the same switch to TWO_PLAYERS in the first React page's `startTournament` | any two or more registered players, tournament started, the first match won, button clicked: still in progress at index 0 with nothing recorded | keep the TOURNAMENT mode | not executed | LegacyPage.TournamentStalls | LegacyPage.TournamentAdvances |
