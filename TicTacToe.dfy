/** The tic-tac-toe view: a board of nine cells, the player to move, an
    "active" flag, the two modes (two humans, or a human against the rule
    based AI) and the AI's pending 700 ms move. The transitions are first
    given as functions on a `Game` value; the class `Board` performs them in
    place and is proved to agree with them. */
module TicTacToe {

  datatype Mode = HvsH | HvsAI
  datatype Player = X | O
  datatype Cell = Empty | Marked(player: Player)

  /** The whole state of the view. `aiMovePending` stands for the armed
      `setTimeout(makeAIMove, 700)`. */
  datatype Game = Game(mode: Mode, isGameActive: bool, currentPlayer: Player,
                       board: seq<Cell>, aiMovePending: bool)

  function Other(p: Player): (q: Player)
    ensures q != p
  {
    if p == X then O else X
  }

  /** Entry `k` of `winningConditions`: three rows, three columns, two diagonals. */
  function WinningCondition(k: nat): (l: (nat, nat, nat))
    requires k < 8
    ensures l.0 < l.1 < l.2 < 9
  {
    if k == 0 then (0, 1, 2) else if k == 1 then (3, 4, 5) else if k == 2 then (6, 7, 8)
    else if k == 3 then (0, 3, 6) else if k == 4 then (1, 4, 7) else if k == 5 then (2, 5, 8)
    else if k == 6 then (0, 4, 8) else (2, 4, 6)
  }

  predicate InLine(i: nat, k: nat)
    requires k < 8
  {
    var l := WinningCondition(k);
    i == l.0 || i == l.1 || i == l.2
  }

  /** Line `k` is filled with `p`'s mark. */
  predicate LineOf(b: seq<Cell>, p: Player, k: nat)
    requires |b| == 9 && k < 8
  {
    var l := WinningCondition(k);
    b[l.0] == Marked(p) && b[l.1] == Marked(p) && b[l.2] == Marked(p)
  }

  /** Reference meaning of a win: some line filled with `p`'s mark. */
  predicate Wins(b: seq<Cell>, p: Player)
    requires |b| == 9
  {
    exists k :: 0 <= k < 8 && LineOf(b, p, k)
  }

  /** Line `k` holds three equal non-empty cells, the test of the validation loop. */
  predicate LineWon(b: seq<Cell>, k: nat)
    requires |b| == 9 && k < 8
  {
    var l := WinningCondition(k);
    b[l.0] != Empty && b[l.0] == b[l.1] && b[l.1] == b[l.2]
  }

  predicate RoundWon(b: seq<Cell>)
    requires |b| == 9
  {
    exists k :: 0 <= k < 8 && LineWon(b, k)
  }

  predicate IsFull(b: seq<Cell>)
  {
    Empty !in b
  }

  /** `some` over the lines from `k` on. */
  function AnyLineFrom(b: seq<Cell>, p: Player, k: nat): (r: bool)
    requires |b| == 9 && k <= 8
    ensures r <==> exists j :: k <= j < 8 && LineOf(b, p, j)
    decreases 8 - k
  {
    k < 8 && (LineOf(b, p, k) || AnyLineFrom(b, p, k + 1))
  }

  /** `checkWinner`: true exactly when some line is filled with `p`'s mark. */
  function CheckWinner(b: seq<Cell>, p: Player): (r: bool)
    requires |b| == 9
    ensures r <==> Wins(b, p)
  {
    AnyLineFrom(b, p, 0)
  }

  /** A completed line of either mark is a win for the owner of that mark. */
  lemma RoundWonIffSomeoneWins(b: seq<Cell>)
    requires |b| == 9
    ensures RoundWon(b) <==> Wins(b, X) || Wins(b, O)
  {
    if RoundWon(b) {
      var k :| 0 <= k < 8 && LineWon(b, k);
      var c := b[WinningCondition(k).0];
      if c.player == X {
        assert LineOf(b, X, k);
      } else {
        assert LineOf(b, O, k);
      }
    }
    if Wins(b, X) {
      var k :| 0 <= k < 8 && LineOf(b, X, k);
      assert LineWon(b, k);
    }
    if Wins(b, O) {
      var k :| 0 <= k < 8 && LineOf(b, O, k);
      assert LineWon(b, k);
    }
  }

  /** Placing one mark on a board without a completed line can only
      complete a line of that mark. */
  lemma WinnerIsMover(b: seq<Cell>, i: nat, p: Player)
    requires |b| == 9 && i < 9 && !RoundWon(b)
    ensures RoundWon(b[i := Marked(p)]) ==> Wins(b[i := Marked(p)], p)
  {
    var b' := b[i := Marked(p)];
    if RoundWon(b') {
      var k :| 0 <= k < 8 && LineWon(b', k);
      if !InLine(i, k) {
        assert LineWon(b, k);
        assert false;
      }
      assert LineOf(b', p, k);
    }
  }

  /** Writing a mark into an empty cell keeps every completed line. */
  lemma MarkKeepsLines(b: seq<Cell>, i: nat, q: Player, p: Player)
    requires |b| == 9 && i < 9 && b[i] == Empty && Wins(b, p)
    ensures Wins(b[i := Marked(q)], p)
  {
    var k :| 0 <= k < 8 && LineOf(b, p, k);
    assert LineOf(b[i := Marked(q)], p, k);
  }

  /** `handlePlayerChange`: the turn passes, and in the AI mode, with the
      game still active, the AI's move is scheduled when it becomes O's turn. */
  function PlayerChange(g: Game): (r: Game)
    ensures r.currentPlayer == Other(g.currentPlayer)
    ensures r.aiMovePending <==>
      g.aiMovePending || (g.mode == HvsAI && r.currentPlayer == O && g.isGameActive)
    ensures r.board == g.board && r.isGameActive == g.isGameActive && r.mode == g.mode
  {
    var next := Other(g.currentPlayer);
    g.(currentPlayer := next,
       aiMovePending := g.aiMovePending || (g.mode == HvsAI && next == O && g.isGameActive))
  }

  /** `handleResultValidation`: a completed line ends the game with the
      player to move as winner; otherwise a full board ends it as a draw;
      otherwise the turn passes. */
  function ResultValidation(g: Game): (r: Game)
    requires |g.board| == 9
    ensures r.board == g.board && r.mode == g.mode
    ensures RoundWon(g.board) || IsFull(g.board) ==>
      !r.isGameActive && r.currentPlayer == g.currentPlayer && r.aiMovePending == g.aiMovePending
    ensures !RoundWon(g.board) && !IsFull(g.board) ==> r == PlayerChange(g)
  {
    if RoundWon(g.board) then g.(isGameActive := false)
    else if IsFull(g.board) then g.(isGameActive := false)
    else PlayerChange(g)
  }

  /** `handleCellPlayed`: the player to move marks cell `i`, then the
      result is validated. Marks already on the board stay. */
  function CellPlayed(g: Game, i: nat): (r: Game)
    requires |g.board| == 9 && i < 9
    ensures |r.board| == 9 && r.board[i] == Marked(g.currentPlayer)
    ensures forall k :: 0 <= k < 9 && k != i ==> r.board[k] == g.board[k]
  {
    ResultValidation(g.(board := g.board[i := Marked(g.currentPlayer)]))
  }

  /** `handleCellClick`: ignored on an occupied cell, in a finished game,
      and on O's turn against the AI; otherwise the cell is played. */
  function CellClick(g: Game, i: nat): (r: Game)
    requires |g.board| == 9 && i < 9
    ensures g.board[i] != Empty || !g.isGameActive || (g.mode == HvsAI && g.currentPlayer == O) ==> r == g
    ensures g.board[i] == Empty && g.isGameActive && !(g.mode == HvsAI && g.currentPlayer == O) ==>
      r.board == g.board[i := Marked(g.currentPlayer)]
    ensures forall k :: 0 <= k < 9 && g.board[k] != Empty ==> r.board[k] == g.board[k]
  {
    if g.board[i] != Empty || !g.isGameActive then g
    else if g.mode == HvsAI && g.currentPlayer == O then g
    else CellPlayed(g, i)
  }

  function EmptyBoard(): (b: seq<Cell>)
    ensures |b| == 9 && forall k :: 0 <= k < 9 ==> b[k] == Empty
  {
    seq(9, _ => Empty)
  }

  /** `handleRestartGame`: nine empty cells, X to move, game active. The
      pending AI timer is not cancelled. */
  function Restart(g: Game): (r: Game)
    ensures r.board == EmptyBoard() && r.currentPlayer == X && r.isGameActive
    ensures r.mode == g.mode && r.aiMovePending == g.aiMovePending
  {
    g.(isGameActive := true, currentPlayer := X, board := EmptyBoard())
  }

  /** A mode button: set the mode, then restart. */
  function SetMode(g: Game, m: Mode): (r: Game)
    ensures r.mode == m && r.board == EmptyBoard() && r.currentPlayer == X && r.isGameActive
  {
    Restart(g.(mode := m))
  }

  function Initial(): (g: Game)
    ensures g.mode == HvsH && g.isGameActive && g.currentPlayer == X && g.board == EmptyBoard()
    ensures !g.aiMovePending
  {
    Game(HvsH, true, X, EmptyBoard(), false)
  }

  const CORNERS: seq<nat> := [0, 2, 6, 8]
  const SIDES: seq<nat> := [1, 3, 5, 7]

  /** `candidates.filter(i => gameState[i] === "")`. */
  function EmptyAmong(b: seq<Cell>, cs: seq<nat>): (r: seq<nat>)
    requires |b| == 9 && forall x :: x in cs ==> x < 9
    ensures forall x :: x in r ==> x in cs && b[x] == Empty
    ensures forall x :: x in cs && b[x] == Empty ==> x in r
  {
    if cs == [] then []
    else
      assert cs[0] in cs && forall x :: x in cs[1..] ==> x in cs;
      (if b[cs[0]] == Empty then [cs[0]] else []) + EmptyAmong(b, cs[1..])
  }

  /** `Math.floor(Math.random() * n)` for a draw `r` in [0, 1). */
  function Pick(r: real, n: nat): (k: nat)
    requires 0.0 <= r < 1.0 && n > 0
    ensures k < n
  {
    var x := r * n as real;
    assert 0.0 <= x < n as real;
    x.Floor
  }

  /** Playing `p` into the empty cell `i` completes a line of `p`. */
  predicate Completes(b: seq<Cell>, p: Player, i: nat)
    requires |b| == 9 && i < 9
  {
    b[i] == Empty && Wins(b[i := Marked(p)], p)
  }

  /** The first cell from `from` on that completes a line of `p`, or -1. */
  function FirstCompleting(b: seq<Cell>, p: Player, from: nat): (r: int)
    requires |b| == 9 && from <= 9
    ensures r == -1 || (from <= r < 9 && Completes(b, p, r))
    ensures r == -1 ==> forall i :: from <= i < 9 ==> !Completes(b, p, i)
    ensures r != -1 ==> forall i :: from <= i < r ==> !Completes(b, p, i)
    decreases 9 - from
  {
    if from == 9 then -1
    else if b[from] == Empty && CheckWinner(b[from := Marked(p)], p) then from
    else FirstCompleting(b, p, from + 1)
  }

  predicate CanComplete(b: seq<Cell>, p: Player)
    requires |b| == 9
  {
    exists i :: 0 <= i < 9 && Completes(b, p, i)
  }

  /** The last three steps of `findBestMove`: the centre, then an empty
      corner, then an empty side, then -1. */
  function Positional(b: seq<Cell>, cornerDraw: real, sideDraw: real): (m: int)
    requires |b| == 9 && 0.0 <= cornerDraw < 1.0 && 0.0 <= sideDraw < 1.0
    ensures m == -1 <==> IsFull(b)
    ensures m != -1 ==> 0 <= m < 9 && b[m] == Empty
    ensures b[4] == Empty ==> m == 4
    ensures b[4] != Empty && (exists c :: c in CORNERS && b[c] == Empty) ==> m in CORNERS
    ensures b[4] != Empty && (forall c :: c in CORNERS ==> b[c] != Empty) && !IsFull(b) ==>
      m in SIDES
  {
    var ec := EmptyAmong(b, CORNERS);
    var es := EmptyAmong(b, SIDES);
    if b[4] == Empty then 4
    else if |ec| > 0 then
      var m := ec[Pick(cornerDraw, |ec|)];
      assert m in ec && b[m] == Empty;
      m
    else if |es| > 0 then
      var m := es[Pick(sideDraw, |es|)];
      assert m in es && b[m] == Empty;
      m
    else
      assert IsFull(b) by {
        assert forall i :: 0 <= i < 9 ==> i == 4 || i in CORNERS || i in SIDES;
      }
      -1
  }

  /** `findBestMove`, with the two `Math.random` draws as parameters. In
      order of priority: a move that wins for O, a move that blocks X, the
      centre, an empty corner, an empty side; -1 only on a full board. */
  function BestMove(b: seq<Cell>, cornerDraw: real, sideDraw: real): (m: int)
    requires |b| == 9 && 0.0 <= cornerDraw < 1.0 && 0.0 <= sideDraw < 1.0
    ensures m == -1 <==> IsFull(b)
    ensures m != -1 ==> 0 <= m < 9 && b[m] == Empty
    ensures CanComplete(b, O) ==> Completes(b, O, m)
    ensures !CanComplete(b, O) && CanComplete(b, X) ==> Completes(b, X, m)
    ensures !CanComplete(b, O) && !CanComplete(b, X) ==> m == Positional(b, cornerDraw, sideDraw)
  {
    var win := FirstCompleting(b, O, 0);
    var block := FirstCompleting(b, X, 0);
    if win != -1 then win
    else if block != -1 then block
    else Positional(b, cornerDraw, sideDraw)
  }

  /** `makeAIMove` as the timer fires it: the pending flag drops, and the
      chosen cell, if any, is played for whoever is to move. */
  function AIMove(g: Game, cornerDraw: real, sideDraw: real): (r: Game)
    requires |g.board| == 9 && 0.0 <= cornerDraw < 1.0 && 0.0 <= sideDraw < 1.0
    ensures |r.board| == 9
    ensures IsFull(g.board) ==> r == g.(aiMovePending := false)
    ensures !IsFull(g.board) ==>
      var m := BestMove(g.board, cornerDraw, sideDraw);
      0 <= m < 9 && g.board[m] == Empty && r.board == g.board[m := Marked(g.currentPlayer)]
    ensures !IsFull(g.board) && (RoundWon(r.board) || IsFull(r.board)) ==>
      !r.isGameActive && r.currentPlayer == g.currentPlayer
    ensures !IsFull(g.board) && !RoundWon(r.board) && !IsFull(r.board) ==>
      r.isGameActive == g.isGameActive && r.currentPlayer == Other(g.currentPlayer)
    ensures forall k :: 0 <= k < 9 && g.board[k] != Empty ==> r.board[k] == g.board[k]
  {
    var m := BestMove(g.board, cornerDraw, sideDraw);
    var g' := g.(aiMovePending := false);
    if m != -1 then CellPlayed(g', m) else g'
  }

  /** What holds of every state the view reaches: the game is active exactly
      while no line is complete and some cell is empty, and a completed line
      belongs to the player named as winner (the one still "to move"). */
  predicate Consistent(g: Game)
  {
    |g.board| == 9 &&
    (RoundWon(g.board) ==> Wins(g.board, g.currentPlayer)) &&
    (g.isGameActive <==> !RoundWon(g.board) && !IsFull(g.board))
  }

  lemma EmptyBoardNotWon()
    ensures !RoundWon(EmptyBoard()) && !IsFull(EmptyBoard())
  {
    assert EmptyBoard()[0] == Empty;
  }

  lemma {:induction false} InitialConsistent()
    ensures Consistent(Initial())
  {
    EmptyBoardNotWon();
  }

  lemma {:induction false} SetModeConsistent(g: Game, m: Mode)
    ensures Consistent(SetMode(g, m))
  {
    EmptyBoardNotWon();
  }

  /** Playing a cell for the player to move keeps the state consistent. */
  lemma {:induction false} CellPlayedConsistent(g: Game, i: nat)
    requires Consistent(g) && i < 9 && g.board[i] == Empty
    ensures Consistent(CellPlayed(g, i))
  {
    var p := g.currentPlayer;
    var b' := g.board[i := Marked(p)];
    if RoundWon(g.board) {
      MarkKeepsLines(g.board, i, p, p);
      RoundWonIffSomeoneWins(b');
    } else {
      WinnerIsMover(g.board, i, p);
    }
  }

  /** A click keeps the state consistent; in particular a click that ends
      the game with a completed line names the clicking player as winner. */
  lemma {:induction false} CellClickConsistent(g: Game, i: nat)
    requires Consistent(g) && i < 9
    ensures Consistent(CellClick(g, i))
    ensures var r := CellClick(g, i);
      g.isGameActive && !r.isGameActive && RoundWon(r.board) ==> Wins(r.board, g.currentPlayer)
  {
    if g.board[i] == Empty && g.isGameActive && !(g.mode == HvsAI && g.currentPlayer == O) {
      CellPlayedConsistent(g, i);
    }
  }

  /** The AI's move keeps the state consistent, whenever the timer fires. */
  lemma {:induction false} AIMoveConsistent(g: Game, cornerDraw: real, sideDraw: real)
    requires Consistent(g) && 0.0 <= cornerDraw < 1.0 && 0.0 <= sideDraw < 1.0
    ensures Consistent(AIMove(g, cornerDraw, sideDraw))
  {
    var m := BestMove(g.board, cornerDraw, sideDraw);
    if m != -1 {
      CellPlayedConsistent(g.(aiMovePending := false), m);
    }
  }

  /** The pending AI move is not cancelled by a mode change: after X moves
      against the AI and the players switch to two humans before the timer
      fires, the AI's choice is played with X's mark. */
  lemma StaleAIMoveMarksForX(cornerDraw: real, sideDraw: real)
    requires 0.0 <= cornerDraw < 1.0 && 0.0 <= sideDraw < 1.0
    ensures var g1 := CellClick(SetMode(Initial(), HvsAI), 0);
      var g2 := SetMode(g1, HvsH);
      g1.aiMovePending && AIMove(g2, cornerDraw, sideDraw).board[4] == Marked(X)
  {
    var g0 := SetMode(Initial(), HvsAI);
    EmptyBoardNotWon();
    var g1 := CellClick(g0, 0);
    var b1 := EmptyBoard()[0 := Marked(X)];
    assert g1.board == b1;
    assert !RoundWon(b1) by {
      WinnerIsMover(EmptyBoard(), 0, X);
    }
    assert b1[1] == Empty;
    assert g1.currentPlayer == O && g1.aiMovePending;
    var g2 := SetMode(g1, HvsH);
    var e := EmptyBoard();
    assert !CanComplete(e, O) && !CanComplete(e, X) by {
      forall i, p | 0 <= i < 9 ensures !Completes(e, p, i) {
        WinnerIsMover(e, i, p);
      }
    }
    assert BestMove(e, cornerDraw, sideDraw) == 4;
  }

  /** The view's state, updated in place. */
  class Board {
    var mode: Mode
    var isGameActive: bool
    var currentPlayer: Player
    var gameState: array<Cell>
    var aiMovePending: bool

    function State(): Game
      reads this, gameState
    {
      Game(mode, isGameActive, currentPlayer, gameState[..], aiMovePending)
    }

    predicate Valid()
      reads this, gameState
    {
      gameState.Length == 9 && Consistent(State())
    }

    constructor ()
      ensures Valid() && State() == Initial()
    {
      mode, isGameActive, currentPlayer, aiMovePending := HvsH, true, X, false;
      gameState := new Cell[9](_ => Empty);
      new;
      assert gameState[..] == EmptyBoard();
      InitialConsistent();
    }

    method HandlePlayerChange()
      modifies this
      ensures gameState == old(gameState)
      ensures State() == PlayerChange(old(State()))
    {
      currentPlayer := Other(currentPlayer);
      if mode == HvsAI && currentPlayer == O && isGameActive {
        aiMovePending := true;
      }
    }

    /** The validation loop: lines with an empty cell are skipped, the
        first line of three equal marks stops it. */
    method HandleResultValidation()
      requires gameState.Length == 9
      modifies this
      ensures gameState == old(gameState)
      ensures State() == ResultValidation(old(State()))
    {
      var roundWon := false;
      var k := 0;
      while k < 8
        invariant 0 <= k <= 8
        invariant forall j :: 0 <= j < k ==> !LineWon(gameState[..], j)
      {
        var l := WinningCondition(k);
        var a, b, c := gameState[l.0], gameState[l.1], gameState[l.2];
        if a == Empty || b == Empty || c == Empty {
          k := k + 1;
          continue;
        }
        if a == b && b == c {
          assert LineWon(gameState[..], k);
          roundWon := true;
          break;
        }
        k := k + 1;
      }
      if roundWon {
        isGameActive := false;
        return;
      }
      if Empty !in gameState[..] {
        isGameActive := false;
        return;
      }
      HandlePlayerChange();
    }

    method HandleCellPlayed(i: nat)
      requires gameState.Length == 9 && i < 9
      modifies this, gameState
      ensures gameState == old(gameState)
      ensures State() == CellPlayed(old(State()), i)
    {
      gameState[i] := Marked(currentPlayer);
      HandleResultValidation();
    }

    method HandleCellClick(i: nat)
      requires Valid() && i < 9
      modifies this, gameState
      ensures gameState == old(gameState)
      ensures Valid() && State() == CellClick(old(State()), i)
    {
      ghost var g := State();
      CellClickConsistent(g, i);
      if gameState[i] != Empty || !isGameActive {
        return;
      }
      if mode == HvsAI && currentPlayer == O {
        return;
      }
      HandleCellPlayed(i);
    }

    /** `findBestMove` on the array: the trial marks are written and
        removed again, so the board ends as it began. */
    method FindBestMove(cornerDraw: real, sideDraw: real) returns (m: int)
      requires gameState.Length == 9 && 0.0 <= cornerDraw < 1.0 && 0.0 <= sideDraw < 1.0
      modifies gameState
      ensures gameState[..] == old(gameState[..])
      ensures m == BestMove(old(gameState[..]), cornerDraw, sideDraw)
    {
      ghost var b0 := gameState[..];
      var i := 0;
      while i < 9
        invariant 0 <= i <= 9 && gameState[..] == b0
        invariant FirstCompleting(b0, O, i) == FirstCompleting(b0, O, 0)
      {
        if gameState[i] == Empty {
          gameState[i] := Marked(O);
          assert gameState[..] == b0[i := Marked(O)];
          var won := CheckWinner(gameState[..], O);
          gameState[i] := Empty;
          assert gameState[..] == b0;
          if won {
            return i;
          }
        }
        i := i + 1;
      }
      i := 0;
      while i < 9
        invariant 0 <= i <= 9 && gameState[..] == b0
        invariant FirstCompleting(b0, X, i) == FirstCompleting(b0, X, 0)
      {
        if gameState[i] == Empty {
          gameState[i] := Marked(X);
          assert gameState[..] == b0[i := Marked(X)];
          var won := CheckWinner(gameState[..], X);
          gameState[i] := Empty;
          assert gameState[..] == b0;
          if won {
            return i;
          }
        }
        i := i + 1;
      }
      if gameState[4] == Empty {
        return 4;
      }
      var emptyCorners := EmptyAmong(gameState[..], CORNERS);
      if |emptyCorners| > 0 {
        return emptyCorners[Pick(cornerDraw, |emptyCorners|)];
      }
      var emptySides := EmptyAmong(gameState[..], SIDES);
      if |emptySides| > 0 {
        return emptySides[Pick(sideDraw, |emptySides|)];
      }
      return -1;
    }

    /** The 700 ms timer firing. */
    method MakeAIMove(cornerDraw: real, sideDraw: real)
      requires Valid() && 0.0 <= cornerDraw < 1.0 && 0.0 <= sideDraw < 1.0
      modifies this, gameState
      ensures gameState == old(gameState)
      ensures Valid() && State() == AIMove(old(State()), cornerDraw, sideDraw)
    {
      ghost var g := State();
      AIMoveConsistent(g, cornerDraw, sideDraw);
      var bestMove := FindBestMove(cornerDraw, sideDraw);
      aiMovePending := false;
      if bestMove != -1 {
        HandleCellPlayed(bestMove);
      }
    }

    /** `handleRestartGame`: a fresh board of nine empty cells. */
    method HandleRestartGame()
      modifies this
      ensures fresh(gameState)
      ensures gameState.Length == 9 && State() == Restart(old(State()))
    {
      isGameActive := true;
      currentPlayer := X;
      gameState := new Cell[9](_ => Empty);
      assert gameState[..] == EmptyBoard();
    }

    /** A mode button. */
    method SelectMode(m: Mode)
      modifies this
      ensures fresh(gameState)
      ensures Valid() && State() == SetMode(old(State()), m)
    {
      mode := m;
      HandleRestartGame();
      SetModeConsistent(old(State()), m);
    }
  }
}
