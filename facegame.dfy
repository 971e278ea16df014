/**
 * The game logic around the board of face values: `addRandomTile` of dist/main.js (always a 2) and
 * of src/game/game.ts (a 2 or a 4), and the game state of dist/main.js with `resetState`.
 * `initializeBoard` is `FaceBoard.EmptyBoard`. `Math.random()` is a parameter in [0, 1).
 */
module FaceGame {
  import opened FaceBoard
  import opened FaceEvaluation
  import Search

  /** The index `Math.floor(random * n)`, which lies in [0, n) for random in [0, 1). */
  function Chosen(random: real, n: int): (k: int)
    requires 0.0 <= random < 1.0 && n > 0
    ensures 0 <= k < n
  {
    assert random * n as real < n as real;
    (random * n as real).Floor
  }

  /** The board after placing tile v in the k-th empty cell: that cell was empty and is the only one changed. */
  lemma {:induction false} PlacedEmpty(board: Grid, k: int, v: int)
    requires IsBoard(board) && 0 <= k < |EmptyCells(board)|
    ensures var cell := EmptyCells(board)[k];
      && 0 <= cell.r < 4 && 0 <= cell.c < 4 && board[cell.r][cell.c] == 0
      && var h := Placed(board, cell, v);
      v != 0 ==> |EmptyCells(h)| == |EmptyCells(board)| - 1
  {
    EmptyCellsSpec(board);
    var cell := EmptyCells(board)[k];
    if v != 0 {
      var h := Placed(board, cell, v);
      EmptyRowsPlaced(board, cell, v, 4);
      assert EmptyCells(h) == EmptyRows(h, 4) && EmptyCells(board) == EmptyRows(board, 4);
    }
  }

  /** Placing a nonzero tile in an empty cell removes one zero from the list. */
  lemma {:induction false} CountZerosUpdate(s: seq<int>, i: int, v: int)
    requires 0 <= i < |s| && s[i] == 0 && v != 0
    ensures CountZeros(s[i := v]) == CountZeros(s) - 1
  {
    var t := s[i := v];
    if i == |s| - 1 {
      assert t[..|t| - 1] == s[..|s| - 1];
    } else {
      assert t[..|t| - 1] == s[..|s| - 1][i := v];
      CountZerosUpdate(s[..|s| - 1], i, v);
    }
  }

  /** The rows before r of a board with a nonzero tile placed in an empty cell have one empty cell fewer when they hold that cell. */
  lemma {:induction false} EmptyRowsPlaced(g: Grid, cell: Cell, v: int, r: int)
    requires IsBoard(g) && 0 <= cell.r < 4 && 0 <= cell.c < 4 && g[cell.r][cell.c] == 0 && v != 0 && 0 <= r <= 4
    ensures |EmptyRows(Placed(g, cell, v), r)| == |EmptyRows(g, r)| - (if cell.r < r then 1 else 0)
  {
    if r > 0 {
      var h := Placed(g, cell, v);
      EmptyRowsPlaced(g, cell, v, r - 1);
      EmptyInRowCount(g, r - 1, 4);
      EmptyInRowCount(h, r - 1, 4);
      assert g[r - 1][..4] == g[r - 1] && h[r - 1][..4] == h[r - 1];
      if cell.r == r - 1 {
        assert h[r - 1] == g[r - 1][cell.c := v];
        CountZerosUpdate(g[r - 1], cell.c, v);
      } else {
        assert h[r - 1] == g[r - 1];
      }
    }
  }

  /**
   * `addRandomTile` of dist/main.js: the board itself when no cell is empty; otherwise a copy with a 2
   * in the empty cell at index `Math.floor(random * n)` of the n empty cells, which was empty and is the
   * only cell changed, so the copy has one empty cell fewer.
   */
  method AddRandomTileTwo(board: Grid, random: real) returns (newBoard: Grid)
    requires IsBoard(board) && 0.0 <= random < 1.0
    ensures |EmptyCells(board)| == 0 ==> newBoard == board
    ensures |EmptyCells(board)| > 0 ==>
      var cell := EmptyCells(board)[Chosen(random, |EmptyCells(board)|)];
      && 0 <= cell.r < 4 && 0 <= cell.c < 4 && board[cell.r][cell.c] == 0
      && newBoard == Placed(board, cell, 2)
      && |EmptyCells(newBoard)| == |EmptyCells(board)| - 1
  {
    var emptyCells := GetEmptyCells(board);
    if |emptyCells| > 0 {
      var k := Chosen(random, |emptyCells|);
      PlacedEmpty(board, k, 2);
      var cell := emptyCells[k];
      newBoard := Placed(board, cell, 2);
      return;
    }
    return board;
  }

  /**
   * `addRandomTile` of src/game/game.ts: as in dist/main.js, but the tile is a 2 when a second
   * `Math.random()` is below 0.9 and a 4 otherwise.
   */
  method AddRandomTile(board: Grid, random: real, random2: real) returns (newBoard: Grid)
    requires IsBoard(board) && 0.0 <= random < 1.0
    ensures |EmptyCells(board)| == 0 ==> newBoard == board
    ensures |EmptyCells(board)| > 0 ==>
      var cell := EmptyCells(board)[Chosen(random, |EmptyCells(board)|)];
      && 0 <= cell.r < 4 && 0 <= cell.c < 4 && board[cell.r][cell.c] == 0
      && newBoard == Placed(board, cell, if random2 < 0.9 then 2 else 4)
      && |EmptyCells(newBoard)| == |EmptyCells(board)| - 1
  {
    var emptyCells := GetEmptyCells(board);
    if |emptyCells| > 0 {
      var k := Chosen(random, |emptyCells|);
      var v := if random2 < 0.9 then 2 else 4;
      PlacedEmpty(board, k, v);
      var cell := emptyCells[k];
      newBoard := Placed(board, cell, v);
      return;
    }
    return board;
  }

  /** A board of zeros, the one `initializeBoard` returns, has all 16 cells empty. */
  lemma AllEmpty(g: Grid)
    requires IsBoard(g) && forall r, c | 0 <= r < 4 && 0 <= c < 4 :: g[r][c] == 0
    ensures |EmptyCells(g)| == 16
  {
    EmptyRowsCount(g, 4);
    assert g[..4] == g;
    ConcatBoard(g);
    ZerosCount(Concat(g));
    assert EmptyCells(g) == EmptyRows(g, 4);
  }

  lemma {:induction false} ZerosCount(s: seq<int>)
    requires forall i | 0 <= i < |s| :: s[i] == 0
    ensures CountZeros(s) == |s|
  {
    if |s| > 0 {
      ZerosCount(s[..|s| - 1]);
    }
  }

  /** The game state of dist/main.js. */
  class GameState {
    var board: Grid
    var score: int
    var isAIAutoPlaying: bool
    var isAICalculating: bool
    var autoPlayIntervalId: Search.Option<int>
    var searchDepth: int
    var heuristicWeights: Weights

    /** The initial `state`: an empty board, score 0, no AI running, depth 5 and the default weights. */
    constructor ()
      ensures board == EmptyBoard() && score == 0
      ensures !isAIAutoPlaying && !isAICalculating && autoPlayIntervalId == Search.None
      ensures searchDepth == 5 && heuristicWeights == Weights(0.1, 1.0, 2.7, 1.0)
    {
      board := EmptyBoard();
      score := 0;
      isAIAutoPlaying := false;
      isAICalculating := false;
      autoPlayIntervalId := Search.None;
      searchDepth := 5;
      heuristicWeights := Weights(0.1, 1.0, 2.7, 1.0);
    }

    /** `resetState`: a new board and score 0; every other field is left as it was. */
    method ResetState()
      modifies this
      ensures board == EmptyBoard() && score == 0
      ensures isAIAutoPlaying == old(isAIAutoPlaying) && isAICalculating == old(isAICalculating)
      ensures autoPlayIntervalId == old(autoPlayIntervalId) && searchDepth == old(searchDepth)
      ensures heuristicWeights == old(heuristicWeights)
    {
      board := EmptyBoard();
      score := 0;
    }
  }
}
