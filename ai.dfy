/**
 * The move engine and the expectimax search of wasm-lib/src/ai.rs.
 *
 * A left move rewrites every row through the row table; the other three directions are the left
 * move conjugated by `reverse` (a 180-degree rotation) and `transpose`. The search evaluates
 * boards with a heuristic built from integer sub-scores and a caller-supplied `ln_1p`, and
 * memoises results in a map keyed by board.
 */
module Ai {
  import opened Board
  import opened Tables

  // ---------------------------------------------------------------- the left move of a board

  /** The board `move_left` has built after rows 0..n-1, for a row lookup `moveRow`: those rows moved, the rest 0. */
  function RowsUpTo(b: Board, n: int, moveRow: Row -> Row): Board
    requires 0 <= n <= 4
  {
    if n == 0 then 0 else SetRow(RowsUpTo(b, n - 1, moveRow), n - 1, moveRow(GetRow(b, n - 1)))
  }

  /** The score `move_left` has added up after rows 0..n-1, for a row lookup `rowScore`. */
  function ScoreUpTo(b: Board, n: int, rowScore: Row -> nat): nat
    requires 0 <= n <= 4
  {
    if n == 0 then 0 else ScoreUpTo(b, n - 1, rowScore) + rowScore(GetRow(b, n - 1))
  }

  /**
   * The loop of `move_left`: every row is looked up, the new row is written at the same index and
   * the scores are added up. The table lookup `tables::move_left` is the pair (moveRow, rowScore).
   */
  method MoveEachRow(board: Board, moveRow: Row -> Row, rowScore: Row -> nat) returns (newBoard: Board, totalScore: nat)
    ensures newBoard == RowsUpTo(board, 4, moveRow) && totalScore == ScoreUpTo(board, 4, rowScore)
  {
    newBoard := 0;
    totalScore := 0;
    var i := 0;
    while i < 4
      invariant 0 <= i <= 4
      invariant newBoard == RowsUpTo(board, i, moveRow) && totalScore == ScoreUpTo(board, i, rowScore)
    {
      var row := GetRow(board, i);
      assert RowsUpTo(board, i + 1, moveRow) == SetRow(newBoard, i, moveRow(row));
      assert ScoreUpTo(board, i + 1, rowScore) == totalScore + rowScore(row);
      newBoard := SetRow(newBoard, i, moveRow(row));
      totalScore := totalScore + rowScore(row);
      i := i + 1;
    }
  }

  lemma {:induction false} RowsUpToRow(b: Board, n: int, moveRow: Row -> Row, j: int)
    requires 0 <= n <= 4 && 0 <= j < 4
    ensures GetRow(RowsUpTo(b, n, moveRow), j) == if j < n then moveRow(GetRow(b, j)) else 0
  {
    if n > 0 {
      RowsUpToRow(b, n - 1, moveRow, j);
      SetRowGetRow(RowsUpTo(b, n - 1, moveRow), n - 1, moveRow(GetRow(b, n - 1)), j);
    }
  }

  /** The four row scores, added up. */
  lemma ScoreUpToSum(b: Board, rowScore: Row -> nat)
    ensures ScoreUpTo(b, 4, rowScore) == rowScore(GetRow(b, 0)) + rowScore(GetRow(b, 1)) + rowScore(GetRow(b, 2)) + rowScore(GetRow(b, 3))
  {
    assert ScoreUpTo(b, 1, rowScore) == rowScore(GetRow(b, 0));
    assert ScoreUpTo(b, 2, rowScore) == ScoreUpTo(b, 1, rowScore) + rowScore(GetRow(b, 1));
    assert ScoreUpTo(b, 3, rowScore) == ScoreUpTo(b, 2, rowScore) + rowScore(GetRow(b, 2));
  }

  /** The board after a left move: every row replaced by its left move. */
  function MovedLeft(b: Board): Board
  {
    RowsUpTo(b, 4, LeftRow)
  }

  /** The score of a left move: the sum of the four row scores. */
  function LeftMoveScore(b: Board): nat
  {
    ScoreUpTo(b, 4, LeftScore)
  }

  /** Row i of a left move depends only on row i of the board: it is that row's left move. */
  lemma MovedLeftRow(b: Board, i: int)
    requires 0 <= i < 4
    ensures GetRow(MovedLeft(b), i) == LeftRow(GetRow(b, i))
  {
    RowsUpToRow(b, 4, LeftRow, i);
  }

  /** The score of a left move is the sum of the row scores. */
  lemma LeftMoveScoreSum(b: Board)
    ensures LeftMoveScore(b) == LeftScore(GetRow(b, 0)) + LeftScore(GetRow(b, 1)) + LeftScore(GetRow(b, 2)) + LeftScore(GetRow(b, 3))
  {
    ScoreUpToSum(b, LeftScore);
  }

  /** `move_left`: the row loop with the table lookup, which is the left move of the row and its score. */
  method MoveLeft(board: Board) returns (newBoard: Board, totalScore: nat)
    ensures newBoard == MovedLeft(board) && totalScore == LeftMoveScore(board)
  {
    newBoard, totalScore := MoveEachRow(board, LeftRow, LeftScore);
  }

  // ---------------------------------------------------------------- the other three directions

  /** The board after a right move: the left move of the 180-degree rotation, rotated back. */
  function MovedRight(b: Board): Board
  {
    Reversed(MovedLeft(Reversed(b)))
  }

  function RightMoveScore(b: Board): nat
  {
    LeftMoveScore(Reversed(b))
  }

  /** The board after an up move: the left move of the transpose, transposed back. */
  function MovedUp(b: Board): Board
  {
    Transposed(MovedLeft(Transposed(b)))
  }

  function UpMoveScore(b: Board): nat
  {
    LeftMoveScore(Transposed(b))
  }

  /** The board after a down move: the right move of the transpose, transposed back. */
  function MovedDown(b: Board): Board
  {
    Transposed(MovedRight(Transposed(b)))
  }

  function DownMoveScore(b: Board): nat
  {
    RightMoveScore(Transposed(b))
  }

  /** Every row of a right move is that row's right move, as `tables::move_right` computes it. */
  lemma MovedRightRow(b: Board, i: int)
    requires 0 <= i < 4
    ensures GetRow(MovedRight(b), i) == ReverseRow(LeftRow(ReverseRow(GetRow(b, i))))
  {
    ReversedRow(MovedLeft(Reversed(b)), i);
    MovedLeftRow(Reversed(b), 3 - i);
    ReversedRow(b, 3 - i);
  }

  /** A right move scores what a left move of the same board scores. */
  lemma RightMoveScoreIsLeft(b: Board)
    ensures RightMoveScore(b) == LeftMoveScore(b)
  {
    LeftMoveScoreSum(Reversed(b));
    LeftMoveScoreSum(b);
    ReversedRow(b, 0);
    ReversedRow(b, 1);
    ReversedRow(b, 2);
    ReversedRow(b, 3);
    LeftScoreReverse(GetRow(b, 0));
    LeftScoreReverse(GetRow(b, 1));
    LeftScoreReverse(GetRow(b, 2));
    LeftScoreReverse(GetRow(b, 3));
  }

  /** Column c of an up move (row c of its transpose) is the left move of column c. */
  lemma MovedUpColumn(b: Board, c: int)
    requires 0 <= c < 4
    ensures GetRow(Transposed(MovedUp(b)), c) == LeftRow(GetRow(Transposed(b), c))
  {
    TransposedInvolution(MovedLeft(Transposed(b)));
    MovedLeftRow(Transposed(b), c);
  }

  /** Column c of a down move is the right move of column c. */
  lemma MovedDownColumn(b: Board, c: int)
    requires 0 <= c < 4
    ensures GetRow(Transposed(MovedDown(b)), c) == ReverseRow(LeftRow(ReverseRow(GetRow(Transposed(b), c))))
  {
    TransposedInvolution(MovedRight(Transposed(b)));
    MovedRightRow(Transposed(b), c);
  }

  /** A down move scores what an up move of the same board scores. */
  lemma DownMoveScoreIsUp(b: Board)
    ensures DownMoveScore(b) == UpMoveScore(b)
  {
    RightMoveScoreIsLeft(Transposed(b));
  }

  /** `move_right`: reverse, move left, reverse back; the score is the left move's. */
  method MoveRight(board: Board) returns (newBoard: Board, score: nat)
    ensures newBoard == MovedRight(board) && score == RightMoveScore(board)
  {
    var reversed := Reverse(board);
    var newReversed;
    newReversed, score := MoveLeft(reversed);
    newBoard := Reverse(newReversed);
  }

  /** `move_up`: transpose, move left, transpose back. */
  method MoveUp(board: Board) returns (newBoard: Board, score: nat)
    ensures newBoard == MovedUp(board) && score == UpMoveScore(board)
  {
    var transposed := Transpose(board);
    var newTransposed;
    newTransposed, score := MoveLeft(transposed);
    newBoard := Transpose(newTransposed);
  }

  /** `move_down`: transpose, move right, transpose back. */
  method MoveDown(board: Board) returns (newBoard: Board, score: nat)
    ensures newBoard == MovedDown(board) && score == DownMoveScore(board)
  {
    var transposed := Transpose(board);
    var newTransposed;
    newTransposed, score := MoveRight(transposed);
    newBoard := Transpose(newTransposed);
  }

  // ---------------------------------------------------------------- execute_move

  /** The board and score of a move in direction `dir` (0 up, 1 down, 2 left, 3 right); any other code changes nothing. */
  function Move(b: Board, dir: nat): (Board, nat)
  {
    if dir == 0 then (MovedUp(b), UpMoveScore(b))
    else if dir == 1 then (MovedDown(b), DownMoveScore(b))
    else if dir == 2 then (MovedLeft(b), LeftMoveScore(b))
    else if dir == 3 then (MovedRight(b), RightMoveScore(b))
    else (b, 0)
  }

  /** `execute_move`: dispatches on the direction code. */
  method ExecuteMove(board: Board, dir: nat) returns (newBoard: Board, score: nat)
    ensures (newBoard, score) == Move(board, dir)
  {
    if dir == 0 {
      newBoard, score := MoveUp(board);
    } else if dir == 1 {
      newBoard, score := MoveDown(board);
    } else if dir == 2 {
      newBoard, score := MoveLeft(board);
    } else if dir == 3 {
      newBoard, score := MoveRight(board);
    } else {
      newBoard, score := board, 0;
    }
  }

  // ---------------------------------------------------------------- the unit-test examples

  /** `test_horizontal_moves`, left: rows [2,2,0,0] and [4,4,0,0] (0x0011, 0x0022) become [4,0,0,0] and [8,0,0,0], scoring 4 + 8. */
  lemma HorizontalLeftExample()
    ensures MovedLeft(0x0000_0000_0022_0011) == 0x0000_0000_0003_0002
    ensures LeftMoveScore(0x0000_0000_0022_0011) == 12
  {
    var b: Board := 0x0000_0000_0022_0011;
    assert GetRow(b, 0) == 0x0011 && GetRow(b, 1) == 0x0022 && GetRow(b, 2) == 0 && GetRow(b, 3) == 0;
    LeftRowExample0011();
    LeftRowExample0022();
    LeftRowExample0000();
    MovedLeftRow(b, 0);
    MovedLeftRow(b, 1);
    MovedLeftRow(b, 2);
    MovedLeftRow(b, 3);
    RowsDetermine(MovedLeft(b), 0x0000_0000_0003_0002);
    LeftMoveScoreSum(b);
  }

  /** `test_horizontal_moves`, right: the same board becomes [0,0,0,4] and [0,0,0,8], scoring 4 + 8. */
  lemma HorizontalRightExample()
    ensures MovedRight(0x0000_0000_0022_0011) == 0x0000_0000_3000_2000
    ensures RightMoveScore(0x0000_0000_0022_0011) == 12
  {
    var b: Board := 0x0000_0000_0022_0011;
    assert GetRow(b, 0) == 0x0011 && GetRow(b, 1) == 0x0022 && GetRow(b, 2) == 0 && GetRow(b, 3) == 0;
    assert ReverseRow(0x0011) == 0x1100 && ReverseRow(0x0022) == 0x2200 && ReverseRow(0) == 0;
    assert ReverseRow(0x0002) == 0x2000 && ReverseRow(0x0003) == 0x3000;
    LeftRowExample1100();
    LeftRowExample2200();
    LeftRowExample0000();
    MovedRightRow(b, 0);
    MovedRightRow(b, 1);
    MovedRightRow(b, 2);
    MovedRightRow(b, 3);
    RowsDetermine(MovedRight(b), 0x0000_0000_3000_2000);
    HorizontalLeftExample();
    RightMoveScoreIsLeft(b);
  }

  /** `test_vertical_moves`: columns [2,2,0,0] and [4,4,0,0] (rows 0x0021, 0x0021) move up to the row [4,8,0,0], scoring 4 + 8. */
  lemma VerticalUpExample()
    ensures MovedUp(0x0000_0000_0021_0021) == 0x0000_0000_0000_0032
    ensures UpMoveScore(0x0000_0000_0021_0021) == 12
  {
    var b: Board := 0x0000_0000_0021_0021;
    assert GetRow(Transposed(b), 0) == 0x0011 && GetRow(Transposed(b), 1) == 0x0022;
    assert GetRow(Transposed(b), 2) == 0 && GetRow(Transposed(b), 3) == 0;
    RowsDetermine(Transposed(b), 0x0000_0000_0022_0011);
    HorizontalLeftExample();
    assert GetRow(Transposed(0x0000_0000_0003_0002), 0) == 0x0032 && GetRow(Transposed(0x0000_0000_0003_0002), 1) == 0;
    assert GetRow(Transposed(0x0000_0000_0003_0002), 2) == 0 && GetRow(Transposed(0x0000_0000_0003_0002), 3) == 0;
    RowsDetermine(Transposed(0x0000_0000_0003_0002), 0x0000_0000_0000_0032);
  }

  /**
   * A second left move may merge again: the row [0,1,1,2] moves to [2,2,0,0] and then to [3,0,0,0],
   * so a move is not idempotent.
   */
  lemma LeftMoveNotIdempotent()
    ensures MovedLeft(0x0000_0000_0000_2110) == 0x0000_0000_0000_0022
    ensures MovedLeft(MovedLeft(0x0000_0000_0000_2110)) != MovedLeft(0x0000_0000_0000_2110)
  {
    var b: Board := 0x0000_0000_0000_2110;
    assert GetRow(b, 0) == 0x2110 && GetRow(b, 1) == 0 && GetRow(b, 2) == 0 && GetRow(b, 3) == 0;
    LeftRowExample2110();
    LeftRowExample0022();
    LeftRowExample0000();
    MovedLeftRow(b, 0);
    MovedLeftRow(b, 1);
    MovedLeftRow(b, 2);
    MovedLeftRow(b, 3);
    RowsDetermine(MovedLeft(b), 0x0000_0000_0000_0022);
    MovedLeftRow(0x0000_0000_0000_0022, 0);
  }
}
