/**
 * The 4x4 board of the face-value simulators and the move built on the row operation:
 * `simulate_move` of wasm-lib/src/lib.rs (a flat input buffer, a flat output buffer and the return
 * value `score * 10 + moved`), the `simulateMove` copies of the JavaScript files (a board of rows,
 * which they copy and never change), and the decoding of the return value in src/game/game.ts.
 *
 * Every version transposes for up and down, reverses each row for right and down, applies the row
 * operation to each row and undoes the reversal and the transposition. `Moved` is that move as a
 * function of the board and the direction code; both loops are proved to compute it, and it is
 * proved to be the left move conjugated by mirroring and transposition, to keep the total face
 * value, and to be the exponent slide of tables.rs on boards of powers of two.
 */
module FaceBoard {
  import opened Tables
  import opened FaceRow

  /** A board of face values, row by row. */
  type Grid = seq<seq<int>>

  predicate IsBoard(g: Grid)
  {
    |g| == 4 && forall r | 0 <= r < 4 :: |g[r]| == 4
  }

  /** Two boards with the same cells are the same board. */
  lemma SameBoard(a: Grid, b: Grid)
    requires IsBoard(a) && IsBoard(b)
    requires forall r, c | 0 <= r < 4 && 0 <= c < 4 :: a[r][c] == b[r][c]
    ensures a == b
  {
    forall r | 0 <= r < 4
      ensures a[r] == b[r]
    {
      assert forall c | 0 <= c < 4 :: a[r][c] == b[r][c];
    }
  }

  /** `[[0.0; SIZE]; SIZE]`, and `initializeBoard` of dist/main.js and game.ts. */
  function EmptyBoard(): (g: Grid)
    ensures IsBoard(g) && forall r, c | 0 <= r < 4 && 0 <= c < 4 :: g[r][c] == 0
  {
    seq(4, _ => [0, 0, 0, 0])
  }

  // ---------------------------------------------------------------- transposition and mirroring

  /** `transpose` of the JavaScript copies: cell (r, c) moves to (c, r). */
  function Transposed(g: Grid): (t: Grid)
    requires IsBoard(g)
    ensures IsBoard(t) && forall r, c | 0 <= r < 4 && 0 <= c < 4 :: t[c][r] == g[r][c]
  {
    seq(4, c requires 0 <= c < 4 => seq(4, r requires 0 <= r < 4 => g[r][c]))
  }

  lemma TransposedTwice(g: Grid)
    requires IsBoard(g)
    ensures Transposed(Transposed(g)) == g
  {
    SameBoard(Transposed(Transposed(g)), g);
  }

  /** `transpose_board` of lib.rs: a zero board filled cell by cell. */
  method TransposeBoard(board: Grid) returns (newBoard: Grid)
    requires IsBoard(board)
    ensures newBoard == Transposed(board)
  {
    newBoard := EmptyBoard();
    for r := 0 to 4
      invariant IsBoard(newBoard)
      invariant forall c', r' {:trigger newBoard[c'][r']} | 0 <= c' < 4 && 0 <= r' < 4 ::
        newBoard[c'][r'] == if r' < r then board[r'][c'] else 0
    {
      for c := 0 to 4
        invariant IsBoard(newBoard)
        invariant forall c', r' {:trigger newBoard[c'][r']} | 0 <= c' < 4 && 0 <= r' < 4 ::
          newBoard[c'][r'] == if r' < r || (r' == r && c' < c) then board[r'][c'] else 0
      {
        newBoard := newBoard[c := newBoard[c][r := board[r][c]]];
      }
    }
    SameBoard(newBoard, Transposed(board));
  }

  /** `row.reverse()`: the cells of a row in the opposite order. */
  function Reversed(s: seq<int>): (t: seq<int>)
    ensures |t| == |s| && forall k | 0 <= k < |s| :: t[k] == s[|s| - 1 - k]
  {
    seq(|s|, k requires 0 <= k < |s| => s[|s| - 1 - k])
  }

  lemma ReversedTwice(s: seq<int>)
    ensures Reversed(Reversed(s)) == s
  {
  }

  /** Every row reversed: the board seen in a mirror. */
  function Mirrored(g: Grid): (m: Grid)
    requires IsBoard(g)
    ensures IsBoard(m) && forall r | 0 <= r < 4 :: m[r] == Reversed(g[r])
  {
    seq(4, r requires 0 <= r < 4 => Reversed(g[r]))
  }

  // ---------------------------------------------------------------- flat buffers

  /** `board_js_to_rust`: the first 16 cells of a flat buffer as four rows, row-major. */
  function Reshape(flat: seq<int>): (g: Grid)
    requires |flat| >= 16
    ensures IsBoard(g) && forall r, c | 0 <= r < 4 && 0 <= c < 4 :: g[r][c] == flat[4 * r + c]
  {
    seq(4, r requires 0 <= r < 4 => flat[4 * r..4 * r + 4])
  }

  /** `iter().flatten()` and `currentBoard.flat()`: the rows one after the other. */
  function Flatten(g: Grid): (flat: seq<int>)
    requires IsBoard(g)
    ensures |flat| == 16 && forall r, c | 0 <= r < 4 && 0 <= c < 4 :: flat[4 * r + c] == g[r][c]
  {
    g[0] + g[1] + g[2] + g[3]
  }

  lemma ReshapeFlatten(g: Grid)
    requires IsBoard(g)
    ensures Reshape(Flatten(g)) == g
  {
    SameBoard(Reshape(Flatten(g)), g);
  }

  lemma FlattenReshape(flat: seq<int>)
    requires |flat| >= 16
    ensures Flatten(Reshape(flat)) == flat[..16]
  {
    var f := Flatten(Reshape(flat));
    forall k | 0 <= k < 16
      ensures f[k] == flat[k]
    {
      assert f[4 * (k / 4) + k % 4] == Reshape(flat)[k / 4][k % 4];
    }
  }

  /** `board_js_to_rust` of lib.rs: a zero board filled from the buffer, row-major. */
  method BoardJsToRust(boardJs: seq<int>) returns (board: Grid)
    requires |boardJs| >= 16
    ensures board == Reshape(boardJs)
  {
    board := EmptyBoard();
    for r := 0 to 4
      invariant IsBoard(board)
      invariant forall r', c' | 0 <= r' < 4 && 0 <= c' < 4 ::
        board[r'][c'] == if r' < r then boardJs[4 * r' + c'] else 0
    {
      for c := 0 to 4
        invariant IsBoard(board)
        invariant forall r', c' | 0 <= r' < 4 && 0 <= c' < 4 ::
          board[r'][c'] == if r' < r || (r' == r && c' < c) then boardJs[4 * r' + c'] else 0
      {
        board := board[r := board[r][c := boardJs[r * 4 + c]]];
      }
    }
    SameBoard(board, Reshape(boardJs));
  }

  // ---------------------------------------------------------------- empty cells

  /** A cell position, `{ r, c }`. */
  datatype Cell = Cell(r: int, c: int)

  /** The position of a cell in row-major order. */
  function Index(cell: Cell): int
  {
    4 * cell.r + cell.c
  }

  /** The empty cells of row r before column c, left to right. */
  function EmptyInRow(g: Grid, r: int, c: int): seq<Cell>
    requires IsBoard(g) && 0 <= r < 4 && 0 <= c <= 4
  {
    if c == 0 then [] else EmptyInRow(g, r, c - 1) + (if g[r][c - 1] == 0 then [Cell(r, c - 1)] else [])
  }

  /** The empty cells of the rows before r, row by row. */
  function EmptyRows(g: Grid, r: int): seq<Cell>
    requires IsBoard(g) && 0 <= r <= 4
  {
    if r == 0 then [] else EmptyRows(g, r - 1) + EmptyInRow(g, r - 1, |g[r - 1]|)
  }

  /** What `getEmptyCells` returns: every empty cell, in row-major order. */
  function EmptyCells(g: Grid): seq<Cell>
    requires IsBoard(g)
  {
    EmptyRows(g, |g|)
  }

  lemma {:induction false} EmptyInRowSpec(g: Grid, r: int, c: int)
    requires IsBoard(g) && 0 <= r < 4 && 0 <= c <= 4
    ensures var e := EmptyInRow(g, r, c);
      && (forall j | 0 <= j < |e| :: e[j].r == r && 0 <= e[j].c < c && g[r][e[j].c] == 0)
      && (forall c' | 0 <= c' < c && g[r][c'] == 0 :: Cell(r, c') in e)
      && (forall j, j' | 0 <= j < j' < |e| :: e[j].c < e[j'].c)
  {
    if c > 0 {
      EmptyInRowSpec(g, r, c - 1);
    }
  }

  lemma {:induction false} EmptyRowsSpec(g: Grid, r: int)
    requires IsBoard(g) && 0 <= r <= 4
    ensures var e := EmptyRows(g, r);
      && (forall j | 0 <= j < |e| :: 0 <= e[j].r < r && 0 <= e[j].c < 4 && g[e[j].r][e[j].c] == 0)
      && (forall r', c' | 0 <= r' < r && 0 <= c' < 4 && g[r'][c'] == 0 :: Cell(r', c') in e)
      && (forall j, j' | 0 <= j < j' < |e| :: Index(e[j]) < Index(e[j']))
  {
    if r > 0 {
      EmptyRowsSpec(g, r - 1);
      EmptyInRowSpec(g, r - 1, 4);
      var before, row := EmptyRows(g, r - 1), EmptyInRow(g, r - 1, |g[r - 1]|);
      var e := before + row;
      forall r', c' | 0 <= r' < r && 0 <= c' < 4 && g[r'][c'] == 0
        ensures Cell(r', c') in e
      {
        if r' < r - 1 {
          assert Cell(r', c') in before;
        } else {
          assert Cell(r', c') in row;
        }
      }
      forall j, j' | 0 <= j < j' < |e|
        ensures Index(e[j]) < Index(e[j'])
      {
        if j' < |before| {
          assert e[j] == before[j] && e[j'] == before[j'];
        } else if j >= |before| {
          assert e[j] == row[j - |before|] && e[j'] == row[j' - |before|];
        } else {
          assert e[j] == before[j] && e[j'] == row[j' - |before|];
        }
      }
    }
  }

  /**
   * `getEmptyCells` lists exactly the empty cells, each in range, in strictly increasing row-major
   * order and therefore each once.
   */
  lemma EmptyCellsSpec(g: Grid)
    requires IsBoard(g)
    ensures var e := EmptyCells(g);
      && (forall j | 0 <= j < |e| :: 0 <= e[j].r < 4 && 0 <= e[j].c < 4 && g[e[j].r][e[j].c] == 0)
      && (forall r, c | 0 <= r < 4 && 0 <= c < 4 && g[r][c] == 0 :: Cell(r, c) in e)
      && (forall j, j' | 0 <= j < j' < |e| :: Index(e[j]) < Index(e[j']))
  {
    assert EmptyCells(g) == EmptyRows(g, 4);
    EmptyRowsSpec(g, 4);
  }

  /**
   * `getEmptyCells` of ai-worker.js, script.js, dist/main.js, dist/ai-worker.js and game.ts: both
   * loops push `{ r, c }` for every cell that is exactly 0.
   */
  method GetEmptyCells(board: Grid) returns (cells: seq<Cell>)
    requires IsBoard(board)
    ensures cells == EmptyCells(board)
  {
    cells := [];
    for r := 0 to 4
      invariant cells == EmptyRows(board, r)
    {
      for c := 0 to 4
        invariant cells == EmptyRows(board, r) + EmptyInRow(board, r, c)
      {
        if board[r][c] == 0 {
          cells := cells + [Cell(r, c)];
        }
      }
    }
  }

  /**
   * A copy of the board with one cell set to v, as `board.map((row) => [...row])` followed by
   * `newBoard[r][c] = v` builds: that cell holds v and every other cell is as it was.
   */
  function Placed(g: Grid, cell: Cell, v: int): (h: Grid)
    requires IsBoard(g) && 0 <= cell.r < 4 && 0 <= cell.c < 4
    ensures IsBoard(h) && h[cell.r][cell.c] == v
    ensures forall r, c | 0 <= r < 4 && 0 <= c < 4 && (r != cell.r || c != cell.c) :: h[r][c] == g[r][c]
  {
    g[cell.r := g[cell.r][cell.c := v]]
  }

  /** `get_empty_cells_count` of lib.rs: the cells of a buffer that are exactly zero. */
  function CountZeros(s: seq<int>): (n: nat)
    ensures n <= |s|
  {
    if |s| == 0 then 0 else CountZeros(s[..|s| - 1]) + (if s[|s| - 1] == 0 then 1 else 0)
  }

  lemma {:induction false} CountZerosAppend(a: seq<int>, b: seq<int>)
    ensures CountZeros(a + b) == CountZeros(a) + CountZeros(b)
  {
    if |b| == 0 {
      assert a + b == a;
    } else {
      CountZerosAppend(a, b[..|b| - 1]);
      assert (a + b)[..|a + b| - 1] == a + b[..|b| - 1];
    }
  }

  lemma {:induction false} EmptyInRowCount(g: Grid, r: int, c: int)
    requires IsBoard(g) && 0 <= r < 4 && 0 <= c <= 4
    ensures |EmptyInRow(g, r, c)| == CountZeros(g[r][..c])
  {
    if c > 0 {
      EmptyInRowCount(g, r, c - 1);
      assert g[r][..c][..c - 1] == g[r][..c - 1];
    }
  }

  lemma {:induction false} EmptyRowsCount(g: Grid, r: int)
    requires IsBoard(g) && 0 <= r <= 4
    ensures |EmptyRows(g, r)| == CountZeros(Concat(g[..r]))
  {
    if r == 0 {
      assert g[..0] == [];
    } else {
      EmptyRowsCount(g, r - 1);
      EmptyInRowCount(g, r - 1, 4);
      assert g[..r][..r - 1] == g[..r - 1];
      assert g[r - 1][..4] == g[r - 1];
      CountZerosAppend(Concat(g[..r - 1]), g[r - 1]);
    }
  }

  /** Counting the zero cells of a 16-cell buffer gives as many as listing the empty cells of its board. */
  lemma CountZerosCells(flat: seq<int>)
    requires |flat| == 16
    ensures CountZeros(flat) == |EmptyCells(Reshape(flat))|
  {
    var g := Reshape(flat);
    FlattenReshape(flat);
    EmptyRowsCount(g, 4);
    assert g[..4] == g;
    ConcatBoard(g);
    assert flat[..16] == flat;
    assert Concat(g) == flat;
  }

  // ---------------------------------------------------------------- the move

  /** One row moved: reversed before and after the row operation when the move goes right or down. */
  function MoveRow(row: seq<int>, reverse: bool, limit: Limit): (r: (seq<int>, int))
    ensures |row| == 4 ==> |r.0| == 4
    ensures r.1 == Operated(if reverse then Reversed(row) else row, limit).1
  {
    if reverse then
      var (m, s) := Operated(Reversed(row), limit);
      (Reversed(m), s)
    else Operated(row, limit)
  }

  /**
   * The loop over the first n rows: row k of the result is row k of g moved on its own, and the
   * score is the sum of the row scores.
   */
  function RowsMoved(g: Grid, n: nat, reverse: bool, limit: Limit): (r: (Grid, int))
    requires n <= |g|
    ensures |r.0| == n && forall k | 0 <= k < n :: r.0[k] == MoveRow(g[k], reverse, limit).0
  {
    if n == 0 then ([], 0)
    else
      var (rows, score) := RowsMoved(g, n - 1, reverse, limit);
      var (m, s) := MoveRow(g[n - 1], reverse, limit);
      (rows + [m], score + s)
  }

  /**
   * The move with direction code `direction`: 0 (up) transposes, 1 (right) reverses, 2 (down) does
   * both, and every other code does neither, which is the left move.
   */
  function Moved(g: Grid, direction: int, limit: Limit): (r: (Grid, int))
    requires IsBoard(g)
    ensures IsBoard(r.0)
  {
    var transposed := direction == 0 || direction == 2;
    var reverse := direction == 1 || direction == 2;
    var pre := if transposed then Transposed(g) else g;
    var (rows, score) := RowsMoved(pre, 4, reverse, limit);
    (if transposed then Transposed(rows) else rows, score)
  }

  /**
   * What the row loops have after i rows: the rows before i are moved, those from i on are as they
   * were, and the score is that of the moved rows.
   */
  predicate RowsState(pre: Grid, temp: Grid, i: int, score: int, reverse: bool, limit: Limit)
    requires IsBoard(pre)
  {
    IsBoard(temp) && 0 <= i <= 4 && temp[i..] == pre[i..] && (temp[..i], score) == RowsMoved(pre, i, reverse, limit)
  }

  lemma RowsStart(pre: Grid, reverse: bool, limit: Limit)
    requires IsBoard(pre)
    ensures RowsState(pre, pre, 0, 0, reverse, limit)
  {
  }

  /** Row i moved and stored, its score added. */
  lemma RowsStep(pre: Grid, temp: Grid, i: int, score: int, reverse: bool, limit: Limit, newRow: seq<int>, rowScore: int)
    requires IsBoard(pre) && RowsState(pre, temp, i, score, reverse, limit) && i < 4
    requires (newRow, rowScore) == MoveRow(temp[i], reverse, limit)
    ensures RowsState(pre, temp[i := newRow], i + 1, score + rowScore, reverse, limit)
  {
    assert temp[i] == pre[i..][0];
    var temp' := temp[i := newRow];
    assert temp'[..i + 1] == temp[..i] + [newRow];
    assert temp'[i + 1..] == temp[i + 1..];
    assert temp[i + 1..] == pre[i..][1..];
  }

  lemma RowsEnd(pre: Grid, temp: Grid, score: int, reverse: bool, limit: Limit)
    requires IsBoard(pre) && RowsState(pre, temp, 4, score, reverse, limit)
    ensures (temp, score) == RowsMoved(pre, 4, reverse, limit)
  {
    assert temp == temp[..4];
  }

  /** The return value of `simulate_move`: the score times ten plus the `moved` flag. */
  function Encode(score: int, moved: bool): int
  {
    score * 10 + (if moved then 1 else 0)
  }

  /** JavaScript's `%`, whose remainder takes the sign of the dividend. */
  function JsRemainder(a: int, b: int): (r: int)
    requires b > 0
    ensures -b < r < b && (a >= 0 ==> r == a % b)
  {
    if a >= 0 then a % b else -((-a) % b)
  }

  /** The decoding in game.ts: `Math.floor(encodedResult / 10)` and `encodedResult % 10 === 1`. */
  function Decode(encoded: int): (int, bool)
  {
    (Floor(encoded, 10), JsRemainder(encoded, 10) == 1)
  }

  /** `Math.floor(a / b)` for a positive divisor. */
  function Floor(a: int, b: int): (q: int)
    requires b > 0
    ensures q * b <= a < q * b + b
  {
    a / b
  }

  /** Decoding inverts the encoding for every score that is not negative. */
  lemma DecodeEncode(score: int, moved: bool)
    requires score >= 0
    ensures Decode(Encode(score, moved)) == (score, moved)
  {
    var e := Encode(score, moved);
    var f := if moved then 1 else 0;
    assert e == score * 10 + f;
    assert Floor(e, 10) == score by {
      var q := Floor(e, 10);
      assert q * 10 <= score * 10 + f < q * 10 + 10;
    }
  }

  /** With a negative score the decoding loses the flag: -1 with `moved` encodes as -9, decoded as (-1, false). */
  lemma DecodeNegative()
    ensures Encode(-1, true) == -9 && Decode(-9) == (-1, false)
  {
  }

  /**
   * `simulate_move` of lib.rs. The input buffer is reshaped and moved by `MoveRows`; the result is
   * flattened into the output buffer, and `moved` compares the whole input buffer with the 16 cells
   * written.
   */
  method SimulateMove(boardIn: array<int>, boardOut: array<int>, direction: int, mergeLimit: Limit)
    returns (encoded: int)
    requires boardIn.Length >= 16 && boardOut.Length == 16 && 0 <= direction < 256
    requires boardIn != boardOut
    modifies boardOut
    ensures var (after, score) := Moved(Reshape(boardIn[..]), direction, mergeLimit);
      boardOut[..] == Flatten(after) && encoded == Encode(score, boardIn[..] != Flatten(after))
  {
    var initialBoardState := boardIn[..];
    var tempBoard := BoardJsToRust(initialBoardState);
    var score;
    tempBoard, score := MoveRows(tempBoard, direction, mergeLimit);
    var finalBoardVec := Flatten(tempBoard);
    var moved := initialBoardState != finalBoardVec;
    forall k | 0 <= k < 16 {
      boardOut[k] := finalBoardVec[k];
    }
    assert boardOut[..] == finalBoardVec;
    assert boardIn[..] == initialBoardState;
    var movedFlag := if moved then 1 else 0;
    encoded := score * 10 + movedFlag;
  }

  /**
   * The middle of `simulate_move`: the board is transposed for up and down, and each row is
   * reversed for right and down, operated on, reversed back and stored; the board is transposed back.
   */
  method MoveRows(board: Grid, direction: int, mergeLimit: Limit) returns (tempBoard: Grid, score: int)
    requires IsBoard(board)
    ensures (tempBoard, score) == Moved(board, direction, mergeLimit)
  {
    tempBoard := board;
    score := 0;
    var transposed := direction == 0 || direction == 2;
    var reverse := direction == 1 || direction == 2;
    if transposed {
      tempBoard := TransposeBoard(tempBoard);
    }
    ghost var pre := tempBoard;
    RowsStart(pre, reverse, mergeLimit);
    for i := 0 to 4
      invariant RowsState(pre, tempBoard, i, score, reverse, mergeLimit)
    {
      var row := tempBoard[i];
      if reverse {
        row := Reversed(row);
      }
      var newRowVec, rowScore := OperateRow(row, mergeLimit);
      var newRowArray := newRowVec;
      if reverse {
        newRowArray := Reversed(newRowArray);
      }
      RowsStep(pre, tempBoard, i, score, reverse, mergeLimit, newRowArray, rowScore);
      score := score + rowScore;
      tempBoard := tempBoard[i := newRowArray];
    }
    RowsEnd(pre, tempBoard, score, reverse, mergeLimit);
    if transposed {
      tempBoard := TransposeBoard(tempBoard);
    }
  }

  /** The four directions of the JavaScript and TypeScript code. */
  datatype Direction = Up | Down | Left | Right

  /** The direction map of game.ts: up 0, right 1, down 2, left 3. */
  function Code(d: Direction): (code: int)
    ensures 0 <= code <= 3
    ensures (code == 0 <==> d == Up) && (code == 1 <==> d == Right) && (code == 2 <==> d == Down)
  {
    match d
    case Up => 0
    case Right => 1
    case Down => 2
    case Left => 3
  }

  /**
   * `simulateMove` of ai-worker.js, script.js, dist/main.js and dist/ai-worker.js: the board is
   * copied, transposed for up and down, each row is reversed for right and down, operated on by the
   * splice loop and reversed back, and the board is transposed back. `moved` is true exactly when the
   * result differs from the input (the string or JSON forms of two boards are equal exactly when the
   * boards are); the input is a value and is not changed. script.js has no limit: `Unlimited`.
   */
  method SimulateMoveJs(currentBoard: Grid, direction: Direction, mergeLimit: Limit)
    returns (board: Grid, moveScore: int, moved: bool)
    requires IsBoard(currentBoard)
    ensures (board, moveScore) == Moved(currentBoard, Code(direction), mergeLimit)
    ensures moved == (board != currentBoard)
  {
    var tempBoard := currentBoard;
    moveScore := 0;
    var vertical := direction == Up || direction == Down;
    var reverse := direction == Right || direction == Down;
    if vertical {
      tempBoard := Transposed(tempBoard);
    }
    ghost var pre := tempBoard;
    RowsStart(pre, reverse, mergeLimit);
    for i := 0 to 4
      invariant RowsState(pre, tempBoard, i, moveScore, reverse, mergeLimit)
    {
      var row := tempBoard[i];
      if reverse {
        row := Reversed(row);
      }
      var newRow, score := OperateRowSplice(row, mergeLimit);
      if reverse {
        newRow := Reversed(newRow);
      }
      RowsStep(pre, tempBoard, i, moveScore, reverse, mergeLimit, newRow, score);
      tempBoard := tempBoard[i := newRow];
      moveScore := moveScore + score;
    }
    RowsEnd(pre, tempBoard, moveScore, reverse, mergeLimit);
    if vertical {
      tempBoard := Transposed(tempBoard);
    }
    board := tempBoard;
    moved := board != currentBoard;
  }

  // ---------------------------------------------------------------- properties of the move

  /** Every code other than 0, 1 and 2 moves left, as 3 does. */
  lemma MovedOtherCode(g: Grid, direction: int, limit: Limit)
    requires IsBoard(g) && direction != 0 && direction != 1 && direction != 2
    ensures Moved(g, direction, limit) == Moved(g, 3, limit)
  {
  }

  lemma {:induction false} RowsMovedMirrored(g: Grid, n: nat, limit: Limit)
    requires IsBoard(g) && n <= 4
    ensures RowsMoved(g, n, true, limit).1 == RowsMoved(Mirrored(g), n, false, limit).1
  {
    if n > 0 {
      RowsMovedMirrored(g, n - 1, limit);
    }
  }

  /** Moving right is mirroring, moving left and mirroring back, with the same score. */
  lemma MovedRight(g: Grid, limit: Limit)
    requires IsBoard(g)
    ensures var (left, score) := Moved(Mirrored(g), 3, limit);
      Moved(g, 1, limit) == (Mirrored(left), score)
  {
    RowsMovedMirrored(g, 4, limit);
    SameBoard(Moved(g, 1, limit).0, Mirrored(Moved(Mirrored(g), 3, limit).0));
  }

  /** Moving up is transposing, moving left and transposing back, with the same score. */
  lemma MovedUp(g: Grid, limit: Limit)
    requires IsBoard(g)
    ensures var (left, score) := Moved(Transposed(g), 3, limit);
      Moved(g, 0, limit) == (Transposed(left), score)
  {
  }

  /** Moving down is transposing, moving right and transposing back, with the same score. */
  lemma MovedDown(g: Grid, limit: Limit)
    requires IsBoard(g)
    ensures var (right, score) := Moved(Transposed(g), 1, limit);
      Moved(g, 2, limit) == (Transposed(right), score)
  {
  }

  /** The total face value on a board. */
  function BoardSum(g: Grid): int
    requires IsBoard(g)
  {
    Sum(g[0]) + Sum(g[1]) + Sum(g[2]) + Sum(g[3])
  }

  lemma Sum4(s: seq<int>)
    requires |s| == 4
    ensures Sum(s) == s[0] + s[1] + s[2] + s[3]
  {
    var t := s[1..];
    var u := t[1..];
    var v := u[1..];
    assert v[1..] == [];
    assert Sum(v) == s[3];
    assert Sum(u) == s[2] + s[3];
    assert Sum(t) == s[1] + s[2] + s[3];
  }

  lemma BoardSumCells(g: Grid)
    requires IsBoard(g)
    ensures BoardSum(g) == g[0][0] + g[0][1] + g[0][2] + g[0][3] + g[1][0] + g[1][1] + g[1][2] + g[1][3]
      + g[2][0] + g[2][1] + g[2][2] + g[2][3] + g[3][0] + g[3][1] + g[3][2] + g[3][3]
  {
    Sum4(g[0]);
    Sum4(g[1]);
    Sum4(g[2]);
    Sum4(g[3]);
  }

  lemma TransposedSum(g: Grid)
    requires IsBoard(g)
    ensures BoardSum(Transposed(g)) == BoardSum(g)
  {
    BoardSumCells(g);
    BoardSumCells(Transposed(g));
  }

  lemma ReversedSum(s: seq<int>)
    requires |s| == 4
    ensures Sum(Reversed(s)) == Sum(s)
  {
    Sum4(s);
    Sum4(Reversed(s));
  }

  lemma MoveRowSum(row: seq<int>, reverse: bool, limit: Limit)
    requires |row| == 4
    ensures Sum(MoveRow(row, reverse, limit).0) == Sum(row)
  {
    if reverse {
      ReversedSum(row);
      OperatedShape(Reversed(row), limit);
      ReversedSum(Operated(Reversed(row), limit).0);
    } else {
      OperatedShape(row, limit);
    }
  }

  lemma RowsMovedSum(g: Grid, reverse: bool, limit: Limit)
    requires IsBoard(g)
    ensures BoardSum(RowsMoved(g, 4, reverse, limit).0) == BoardSum(g)
  {
    MoveRowSum(g[0], reverse, limit);
    MoveRowSum(g[1], reverse, limit);
    MoveRowSum(g[2], reverse, limit);
    MoveRowSum(g[3], reverse, limit);
  }

  /** A move keeps the total face value on the board: a merge of x and x leaves 2x. */
  lemma MovedSum(g: Grid, direction: int, limit: Limit)
    requires IsBoard(g)
    ensures BoardSum(Moved(g, direction, limit).0) == BoardSum(g)
  {
    var transposed := direction == 0 || direction == 2;
    var reverse := direction == 1 || direction == 2;
    if transposed {
      TransposedSum(g);
      RowsMovedSum(Transposed(g), reverse, limit);
      TransposedSum(RowsMoved(Transposed(g), 4, reverse, limit).0);
    } else {
      RowsMovedSum(g, reverse, limit);
    }
  }

  predicate NonNegative(g: Grid)
    requires IsBoard(g)
  {
    forall r, c | 0 <= r < 4 && 0 <= c < 4 :: g[r][c] >= 0
  }

  lemma {:induction false} RowsMovedScore(g: Grid, n: nat, reverse: bool, limit: Limit)
    requires n <= |g| && forall r, c | 0 <= r < n && 0 <= c < |g[r]| :: g[r][c] >= 0
    ensures RowsMoved(g, n, reverse, limit).1 >= 0
  {
    if n > 0 {
      RowsMovedScore(g, n - 1, reverse, limit);
      var row := if reverse then Reversed(g[n - 1]) else g[n - 1];
      OperatedScoreNonNegative(row, limit);
    }
  }

  /**
   * On a board of non-negative cells the score is non-negative, so the value `simulate_move`
   * returns decodes to the score and the flag.
   */
  lemma MovedScoreDecodes(g: Grid, direction: int, limit: Limit, moved: bool)
    requires IsBoard(g) && NonNegative(g)
    ensures Moved(g, direction, limit).1 >= 0
    ensures Decode(Encode(Moved(g, direction, limit).1, moved)) == (Moved(g, direction, limit).1, moved)
  {
    var transposed := direction == 0 || direction == 2;
    var pre := if transposed then Transposed(g) else g;
    RowsMovedScore(pre, 4, direction == 1 || direction == 2, limit);
    DecodeEncode(Moved(g, direction, limit).1, moved);
  }

  /** On non-negative cells a moved row scores between 0 and the total of the row. */
  lemma MoveRowScoreBound(row: seq<int>, reverse: bool, limit: Limit)
    requires |row| == 4 && forall k | 0 <= k < 4 :: row[k] >= 0
    ensures 0 <= MoveRow(row, reverse, limit).1 <= Sum(row)
  {
    if reverse {
      ReversedSum(row);
      OperatedScoreBound(Reversed(row), limit);
    } else {
      OperatedScoreBound(row, limit);
    }
  }

  lemma RowsMovedScoreBound(g: Grid, reverse: bool, limit: Limit)
    requires IsBoard(g) && NonNegative(g)
    ensures 0 <= RowsMoved(g, 4, reverse, limit).1 <= BoardSum(g)
  {
    MoveRowScoreBound(g[0], reverse, limit);
    MoveRowScoreBound(g[1], reverse, limit);
    MoveRowScoreBound(g[2], reverse, limit);
    MoveRowScoreBound(g[3], reverse, limit);
    assert RowsMoved(g, 1, reverse, limit).1 == MoveRow(g[0], reverse, limit).1;
    assert RowsMoved(g, 2, reverse, limit).1 == RowsMoved(g, 1, reverse, limit).1 + MoveRow(g[1], reverse, limit).1;
    assert RowsMoved(g, 3, reverse, limit).1 == RowsMoved(g, 2, reverse, limit).1 + MoveRow(g[2], reverse, limit).1;
    assert RowsMoved(g, 4, reverse, limit).1 == RowsMoved(g, 3, reverse, limit).1 + MoveRow(g[3], reverse, limit).1;
  }

  /** On a board of non-negative cells a move scores between 0 and the total face value of the board. */
  lemma MovedScoreBound(g: Grid, direction: int, limit: Limit)
    requires IsBoard(g) && NonNegative(g)
    ensures 0 <= Moved(g, direction, limit).1 <= BoardSum(g)
  {
    if direction == 0 || direction == 2 {
      TransposedSum(g);
      RowsMovedScoreBound(Transposed(g), direction == 2, limit);
    } else {
      RowsMovedScoreBound(g, direction == 1, limit);
    }
  }

  /** The largest `i32`. */
  const I32Max: int := 0x7fff_ffff

  /** 2^23, the largest tile for which `simulate_move` is shown to stay within `i32`. */
  const I32SafeTile: int := 0x80_0000

  /**
   * When no cell is negative or above 2^23, the score of a move is at most 2^27 and the value
   * `simulate_move` returns, score * 10 + moved, fits an `i32`. Then no `merged_val as i32`
   * saturates and no `i32` addition or multiplication of lib.rs overflows, as every merged value
   * and every partial sum is at most the score.
   */
  lemma MovedFitsI32(g: Grid, direction: int, limit: Limit, moved: bool)
    requires IsBoard(g) && NonNegative(g)
    requires forall r, c | 0 <= r < 4 && 0 <= c < 4 :: g[r][c] <= I32SafeTile
    ensures 0 <= Moved(g, direction, limit).1 <= 16 * I32SafeTile
    ensures 0 <= Encode(Moved(g, direction, limit).1, moved) <= I32Max
  {
    MovedScoreBound(g, direction, limit);
    BoardSumCells(g);
  }

  // ---------------------------------------------------------------- agreement with the exponent slide

  /** A board of exponents. */
  predicate IsExponentBoard(e: seq<seq<nat>>)
  {
    |e| == 4 && forall r | 0 <= r < 4 :: |e[r]| == 4
  }

  /** A board of exponents as the face values the simulators work on. */
  function FaceBoardOf(e: seq<seq<nat>>): (g: Grid)
    requires IsExponentBoard(e)
    ensures IsBoard(g) && forall r | 0 <= r < 4 :: g[r] == Faces(e[r])
  {
    seq(4, r requires 0 <= r < 4 => Faces(e[r]))
  }

  /** The score of the exponent slide of the first n rows. */
  function SlideScores(e: seq<seq<nat>>, n: nat): int
    requires n <= |e| && forall r | 0 <= r < n :: |e[r]| == 4
  {
    if n == 0 then 0 else SlideScores(e, n - 1) + SlideScore(e[n - 1]) as int
  }

  lemma {:induction false} RowsMovedSlide(e: seq<seq<nat>>, n: nat, limit: Limit)
    requires IsExponentBoard(e) && n <= 4
    requires forall r, c | 0 <= r < 4 && 0 <= c < 4 :: BelowLimit(Face(e[r][c]), limit)
    ensures RowsMoved(FaceBoardOf(e), n, false, limit).1 == SlideScores(e, n)
    ensures forall r | 0 <= r < n :: RowsMoved(FaceBoardOf(e), n, false, limit).0[r] == Faces(SlideLeft(e[r]))
  {
    if n > 0 {
      RowsMovedSlide(e, n - 1, limit);
      forall r | 0 <= r < n
        ensures Operated(Faces(e[r]), limit) == (Faces(SlideLeft(e[r])), SlideScore(e[r]) as int)
      {
        OperatedIsSlideLeft(e[r], limit);
      }
    }
  }

  /**
   * On a board of powers of two whose tiles are all below the merge limit (every board when there is
   * no limit), the face-value left move is the exponent slide of tables.rs on every row, seen
   * through 2^e, and scores the sum of the row scores.
   */
  lemma MovedLeftIsSlideLeft(e: seq<seq<nat>>, limit: Limit)
    requires IsExponentBoard(e)
    requires forall r, c | 0 <= r < 4 && 0 <= c < 4 :: BelowLimit(Face(e[r][c]), limit)
    ensures var (after, score) := Moved(FaceBoardOf(e), 3, limit);
      (forall r | 0 <= r < 4 :: after[r] == Faces(SlideLeft(e[r]))) && score == SlideScores(e, 4)
  {
    RowsMovedSlide(e, 4, limit);
  }

  // ---------------------------------------------------------------- the TypeScript wrapper

  /** `Number.MAX_SAFE_INTEGER`, which game.ts passes when the merge limit is not finite. */
  const MaxSafeInteger: int := 9007199254740991

  /** The limit game.ts hands to `simulate_move`. */
  function SafeLimit(mergeLimit: Limit): (l: Limit)
    ensures l.Finite?
  {
    if mergeLimit.Unlimited? then Finite(MaxSafeInteger as real) else mergeLimit
  }

  /** Below 2^53 - 1 the substituted limit lets every pair merge, as no limit does. */
  lemma SafeLimitAgrees(x: int)
    requires x < MaxSafeInteger
    ensures BelowLimit(x, SafeLimit(Unlimited)) == BelowLimit(x, Unlimited)
  {
  }

  /** `[].concat(...rows)`: the rows of any board one after the other. */
  function Concat(g: Grid): seq<int>
  {
    if |g| == 0 then [] else Concat(g[..|g| - 1]) + g[|g| - 1]
  }

  lemma ConcatBoard(g: Grid)
    requires IsBoard(g)
    ensures Concat(g) == Flatten(g)
  {
    var g1, g2, g3 := g[..1], g[..2], g[..3];
    assert g1[..0] == [] && g2[..1] == g1 && g3[..2] == g2;
    assert Concat(g1) == g[0];
    assert Concat(g2) == g[0] + g[1];
    assert Concat(g3) == g[0] + g[1] + g[2];
  }

  /**
   * `simulateMove` of game.ts. The board is flattened into an input buffer and the move runs in
   * `simulate_move` with the limit `SafeLimit`; the returned value is decoded and the output buffer
   * cut into rows. A board with fewer than 16 cells makes `simulate_move` fail, and the failure is
   * answered with the board itself, score 0 and `moved` false.
   */
  method SimulateMoveTs(currentBoard: Grid, direction: Direction, mergeLimit: Limit)
    returns (board: Grid, score: int, moved: bool)
    ensures |Concat(currentBoard)| < 16 ==> (board, score, moved) == (currentBoard, 0, false)
    ensures IsBoard(currentBoard) ==>
      var (after, s) := Moved(currentBoard, Code(direction), SafeLimit(mergeLimit));
      board == after && Decode(Encode(s, after != currentBoard)) == (score, moved)
    ensures IsBoard(currentBoard) && NonNegative(currentBoard) ==>
      score == Moved(currentBoard, Code(direction), SafeLimit(mergeLimit)).1 && moved == (board != currentBoard)
  {
    var flat := Concat(currentBoard);
    if |flat| < 16 {
      if IsBoard(currentBoard) {
        ConcatBoard(currentBoard);
      }
      return currentBoard, 0, false;
    }
    var boardIn := new int[|flat|](k requires 0 <= k < |flat| => flat[k]);
    var boardOut := new int[16];
    var dir := Code(direction);
    var safeMergeLimit := SafeLimit(mergeLimit);
    assert boardIn[..] == flat;
    var encodedResult := SimulateMove(boardIn, boardOut, dir, safeMergeLimit);
    assert boardIn[..] == flat;
    score := Floor(encodedResult, 10);
    moved := JsRemainder(encodedResult, 10) == 1;
    var out := boardOut[..];
    board := CutRows(out);
    if IsBoard(currentBoard) {
      ConcatBoard(currentBoard);
      ReshapeFlatten(currentBoard);
      var (after, s) := Moved(currentBoard, dir, safeMergeLimit);
      TsDecoded(currentBoard, board, out, after);
      assert encodedResult == Encode(s, after != currentBoard);
      if NonNegative(currentBoard) {
        MovedScoreDecodes(currentBoard, dir, safeMergeLimit, after != currentBoard);
      }
    }
  }

  /** The loop of `simulateMove` in game.ts that cuts the output buffer into four rows. */
  method CutRows(boardOut: seq<int>) returns (newBoard: Grid)
    requires |boardOut| == 16
    ensures |newBoard| == 4 && forall k | 0 <= k < 4 :: newBoard[k] == boardOut[4 * k..4 * k + 4]
  {
    newBoard := [];
    for i := 0 to 4
      invariant |newBoard| == i && forall k | 0 <= k < i :: newBoard[k] == boardOut[4 * k..4 * k + 4]
    {
      newBoard := newBoard + [boardOut[i * 4..(i + 1) * 4]];
    }
  }

  /** The rows cut from the output buffer of a board are that board, and the buffer differs from the input exactly when the board does. */
  lemma TsDecoded(current: Grid, board: Grid, out: seq<int>, after: Grid)
    requires IsBoard(current) && IsBoard(after) && |out| == 16 && |board| == 4
    requires forall k | 0 <= k < 4 :: board[k] == out[4 * k..4 * k + 4]
    requires out == Flatten(after)
    ensures board == after
    ensures (Flatten(current) != out) == (current != board)
  {
    ReshapeFlatten(after);
    ReshapeFlatten(current);
    assert board == Reshape(out) by {
      forall k | 0 <= k < 4
        ensures board[k] == Reshape(out)[k]
      {
      }
    }
    if Flatten(current) == out {
      assert Reshape(Flatten(current)) == Reshape(out);
    }
  }
}
