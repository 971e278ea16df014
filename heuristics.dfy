/**
 * The heuristic sub-scores of wasm-lib/src/ai.rs (`calculate_metrics`) and the weighted sum of
 * `evaluate_board`.
 *
 * Every quantity `calculate_metrics` computes is an integer far below 2^53 (at most 24 squares of
 * exponents up to 15), so the f64 arithmetic of the source is exact and is modelled on `int`.
 */
module Heuristics {
  import opened Board

  /** The exponent at row r, column c, as a number: `(board >> (r * 16 + c * 4)) & 0xF`. */
  function Exp(b: Board, r: int, c: int): nat
    requires 0 <= r < 4 && 0 <= c < 4
  {
    Tile(b, r, c) as int
  }

  /** A 4x4 grid of numbers, indexed g[r][c]. */
  predicate IsGrid(g: seq<seq<nat>>)
  {
    |g| == 4 && forall r | 0 <= r < 4 :: |g[r]| == 4
  }

  /** The sixteen exponents `calculate_metrics` reads from a board, as a grid. */
  function ExpGrid(b: Board): (g: seq<seq<nat>>)
    ensures IsGrid(g)
  {
    [[Exp(b, 0, 0), Exp(b, 0, 1), Exp(b, 0, 2), Exp(b, 0, 3)],
     [Exp(b, 1, 0), Exp(b, 1, 1), Exp(b, 1, 2), Exp(b, 1, 3)],
     [Exp(b, 2, 0), Exp(b, 2, 1), Exp(b, 2, 2), Exp(b, 2, 3)],
     [Exp(b, 3, 0), Exp(b, 3, 1), Exp(b, 3, 2), Exp(b, 3, 3)]]
  }

  /** Element j of line i: row i when `vertical` is false, column i when it is true. */
  function LineExp(g: seq<seq<nat>>, vertical: bool, i: int, j: int): nat
    requires IsGrid(g) && 0 <= i < 4 && 0 <= j < 4
  {
    if vertical then g[j][i] else g[i][j]
  }

  /** `(x as f64).powi(2)` */
  function Square(x: nat): nat
  {
    x * x
  }

  /** What a step from x to y adds to the "decreasing" total (totals[0] for columns, totals[2] for rows). */
  function DecTerm(x: nat, y: nat): int
  {
    if x > y then Square(y) - Square(x) else 0
  }

  /** What a step from x to y adds to the "increasing" total (totals[1] for columns, totals[3] for rows). */
  function IncTerm(x: nat, y: nat): int
  {
    if x > y then 0 else Square(x) - Square(y)
  }

  /** Line i of a grid as a sequence: row i when `vertical` is false, column i when it is true. */
  function Line(g: seq<seq<nat>>, vertical: bool, i: int): (line: seq<nat>)
    requires IsGrid(g) && 0 <= i < 4
    ensures |line| == 4 && forall j | 0 <= j < 4 :: line[j] == LineExp(g, vertical, i, j)
  {
    [LineExp(g, vertical, i, 0), LineExp(g, vertical, i, 1), LineExp(g, vertical, i, 2), LineExp(g, vertical, i, 3)]
  }

  /** The decreasing total over the first k steps of a line. */
  function LineDec(line: seq<nat>, k: int): int
    requires 0 <= k < |line|
  {
    if k == 0 then 0 else LineDec(line, k - 1) + DecTerm(line[k - 1], line[k])
  }

  /** The increasing total over the first k steps of a line. */
  function LineInc(line: seq<nat>, k: int): int
    requires 0 <= k < |line|
  {
    if k == 0 then 0 else LineInc(line, k - 1) + IncTerm(line[k - 1], line[k])
  }

  /** The decreasing total over lines 0..n-1. */
  function LinesDec(g: seq<seq<nat>>, vertical: bool, n: int): int
    requires IsGrid(g) && 0 <= n <= 4
  {
    if n == 0 then 0 else LinesDec(g, vertical, n - 1) + LineDec(Line(g, vertical, n - 1), 3)
  }

  /** The increasing total over lines 0..n-1. */
  function LinesInc(g: seq<seq<nat>>, vertical: bool, n: int): int
    requires IsGrid(g) && 0 <= n <= 4
  {
    if n == 0 then 0 else LinesInc(g, vertical, n - 1) + LineInc(Line(g, vertical, n - 1), 3)
  }

  function Max(x: int, y: int): int
  {
    if x >= y then x else y
  }

  /** The monotonicity of a grid: the better of the two column totals plus the better of the two row totals. */
  function Monotonicity(g: seq<seq<nat>>): int
    requires IsGrid(g)
  {
    Max(LinesDec(g, true, 4), LinesInc(g, true, 4)) + Max(LinesDec(g, false, 4), LinesInc(g, false, 4))
  }

  /** `((x as f64) - (y as f64)).abs()` */
  function Distance(x: nat, y: nat): nat
  {
    if x >= y then x - y else y - x
  }

  /** The distance from a tile to a neighbour, or 0 when the neighbour is empty. */
  function NeighbourPenalty(t: nat, n: nat): nat
  {
    if n != 0 then Distance(t, n) else 0
  }

  /** What tile (r, c) costs the smoothness: its distance to each nonzero right and lower neighbour, 0 for an empty tile. */
  function Penalty(g: seq<seq<nat>>, r: int, c: int): nat
    requires IsGrid(g) && 0 <= r < 4 && 0 <= c < 4
  {
    if g[r][c] == 0 then 0
    else (if c < 3 then NeighbourPenalty(g[r][c], g[r][c + 1]) else 0) + (if r < 3 then NeighbourPenalty(g[r][c], g[r + 1][c]) else 0)
  }

  /** The penalties of tiles (r, 0) .. (r, c-1). */
  function RowPenalty(g: seq<seq<nat>>, r: int, c: int): nat
    requires IsGrid(g) && 0 <= r < 4 && 0 <= c <= 4
  {
    if c == 0 then 0 else RowPenalty(g, r, c - 1) + Penalty(g, r, c - 1)
  }

  /** The penalties of rows 0 .. r-1. */
  function RowsPenalty(g: seq<seq<nat>>, r: int): nat
    requires IsGrid(g) && 0 <= r <= 4
  {
    if r == 0 then 0 else RowsPenalty(g, r - 1) + RowPenalty(g, r - 1, 4)
  }

  /** The smoothness of a grid: minus the penalties of all its tiles. */
  function Smoothness(g: seq<seq<nat>>): int
    requires IsGrid(g)
  {
    -(RowsPenalty(g, 4) as int)
  }

  /** The largest of `m` and the tiles (r, 0) .. (r, c-1). */
  function RowMax(g: seq<seq<nat>>, r: int, c: int, m: nat): nat
    requires IsGrid(g) && 0 <= r < 4 && 0 <= c <= 4
  {
    if c == 0 then m else Max(RowMax(g, r, c - 1, m), g[r][c - 1])
  }

  /** The largest tile in rows 0 .. r-1, or 0. */
  function RowsMax(g: seq<seq<nat>>, r: int): nat
    requires IsGrid(g) && 0 <= r <= 4
  {
    if r == 0 then 0 else RowMax(g, r - 1, 4, RowsMax(g, r - 1))
  }

  /** The largest tile of a grid (0 for an empty grid). */
  function MaxTile(g: seq<seq<nat>>): nat
    requires IsGrid(g)
  {
    RowsMax(g, 4)
  }

  /**
   * `calculate_metrics`: the monotonicity from the first loop nest, then smoothness and the largest
   * exponent from the second, all over the board's exponents.
   */
  method CalculateMetrics(board: Board) returns (monotonicity: int, smoothness: int, maxTile: nat)
    ensures monotonicity == Monotonicity(ExpGrid(board))
    ensures smoothness == Smoothness(ExpGrid(board))
    ensures maxTile == MaxTile(ExpGrid(board))
  {
    var g := ExpGrid(board);
    monotonicity := MonotonicityLoop(g);
    smoothness, maxTile := SmoothnessLoop(g);
  }

  /**
   * The first loop nest of `calculate_metrics`: row i and column i are read into two small arrays and
   * each of their three steps is added to one of the four totals; the result is the better column total
   * plus the better row total.
   */
  method MonotonicityLoop(g: seq<seq<nat>>) returns (monotonicity: int)
    requires IsGrid(g)
    ensures monotonicity == Monotonicity(g)
  {
    // totals: up, down, left, right
    var totals: seq<int> := [0, 0, 0, 0];
    var i := 0;
    while i < 4
      invariant 0 <= i <= 4 && |totals| == 4
      invariant totals[0] == LinesDec(g, true, i) && totals[1] == LinesInc(g, true, i)
      invariant totals[2] == LinesDec(g, false, i) && totals[3] == LinesInc(g, false, i)
    {
      var rowTiles: seq<nat> := [0, 0, 0, 0];
      var colTiles: seq<nat> := [0, 0, 0, 0];
      var j := 0;
      while j < 4
        invariant 0 <= j <= 4 && |rowTiles| == 4 && |colTiles| == 4
        invariant forall j' | 0 <= j' < j :: rowTiles[j'] == g[i][j'] && colTiles[j'] == g[j'][i]
      {
        rowTiles := rowTiles[j := g[i][j]];
        colTiles := colTiles[j := g[j][i]];
        j := j + 1;
      }
      assert rowTiles == Line(g, false, i) && colTiles == Line(g, true, i);
      var k := 0;
      while k < 3
        invariant 0 <= k <= 3 && |totals| == 4
        invariant totals[0] == LinesDec(g, true, i) + LineDec(colTiles, k)
        invariant totals[1] == LinesInc(g, true, i) + LineInc(colTiles, k)
        invariant totals[2] == LinesDec(g, false, i) + LineDec(rowTiles, k)
        invariant totals[3] == LinesInc(g, false, i) + LineInc(rowTiles, k)
      {
        if rowTiles[k] > rowTiles[k + 1] {
          totals := totals[2 := totals[2] + (Square(rowTiles[k + 1]) - Square(rowTiles[k]))];
        } else {
          totals := totals[3 := totals[3] + (Square(rowTiles[k]) - Square(rowTiles[k + 1]))];
        }
        if colTiles[k] > colTiles[k + 1] {
          totals := totals[0 := totals[0] + (Square(colTiles[k + 1]) - Square(colTiles[k]))];
        } else {
          totals := totals[1 := totals[1] + (Square(colTiles[k]) - Square(colTiles[k + 1]))];
        }
        k := k + 1;
      }
      i := i + 1;
    }
    monotonicity := Max(totals[0], totals[1]) + Max(totals[2], totals[3]);
  }

  /**
   * The second loop nest of `calculate_metrics`: every nonzero tile raises the maximum and subtracts its
   * distance to its nonzero right and lower neighbours.
   */
  method SmoothnessLoop(g: seq<seq<nat>>) returns (smoothness: int, maxTile: nat)
    requires IsGrid(g)
    ensures smoothness == Smoothness(g)
    ensures maxTile == MaxTile(g)
  {
    smoothness := 0;
    maxTile := 0;
    var r := 0;
    while r < 4
      invariant 0 <= r <= 4
      invariant smoothness == -(RowsPenalty(g, r) as int) && maxTile == RowsMax(g, r)
    {
      var c := 0;
      while c < 4
        invariant 0 <= c <= 4
        invariant smoothness == -(RowsPenalty(g, r) + RowPenalty(g, r, c))
        invariant maxTile == RowMax(g, r, c, RowsMax(g, r))
      {
        var tileVal := g[r][c];
        if tileVal != 0 {
          maxTile := Max(maxTile, tileVal);
          if c < 3 {
            var rightVal := g[r][c + 1];
            if rightVal != 0 {
              smoothness := smoothness - Distance(tileVal, rightVal);
            }
          }
          if r < 3 {
            var downVal := g[r + 1][c];
            if downVal != 0 {
              smoothness := smoothness - Distance(tileVal, downVal);
            }
          }
        }
        c := c + 1;
      }
      r := r + 1;
    }
  }

  // ---------------------------------------------------------------- properties of the sub-scores

  lemma SquareStrict(x: nat, y: nat)
    requires x > y
    ensures Square(y) < Square(x)
  {
    assert Square(x) - Square(y) == (x - y) * (x + y);
  }

  /** A decreasing step costs the decreasing total, anything else leaves it; likewise for the increasing total. */
  lemma StepTerms(x: nat, y: nat)
    ensures DecTerm(x, y) <= 0 && (DecTerm(x, y) == 0 <==> x <= y)
    ensures IncTerm(x, y) <= 0 && (IncTerm(x, y) == 0 <==> x >= y)
  {
    if x > y {
      SquareStrict(x, y);
    } else if x < y {
      SquareStrict(y, x);
    }
  }

  /** The four tiles of a line never go down. */
  predicate Ascending(line: seq<nat>)
    requires |line| == 4
  {
    forall k | 0 <= k < 3 :: line[k] <= line[k + 1]
  }

  /** The four tiles of a line never go up. */
  predicate Descending(line: seq<nat>)
    requires |line| == 4
  {
    forall k | 0 <= k < 3 :: line[k] >= line[k + 1]
  }

  /** The decreasing total of a line is at most 0, and 0 exactly when its first k steps never go down. */
  lemma {:induction false} LineDecZero(line: seq<nat>, k: int)
    requires 0 <= k < |line|
    ensures LineDec(line, k) <= 0
    ensures LineDec(line, k) == 0 <==> forall k' | 0 <= k' < k :: line[k'] <= line[k' + 1]
  {
    if k > 0 {
      LineDecZero(line, k - 1);
      StepTerms(line[k - 1], line[k]);
    }
  }

  /** The increasing total of a line is at most 0, and 0 exactly when its first k steps never go up. */
  lemma {:induction false} LineIncZero(line: seq<nat>, k: int)
    requires 0 <= k < |line|
    ensures LineInc(line, k) <= 0
    ensures LineInc(line, k) == 0 <==> forall k' | 0 <= k' < k :: line[k'] >= line[k' + 1]
  {
    if k > 0 {
      LineIncZero(line, k - 1);
      StepTerms(line[k - 1], line[k]);
    }
  }

  /** Lines 0..n-1 (rows, or columns when `vertical`) never go down from one tile to the next. */
  predicate NonDecreasing(g: seq<seq<nat>>, vertical: bool, n: int)
    requires IsGrid(g) && 0 <= n <= 4
  {
    forall i | 0 <= i < n :: Ascending(Line(g, vertical, i))
  }

  /** Lines 0..n-1 never go up from one tile to the next. */
  predicate NonIncreasing(g: seq<seq<nat>>, vertical: bool, n: int)
    requires IsGrid(g) && 0 <= n <= 4
  {
    forall i | 0 <= i < n :: Descending(Line(g, vertical, i))
  }

  lemma {:induction false} LinesDecZero(g: seq<seq<nat>>, vertical: bool, n: int)
    requires IsGrid(g) && 0 <= n <= 4
    ensures LinesDec(g, vertical, n) <= 0
    ensures LinesDec(g, vertical, n) == 0 <==> NonDecreasing(g, vertical, n)
  {
    if n > 0 {
      LinesDecZero(g, vertical, n - 1);
      LineDecZero(Line(g, vertical, n - 1), 3);
    }
  }

  lemma {:induction false} LinesIncZero(g: seq<seq<nat>>, vertical: bool, n: int)
    requires IsGrid(g) && 0 <= n <= 4
    ensures LinesInc(g, vertical, n) <= 0
    ensures LinesInc(g, vertical, n) == 0 <==> NonIncreasing(g, vertical, n)
  {
    if n > 0 {
      LinesIncZero(g, vertical, n - 1);
      LineIncZero(Line(g, vertical, n - 1), 3);
    }
  }

  /**
   * Monotonicity is never positive, and it is 0 exactly when all columns run the same way (all
   * non-decreasing or all non-increasing downwards) and all rows run the same way.
   */
  lemma MonotonicityZero(g: seq<seq<nat>>)
    requires IsGrid(g)
    ensures Monotonicity(g) <= 0
    ensures Monotonicity(g) == 0 <==>
      (NonDecreasing(g, true, 4) || NonIncreasing(g, true, 4)) && (NonDecreasing(g, false, 4) || NonIncreasing(g, false, 4))
  {
    LinesDecZero(g, true, 4);
    LinesIncZero(g, true, 4);
    LinesDecZero(g, false, 4);
    LinesIncZero(g, false, 4);
  }

  /** Every pair of nonzero neighbours in rows 0..r-1 (and the row below each) holds equal tiles. */
  predicate SmoothRows(g: seq<seq<nat>>, r: int)
    requires IsGrid(g) && 0 <= r <= 4
  {
    forall r', c | 0 <= r' < r && 0 <= c < 4 :: SmoothAt(g, r', c)
  }

  /** Tile (r, c) equals each nonzero right and lower neighbour, or is empty. */
  predicate SmoothAt(g: seq<seq<nat>>, r: int, c: int)
    requires IsGrid(g) && 0 <= r < 4 && 0 <= c < 4
  {
    g[r][c] != 0 ==>
      (c < 3 && g[r][c + 1] != 0 ==> g[r][c] == g[r][c + 1]) && (r < 3 && g[r + 1][c] != 0 ==> g[r][c] == g[r + 1][c])
  }

  lemma PenaltyZero(g: seq<seq<nat>>, r: int, c: int)
    requires IsGrid(g) && 0 <= r < 4 && 0 <= c < 4
    ensures Penalty(g, r, c) == 0 <==> SmoothAt(g, r, c)
  {
  }

  lemma {:induction false} RowPenaltyZero(g: seq<seq<nat>>, r: int, c: int)
    requires IsGrid(g) && 0 <= r < 4 && 0 <= c <= 4
    ensures RowPenalty(g, r, c) == 0 <==> forall c' | 0 <= c' < c :: SmoothAt(g, r, c')
  {
    if c > 0 {
      RowPenaltyZero(g, r, c - 1);
      PenaltyZero(g, r, c - 1);
    }
  }

  lemma {:induction false} RowsPenaltyZero(g: seq<seq<nat>>, r: int)
    requires IsGrid(g) && 0 <= r <= 4
    ensures RowsPenalty(g, r) == 0 <==> SmoothRows(g, r)
  {
    if r > 0 {
      RowsPenaltyZero(g, r - 1);
      RowPenaltyZero(g, r - 1, 4);
    }
  }

  /**
   * Smoothness is never positive, and it is 0 exactly when every two horizontally or vertically
   * adjacent nonzero tiles are equal.
   */
  lemma SmoothnessZero(g: seq<seq<nat>>)
    requires IsGrid(g)
    ensures Smoothness(g) <= 0
    ensures Smoothness(g) == 0 <==> SmoothRows(g, 4)
  {
    RowsPenaltyZero(g, 4);
  }

  lemma {:induction false} RowMaxBounds(g: seq<seq<nat>>, r: int, c: int, m: nat)
    requires IsGrid(g) && 0 <= r < 4 && 0 <= c <= 4
    ensures m <= RowMax(g, r, c, m) && forall c' | 0 <= c' < c :: g[r][c'] <= RowMax(g, r, c, m)
    ensures RowMax(g, r, c, m) == m || exists c' | 0 <= c' < c :: g[r][c'] == RowMax(g, r, c, m)
  {
    if c > 0 {
      RowMaxBounds(g, r, c - 1, m);
    }
  }

  lemma {:induction false} RowsMaxBounds(g: seq<seq<nat>>, r: int)
    requires IsGrid(g) && 0 <= r <= 4
    ensures forall r', c | 0 <= r' < r && 0 <= c < 4 :: g[r'][c] <= RowsMax(g, r)
    ensures RowsMax(g, r) == 0 || exists r', c | 0 <= r' < r && 0 <= c < 4 :: g[r'][c] == RowsMax(g, r)
  {
    if r > 0 {
      RowsMaxBounds(g, r - 1);
      RowMaxBounds(g, r - 1, 4, RowsMax(g, r - 1));
    }
  }

  /** The maximum is at least every tile and is one of the tiles. */
  lemma MaxTileIsMax(g: seq<seq<nat>>)
    requires IsGrid(g)
    ensures forall r, c | 0 <= r < 4 && 0 <= c < 4 :: g[r][c] <= MaxTile(g)
    ensures exists r, c | 0 <= r < 4 && 0 <= c < 4 :: g[r][c] == MaxTile(g)
  {
    RowsMaxBounds(g, 4);
    if MaxTile(g) == 0 {
      assert g[0][0] == 0;
    }
  }

  // ---------------------------------------------------------------- evaluate_board

  const MonotonicityWeight: real := 4.0
  const SmoothnessWeight: real := 0.1
  const EmptyCellsWeight: real := 2.7
  const MaxTileWeight: real := 1.0

  /**
   * The heuristic value of a board: the weighted sum of monotonicity, smoothness, `ln_1p` of the
   * number of empty cells and the largest exponent. `ln1p` stands for f64's `ln_1p`.
   */
  function Evaluation(board: Board, ln1p: real -> real): real
  {
    var g := ExpGrid(board);
    Monotonicity(g) as real * MonotonicityWeight + Smoothness(g) as real * SmoothnessWeight
      + ln1p(|EmptyCells(board)| as real) * EmptyCellsWeight + MaxTile(g) as real * MaxTileWeight
  }

  /** `evaluate_board`: counts the empty cells, computes the three sub-scores and weighs them. */
  method EvaluateBoard(board: Board, ln1p: real -> real) returns (value: real)
    ensures value == Evaluation(board, ln1p)
  {
    var emptyCells := CountEmpty(board);
    var mono, smoothness, maxTile := CalculateMetrics(board);
    value := mono as real * MonotonicityWeight + smoothness as real * SmoothnessWeight
      + ln1p(emptyCells as real) * EmptyCellsWeight + maxTile as real * MaxTileWeight;
  }

  /**
   * Monotonicity and smoothness only ever lower the value: a board is worth at most its empty-cell
   * term plus its largest exponent, and exactly that when it is monotone and smooth.
   */
  lemma EvaluationBound(board: Board, ln1p: real -> real)
    ensures Evaluation(board, ln1p) <= ln1p(|EmptyCells(board)| as real) * EmptyCellsWeight + MaxTile(ExpGrid(board)) as real
    ensures Evaluation(board, ln1p) == ln1p(|EmptyCells(board)| as real) * EmptyCellsWeight + MaxTile(ExpGrid(board)) as real
      <==> Monotonicity(ExpGrid(board)) == 0 && Smoothness(ExpGrid(board)) == 0
  {
    MonotonicityZero(ExpGrid(board));
    SmoothnessZero(ExpGrid(board));
  }
}
