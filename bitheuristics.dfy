/**
 * The heuristic of wasm-lib/src/bitboard.rs: `evaluate_bitboard` and the sub-scores it adds up,
 * `calculate_smoothness_bitboard`, `calculate_monotonicity_bitboard` and `get_max_tile_bitboard`.
 *
 * `get_tile(board, r, c)` is the exponent at row r, column c, so the sub-scores are read from the grid
 * `ExpGrid(board)` of the ai.rs heuristic. Every sub-score is an integer far below 2^24, so the f32
 * arithmetic of the source is exact for them and they are modelled on `int`; only the final weighted sum
 * is `real`.
 */
module BitboardHeuristics {
  import opened Board
  import opened Heuristics

  // ---------------------------------------------------------------- get_max_tile_bitboard

  /** The largest of the exponents of cells 0..n-1, or 0. */
  function NibbleMaxBelow(b: Board, n: int): nat
    requires 0 <= n <= 16
  {
    if n == 0 then 0 else Max(NibbleMaxBelow(b, n - 1), Nibble(b, n - 1) as int)
  }

  lemma {:induction false} NibbleMaxBelowBounds(b: Board, n: int)
    requires 0 <= n <= 16
    ensures forall i | 0 <= i < n :: Nibble(b, i) as int <= NibbleMaxBelow(b, n)
    ensures NibbleMaxBelow(b, n) == 0 || exists i | 0 <= i < n :: Nibble(b, i) as int == NibbleMaxBelow(b, n)
  {
    if n > 0 {
      NibbleMaxBelowBounds(b, n - 1);
    }
  }

  /** `get_max_tile_bitboard`: the largest exponent on the board, 0 for the empty board. */
  method MaxTileBitboard(board: Board) returns (maxPower: nat)
    ensures maxPower == NibbleMaxBelow(board, 16)
    ensures forall i | 0 <= i < 16 :: Nibble(board, i) as int <= maxPower
    ensures exists i | 0 <= i < 16 :: Nibble(board, i) as int == maxPower
  {
    maxPower := 0;
    for i := 0 to 16
      invariant maxPower == NibbleMaxBelow(board, i)
    {
      var power := Nibble(board, i) as int;
      if power > maxPower {
        maxPower := power;
      }
    }
    NibbleMaxBelowBounds(board, 16);
    if maxPower == 0 {
      assert Nibble(board, 0) as int == 0;
    }
  }

  // ---------------------------------------------------------------- calculate_smoothness_bitboard

  /**
   * `calculate_smoothness_bitboard`: the same double loop as the smoothness part of ai.rs
   * `calculate_metrics`, so its value is `Smoothness` of the exponent grid.
   */
  method SmoothnessBitboard(board: Board) returns (smoothness: int)
    ensures smoothness == Smoothness(ExpGrid(board))
  {
    var g := ExpGrid(board);
    smoothness := 0;
    for r := 0 to 4
      invariant smoothness == -(RowsPenalty(g, r) as int)
    {
      for c := 0 to 4
        invariant smoothness == -(RowsPenalty(g, r) + RowPenalty(g, r, c))
      {
        var tilePower := g[r][c];
        if tilePower != 0 {
          if c < 3 {
            var rightPower := g[r][c + 1];
            if rightPower != 0 {
              smoothness := smoothness - Distance(tilePower, rightPower);
            }
          }
          if r < 3 {
            var downPower := g[r + 1][c];
            if downPower != 0 {
              smoothness := smoothness - Distance(tilePower, downPower);
            }
          }
        }
      }
    }
  }

  // ---------------------------------------------------------------- calculate_monotonicity_bitboard

  /** The first index from j on whose tile is not 0, or 4 when there is none (the inner `while`). */
  function NextNonzero(line: seq<nat>, j: int): (k: int)
    requires |line| == 4 && 0 <= j <= 4
    ensures j <= k <= 4 && (k < 4 ==> line[k] != 0)
    ensures forall m | j <= m < k :: line[m] == 0
    decreases 4 - j
  {
    if j < 4 && line[j] == 0 then NextNonzero(line, j + 1) else j
  }

  /** The "decreasing" part of a step from tile x to the next nonzero tile y (totals[2] for rows, totals[0] for columns). */
  function WalkDecTerm(x: nat, y: nat): int
  {
    if x > 0 && x > y then y - x else 0
  }

  /** The "increasing" part of that step (totals[3] for rows, totals[1] for columns). */
  function WalkIncTerm(x: nat, y: nat): int
  {
    if x > 0 && x > y then 0 else if x > 0 && y > x then x - y else 0
  }

  /**
   * The two totals a line contributes from index `cur` on: each step goes from `cur` to the next
   * nonzero tile, an empty `cur` (only possible at the start) contributes nothing, and the walk stops
   * when no nonzero tile follows or `cur` reaches the last index.
   */
  function Walk(line: seq<nat>, cur: int): (int, int)
    requires |line| == 4 && 0 <= cur < 4
    decreases 4 - cur
  {
    if cur >= 3 then (0, 0)
    else
      var next := NextNonzero(line, cur + 1);
      if next >= 4 then (0, 0)
      else
        var (dec, inc) := Walk(line, next);
        (WalkDecTerm(line[cur], line[next]) + dec, WalkIncTerm(line[cur], line[next]) + inc)
  }

  /** The inner `while` loops of `calculate_monotonicity_bitboard` over one line. */
  method WalkLine(line: seq<nat>) returns (dec: int, inc: int)
    requires |line| == 4
    ensures (dec, inc) == Walk(line, 0)
  {
    dec, inc := 0, 0;
    var currentIdx := 0;
    while currentIdx < 3
      invariant 0 <= currentIdx < 4
      invariant dec + Walk(line, currentIdx).0 == Walk(line, 0).0
      invariant inc + Walk(line, currentIdx).1 == Walk(line, 0).1
      decreases 4 - currentIdx
    {
      var nextIdx := currentIdx + 1;
      while nextIdx < 4 && line[nextIdx] == 0
        invariant currentIdx + 1 <= nextIdx <= 4
        invariant NextNonzero(line, nextIdx) == NextNonzero(line, currentIdx + 1)
        decreases 4 - nextIdx
      {
        nextIdx := nextIdx + 1;
      }
      if nextIdx >= 4 {
        break;
      }
      var currentPower: int := line[currentIdx];
      if currentPower > 0 {
        var nextPower: int := line[nextIdx];
        if currentPower > nextPower {
          dec := dec + (nextPower - currentPower);
        } else if nextPower > currentPower {
          inc := inc + (currentPower - nextPower);
        }
      }
      currentIdx := nextIdx;
    }
  }

  /** The decreasing totals of lines 0..n-1 (rows, or columns when `vertical`). */
  function WalksDec(g: seq<seq<nat>>, vertical: bool, n: int): int
    requires IsGrid(g) && 0 <= n <= 4
  {
    if n == 0 then 0 else WalksDec(g, vertical, n - 1) + Walk(Line(g, vertical, n - 1), 0).0
  }

  /** The increasing totals of lines 0..n-1. */
  function WalksInc(g: seq<seq<nat>>, vertical: bool, n: int): int
    requires IsGrid(g) && 0 <= n <= 4
  {
    if n == 0 then 0 else WalksInc(g, vertical, n - 1) + Walk(Line(g, vertical, n - 1), 0).1
  }

  /** The monotonicity of bitboard.rs: the better row total plus the better column total. */
  function WalkMonotonicity(g: seq<seq<nat>>): int
    requires IsGrid(g)
  {
    Max(WalksDec(g, true, 4), WalksInc(g, true, 4)) + Max(WalksDec(g, false, 4), WalksInc(g, false, 4))
  }

  /** `calculate_monotonicity_bitboard`: first the rows into totals[2] and totals[3], then the columns into totals[0] and totals[1]. */
  method MonotonicityBitboard(board: Board) returns (monotonicity: int)
    ensures monotonicity == WalkMonotonicity(ExpGrid(board))
  {
    var g := ExpGrid(board);
    // totals: up, down, left, right
    var totals: seq<int> := [0, 0, 0, 0];
    for r := 0 to 4
      invariant |totals| == 4 && totals[0] == 0 && totals[1] == 0
      invariant totals[2] == WalksDec(g, false, r) && totals[3] == WalksInc(g, false, r)
    {
      var dec, inc := WalkLine(Line(g, false, r));
      assert WalksDec(g, false, r + 1) == totals[2] + dec && WalksInc(g, false, r + 1) == totals[3] + inc;
      totals := totals[2 := totals[2] + dec][3 := totals[3] + inc];
    }
    for c := 0 to 4
      invariant |totals| == 4
      invariant totals[0] == WalksDec(g, true, c) && totals[1] == WalksInc(g, true, c)
      invariant totals[2] == WalksDec(g, false, 4) && totals[3] == WalksInc(g, false, 4)
    {
      var dec, inc := WalkLine(Line(g, true, c));
      assert WalksDec(g, true, c + 1) == totals[0] + dec && WalksInc(g, true, c + 1) == totals[1] + inc;
      totals := totals[0 := totals[0] + dec][1 := totals[1] + inc];
    }
    monotonicity := Max(totals[0], totals[1]) + Max(totals[2], totals[3]);
  }

  /** From `cur` on, the nonzero tiles of the line never go down. */
  predicate AscendingFrom(line: seq<nat>, cur: int)
    requires |line| == 4 && 0 <= cur
  {
    forall a, b | cur <= a < b < 4 && line[a] != 0 && line[b] != 0 :: line[a] <= line[b]
  }

  /** From `cur` on, the nonzero tiles of the line never go up. */
  predicate DescendingFrom(line: seq<nat>, cur: int)
    requires |line| == 4 && 0 <= cur
  {
    forall a, b | cur <= a < b < 4 && line[a] != 0 && line[b] != 0 :: line[a] >= line[b]
  }

  /**
   * The decreasing total of a walk is at most 0, and it is 0 exactly when the nonzero tiles from
   * `cur` on never go down. Empty cells are skipped.
   */
  lemma {:induction false} WalkAscending(line: seq<nat>, cur: int)
    requires |line| == 4 && 0 <= cur < 4
    ensures Walk(line, cur).0 <= 0
    ensures Walk(line, cur).0 == 0 <==> AscendingFrom(line, cur)
    decreases 4 - cur
  {
    if cur < 3 {
      var next := NextNonzero(line, cur + 1);
      if next < 4 {
        WalkAscending(line, next);
        AscendingStep(line, cur, next);
      } else {
        assert forall b | cur < b < 4 :: line[b] == 0;
      }
    }
  }

  /** The increasing total of a walk is at most 0, and it is 0 exactly when the nonzero tiles from `cur` on never go up. */
  lemma {:induction false} WalkDescending(line: seq<nat>, cur: int)
    requires |line| == 4 && 0 <= cur < 4
    ensures Walk(line, cur).1 <= 0
    ensures Walk(line, cur).1 == 0 <==> DescendingFrom(line, cur)
    decreases 4 - cur
  {
    if cur < 3 {
      var next := NextNonzero(line, cur + 1);
      if next < 4 {
        WalkDescending(line, next);
        DescendingStep(line, cur, next);
      } else {
        assert forall b | cur < b < 4 :: line[b] == 0;
      }
    }
  }

  /** The tiles from `cur` on ascend when the tile at `cur` is at most the next nonzero one and the tiles from there ascend. */
  lemma AscendingStep(line: seq<nat>, cur: int, next: int)
    requires |line| == 4 && 0 <= cur < 3 && next == NextNonzero(line, cur + 1) && next < 4
    ensures AscendingFrom(line, cur) <==> (line[cur] == 0 || line[cur] <= line[next]) && AscendingFrom(line, next)
  {
    var x, y := line[cur], line[next];
    if AscendingFrom(line, cur) {
      assert x != 0 ==> x <= y;
    }
    if (x == 0 || x <= y) && AscendingFrom(line, next) {
      forall a, b | cur <= a < b < 4 && line[a] != 0 && line[b] != 0
        ensures line[a] <= line[b]
      {
        if a == cur {
          assert next <= b;
        }
      }
    }
  }

  /** The tiles from `cur` on descend when the tile at `cur` is at least the next nonzero one and the tiles from there descend. */
  lemma DescendingStep(line: seq<nat>, cur: int, next: int)
    requires |line| == 4 && 0 <= cur < 3 && next == NextNonzero(line, cur + 1) && next < 4
    ensures DescendingFrom(line, cur) <==> (line[cur] == 0 || line[cur] >= line[next]) && DescendingFrom(line, next)
  {
    var x, y := line[cur], line[next];
    if DescendingFrom(line, cur) {
      assert x != 0 ==> x >= y;
    }
    if (x == 0 || x >= y) && DescendingFrom(line, next) {
      forall a, b | cur <= a < b < 4 && line[a] != 0 && line[b] != 0
        ensures line[a] >= line[b]
      {
        if a == cur {
          assert next <= b;
        }
      }
    }
  }

  /** Rows 0..n-1 (or columns) each have nonzero tiles that never go down. */
  predicate LinesAscending(g: seq<seq<nat>>, vertical: bool, n: int)
    requires IsGrid(g) && 0 <= n <= 4
  {
    forall i | 0 <= i < n :: AscendingFrom(Line(g, vertical, i), 0)
  }

  /** Rows 0..n-1 (or columns) each have nonzero tiles that never go up. */
  predicate LinesDescending(g: seq<seq<nat>>, vertical: bool, n: int)
    requires IsGrid(g) && 0 <= n <= 4
  {
    forall i | 0 <= i < n :: DescendingFrom(Line(g, vertical, i), 0)
  }

  lemma {:induction false} WalksDecZero(g: seq<seq<nat>>, vertical: bool, n: int)
    requires IsGrid(g) && 0 <= n <= 4
    ensures WalksDec(g, vertical, n) <= 0
    ensures WalksDec(g, vertical, n) == 0 <==> LinesAscending(g, vertical, n)
  {
    if n > 0 {
      WalksDecZero(g, vertical, n - 1);
      var line := Line(g, vertical, n - 1);
      WalkAscending(line, 0);
      if LinesAscending(g, vertical, n - 1) && AscendingFrom(line, 0) {
        forall i | 0 <= i < n ensures AscendingFrom(Line(g, vertical, i), 0) {
          if i < n - 1 {
            assert AscendingFrom(Line(g, vertical, i), 0);
          }
        }
      }
    }
  }

  lemma {:induction false} WalksIncZero(g: seq<seq<nat>>, vertical: bool, n: int)
    requires IsGrid(g) && 0 <= n <= 4
    ensures WalksInc(g, vertical, n) <= 0
    ensures WalksInc(g, vertical, n) == 0 <==> LinesDescending(g, vertical, n)
  {
    if n > 0 {
      WalksIncZero(g, vertical, n - 1);
      var line := Line(g, vertical, n - 1);
      WalkDescending(line, 0);
      if LinesDescending(g, vertical, n - 1) && DescendingFrom(line, 0) {
        forall i | 0 <= i < n ensures DescendingFrom(Line(g, vertical, i), 0) {
          if i < n - 1 {
            assert DescendingFrom(Line(g, vertical, i), 0);
          }
        }
      }
    }
  }

  /**
   * The monotonicity of bitboard.rs is never positive, and it is 0 exactly when, ignoring empty cells,
   * all columns run the same way and all rows run the same way.
   */
  lemma WalkMonotonicityZero(g: seq<seq<nat>>)
    requires IsGrid(g)
    ensures WalkMonotonicity(g) <= 0
    ensures WalkMonotonicity(g) == 0 <==>
      (LinesAscending(g, true, 4) || LinesDescending(g, true, 4)) && (LinesAscending(g, false, 4) || LinesDescending(g, false, 4))
  {
    WalksDecZero(g, true, 4);
    WalksIncZero(g, true, 4);
    WalksDecZero(g, false, 4);
    WalksIncZero(g, false, 4);
  }

  // ---------------------------------------------------------------- evaluate_bitboard

  const BitSmoothnessWeight: real := 0.1
  const BitMonotonicityWeight: real := 1.0
  const BitEmptyCellsWeight: real := 2.7
  const BitMaxTileWeight: real := 1.0

  /** `ln` of the number of empty cells, and 0.0 for a full board, where `ln` would be minus infinity. */
  function EmptyBonus(emptyCells: nat, ln: real -> real): real
  {
    if emptyCells > 0 then ln(emptyCells as real) else 0.0
  }

  /**
   * The value of `evaluate_bitboard`: the weighted sum of smoothness, monotonicity, the empty-cell bonus
   * and the largest exponent. `ln` stands for f32's natural logarithm.
   */
  function BitEvaluation(board: Board, ln: real -> real): real
  {
    var g := ExpGrid(board);
    Smoothness(g) as real * BitSmoothnessWeight + WalkMonotonicity(g) as real * BitMonotonicityWeight
      + EmptyBonus(|EmptyCells(board)|, ln) * BitEmptyCellsWeight + NibbleMaxBelow(board, 16) as real * BitMaxTileWeight
  }

  /** `evaluate_bitboard`: calls the four sub-scores and weighs them. */
  method EvaluateBitboard(board: Board, ln: real -> real) returns (value: real)
    ensures value == BitEvaluation(board, ln)
  {
    var smoothness := SmoothnessBitboard(board);
    var monotonicity := MonotonicityBitboard(board);
    var emptyCells := CountEmpty(board);
    var maxTile := MaxTileBitboard(board);
    var emptyBonus := if emptyCells > 0 then ln(emptyCells as real) else 0.0;
    value := smoothness as real * BitSmoothnessWeight + monotonicity as real * BitMonotonicityWeight
      + emptyBonus * BitEmptyCellsWeight + maxTile as real * BitMaxTileWeight;
  }

  /**
   * Smoothness and monotonicity only lower the value: a board is worth at most its empty-cell bonus plus
   * its largest exponent, and exactly that when it is smooth and monotone.
   */
  lemma BitEvaluationBound(board: Board, ln: real -> real)
    ensures BitEvaluation(board, ln) <= EmptyBonus(|EmptyCells(board)|, ln) * BitEmptyCellsWeight + NibbleMaxBelow(board, 16) as real
    ensures BitEvaluation(board, ln) == EmptyBonus(|EmptyCells(board)|, ln) * BitEmptyCellsWeight + NibbleMaxBelow(board, 16) as real
      <==> Smoothness(ExpGrid(board)) == 0 && WalkMonotonicity(ExpGrid(board)) == 0
  {
    SmoothnessZero(ExpGrid(board));
    WalkMonotonicityZero(ExpGrid(board));
  }
}
