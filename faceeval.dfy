// The board heuristics of the TypeScript worker (src/ai/evaluation.ts), of its bundled copy
// (dist/ai-worker.js) and of the plain worker (ai-worker.js), on boards of face values.
// Numbers are reals; `Math.log2` is a parameter `log2`, exact on powers of two where a lemma
// needs it. The helpers `rotate_matrix`, `log2` and `evaluate_snake_pattern` of lib.rs are the
// same computations over fixed 4x4 arrays and a flat buffer.

module FaceEvaluation {
  import opened Tables
  import opened FaceRow
  import opened FaceBoard
  import Heuristics

  // ---------------------------------------------------------------- logarithms

  /** `log2` is exact on powers of two: it gives e for 2^e. */
  ghost predicate ExactLog2(log2: int -> real)
  {
    forall e: nat :: log2(Pow2(e)) == e as real
  }

  /** `getLog2` (and `log2` of lib.rs): 0 for an empty cell, the logarithm of the tile otherwise. */
  function Log2Of(v: int, log2: int -> real): real
  {
    if v == 0 then 0.0 else log2(v)
  }

  /** With an exact logarithm, the logarithm of the face of exponent e is e, and 0 for an empty cell. */
  lemma Log2OfFace(e: nat, log2: int -> real)
    requires ExactLog2(log2)
    ensures Log2Of(Face(e), log2) == e as real
  {
    if e != 0 {
      assert log2(Pow2(e)) == e as real;
    }
  }

  /**
   * The memo of `getLog2`: a missing entry, or one that holds 0 (JavaScript's `!log2Cache[val]`),
   * is recomputed and stored.
   */
  class Log2Cache {
    var cache: map<int, real>
    const log2: int -> real

    /** Every stored entry is the logarithm of its key. */
    ghost predicate Valid()
      reads this
    {
      forall v | v in cache :: cache[v] == log2(v)
    }

    constructor (log2: int -> real)
      ensures Valid() && this.log2 == log2 && cache == map[]
    {
      this.log2 := log2;
      cache := map[];
    }

    method GetLog2(v: int) returns (r: real)
      requires Valid()
      modifies this
      ensures Valid() && r == Log2Of(v, log2)
      ensures v != 0 ==> v in cache
      ensures cache == old(cache) || (v != 0 && cache == old(cache)[v := log2(v)])
    {
      if v == 0 {
        return 0.0;
      }
      if v !in cache || cache[v] == 0.0 {
        cache := cache[v := log2(v)];
      }
      r := cache[v];
    }
  }

  // ---------------------------------------------------------------- smoothness

  /** `Math.abs(x - y)` */
  function Distance(x: real, y: real): real
  {
    if x >= y then x - y else y - x
  }

  /** The distance in logarithms from a tile to a neighbour, or 0 when the neighbour is empty. */
  function NeighbourPenalty(t: int, n: int, log2: int -> real): (p: real)
    ensures p >= 0.0
  {
    if n != 0 then Distance(Log2Of(t, log2), Log2Of(n, log2)) else 0.0
  }

  /** What cell (r, c) costs the smoothness: its distance to each nonzero right and lower neighbour, 0 when empty. */
  function Penalty(g: Grid, log2: int -> real, r: int, c: int): (p: real)
    requires IsBoard(g) && 0 <= r < 4 && 0 <= c < 4
    ensures p >= 0.0
  {
    if g[r][c] == 0 then 0.0
    else (if c < 3 then NeighbourPenalty(g[r][c], g[r][c + 1], log2) else 0.0) +
         (if r < 3 then NeighbourPenalty(g[r][c], g[r + 1][c], log2) else 0.0)
  }

  /** The penalties of cells (r, 0) .. (r, c-1). */
  function RowPenalty(g: Grid, log2: int -> real, r: int, c: int): (p: real)
    requires IsBoard(g) && 0 <= r < 4 && 0 <= c <= 4
    ensures p >= 0.0
  {
    if c == 0 then 0.0 else RowPenalty(g, log2, r, c - 1) + Penalty(g, log2, r, c - 1)
  }

  /** The penalties of rows 0 .. r-1. */
  function RowsPenalty(g: Grid, log2: int -> real, r: int): (p: real)
    requires IsBoard(g) && 0 <= r <= 4
    ensures p >= 0.0
  {
    if r == 0 then 0.0 else RowsPenalty(g, log2, r - 1) + RowPenalty(g, log2, r - 1, |g[r - 1]|)
  }

  /** The smoothness of a board: minus the penalties of all its cells. */
  function Smoothness(g: Grid, log2: int -> real): real
    requires IsBoard(g)
  {
    -RowsPenalty(g, log2, |g|)
  }

  /** `calculateSmoothness`: the nested loop subtracting each neighbour distance. */
  method CalculateSmoothness(g: Grid, log2: int -> real) returns (smoothness: real)
    requires IsBoard(g)
    ensures smoothness == Smoothness(g, log2)
  {
    smoothness := 0.0;
    for r := 0 to 4
      invariant smoothness == -RowsPenalty(g, log2, r)
    {
      for c := 0 to 4
        invariant smoothness == -RowsPenalty(g, log2, r) - RowPenalty(g, log2, r, c)
      {
        var tileValue := g[r][c];
        if tileValue != 0 {
          if c < 3 && g[r][c + 1] != 0 {
            smoothness := smoothness - Distance(Log2Of(tileValue, log2), Log2Of(g[r][c + 1], log2));
          }
          if r < 3 && g[r + 1][c] != 0 {
            smoothness := smoothness - Distance(Log2Of(tileValue, log2), Log2Of(g[r + 1][c], log2));
          }
        }
      }
    }
  }

  /** Cell (r, c) is empty, or its logarithm equals that of each nonzero right and lower neighbour. */
  predicate SmoothAt(g: Grid, log2: int -> real, r: int, c: int)
    requires IsBoard(g) && 0 <= r < 4 && 0 <= c < 4
  {
    g[r][c] != 0 ==>
      (c < 3 && g[r][c + 1] != 0 ==> Log2Of(g[r][c], log2) == Log2Of(g[r][c + 1], log2)) &&
      (r < 3 && g[r + 1][c] != 0 ==> Log2Of(g[r][c], log2) == Log2Of(g[r + 1][c], log2))
  }

  lemma PenaltyZero(g: Grid, log2: int -> real, r: int, c: int)
    requires IsBoard(g) && 0 <= r < 4 && 0 <= c < 4
    ensures Penalty(g, log2, r, c) == 0.0 <==> SmoothAt(g, log2, r, c)
  {
  }

  lemma {:induction false} RowPenaltyZero(g: Grid, log2: int -> real, r: int, c: int)
    requires IsBoard(g) && 0 <= r < 4 && 0 <= c <= 4
    ensures RowPenalty(g, log2, r, c) == 0.0 <==> forall c' | 0 <= c' < c :: SmoothAt(g, log2, r, c')
  {
    if c > 0 {
      RowPenaltyZero(g, log2, r, c - 1);
      PenaltyZero(g, log2, r, c - 1);
    }
  }

  lemma {:induction false} RowsPenaltyZero(g: Grid, log2: int -> real, r: int)
    requires IsBoard(g) && 0 <= r <= 4
    ensures RowsPenalty(g, log2, r) == 0.0 <==> forall r', c | 0 <= r' < r && 0 <= c < 4 :: SmoothAt(g, log2, r', c)
  {
    if r > 0 {
      RowsPenaltyZero(g, log2, r - 1);
      RowPenaltyZero(g, log2, r - 1, 4);
    }
  }

  /**
   * Smoothness is never positive, and it is 0 exactly when every two horizontally or vertically
   * adjacent nonzero tiles have equal logarithms.
   */
  lemma SmoothnessZero(g: Grid, log2: int -> real)
    requires IsBoard(g)
    ensures Smoothness(g, log2) <= 0.0
    ensures Smoothness(g, log2) == 0.0 <==> forall r, c | 0 <= r < 4 && 0 <= c < 4 :: SmoothAt(g, log2, r, c)
  {
    RowsPenaltyZero(g, log2, 4);
  }

  lemma PenaltyAgrees(e: seq<seq<nat>>, log2: int -> real, r: int, c: int)
    requires IsExponentBoard(e) && ExactLog2(log2) && 0 <= r < 4 && 0 <= c < 4
    ensures Penalty(FaceBoardOf(e), log2, r, c) == Heuristics.Penalty(e, r, c) as real
  {
    var g := FaceBoardOf(e);
    assert g[r][c] == Face(e[r][c]);
    Log2OfFace(e[r][c], log2);
    if c < 3 {
      assert g[r][c + 1] == Face(e[r][c + 1]);
      Log2OfFace(e[r][c + 1], log2);
    }
    if r < 3 {
      assert g[r + 1][c] == Face(e[r + 1][c]);
      Log2OfFace(e[r + 1][c], log2);
    }
  }

  lemma {:induction false} RowPenaltyAgrees(e: seq<seq<nat>>, log2: int -> real, r: int, c: int)
    requires IsExponentBoard(e) && ExactLog2(log2) && 0 <= r < 4 && 0 <= c <= 4
    ensures RowPenalty(FaceBoardOf(e), log2, r, c) == Heuristics.RowPenalty(e, r, c) as real
  {
    if c > 0 {
      RowPenaltyAgrees(e, log2, r, c - 1);
      PenaltyAgrees(e, log2, r, c - 1);
    }
  }

  lemma {:induction false} RowsPenaltyAgrees(e: seq<seq<nat>>, log2: int -> real, r: int)
    requires IsExponentBoard(e) && ExactLog2(log2) && 0 <= r <= 4
    ensures RowsPenalty(FaceBoardOf(e), log2, r) == Heuristics.RowsPenalty(e, r) as real
  {
    if r > 0 {
      RowsPenaltyAgrees(e, log2, r - 1);
      RowPenaltyAgrees(e, log2, r - 1, 4);
    }
  }

  /**
   * On the face values of an exponent board, with an exact logarithm, the smoothness of the
   * JavaScript heuristic is the integer smoothness `calculate_metrics` of ai.rs computes on the exponents.
   */
  lemma SmoothnessAgrees(e: seq<seq<nat>>, log2: int -> real)
    requires IsExponentBoard(e) && ExactLog2(log2)
    ensures Smoothness(FaceBoardOf(e), log2) == Heuristics.Smoothness(e) as real
  {
    RowsPenaltyAgrees(e, log2, 4);
  }

  // ---------------------------------------------------------------- monotonicity

  /** `line.map(getLog2).filter(v => v > 0)`: the positive logarithms of a line, in order. */
  function PositiveLogs(s: seq<int>, log2: int -> real): (logs: seq<real>)
    ensures |logs| <= |s| && forall k | 0 <= k < |logs| :: logs[k] > 0.0
  {
    if |s| == 0 then []
    else (if Log2Of(s[0], log2) > 0.0 then [Log2Of(s[0], log2)] else []) + PositiveLogs(s[1..], log2)
  }

  /** The falls `logs[k+1] - logs[k]` over the pairs k < n where the logarithm drops. */
  function Falls(logs: seq<real>, n: int): (t: real)
    requires 0 <= n < |logs|
    ensures t <= 0.0
  {
    if n == 0 then 0.0 else Falls(logs, n - 1) + (if logs[n - 1] > logs[n] then logs[n] - logs[n - 1] else 0.0)
  }

  /** The rises `logs[k] - logs[k+1]` over the pairs k < n where the logarithm grows. */
  function Rises(logs: seq<real>, n: int): (t: real)
    requires 0 <= n < |logs|
    ensures t <= 0.0
  {
    if n == 0 then 0.0
    else Rises(logs, n - 1) + (if logs[n - 1] > logs[n] then 0.0 else if logs[n] > logs[n - 1] then logs[n - 1] - logs[n] else 0.0)
  }

  /** The falls of a whole line; a line of fewer than two logarithms is skipped. */
  function LineFalls(logs: seq<real>): real
  {
    if |logs| < 2 then 0.0 else Falls(logs, |logs| - 1)
  }

  /** The rises of a whole line; a line of fewer than two logarithms is skipped. */
  function LineRises(logs: seq<real>): real
  {
    if |logs| < 2 then 0.0 else Rises(logs, |logs| - 1)
  }

  /** `currentBoard.map(row => row[c])` */
  function Column(g: Grid, c: int): (col: seq<int>)
    requires IsBoard(g) && 0 <= c < 4
    ensures |col| == 4 && forall r | 0 <= r < 4 :: col[r] == g[r][c]
  {
    seq(4, r requires 0 <= r < 4 => g[r][c])
  }

  /** Row k, or column k. */
  function Line(g: Grid, byRow: bool, k: int): seq<int>
    requires IsBoard(g) && 0 <= k < 4
  {
    if byRow then g[k] else Column(g, k)
  }

  /** The falls of lines 0 .. n-1. */
  function LinesFalls(g: Grid, log2: int -> real, byRow: bool, n: int): (t: real)
    requires IsBoard(g) && 0 <= n <= 4
    ensures t <= 0.0
  {
    if n == 0 then 0.0 else LinesFalls(g, log2, byRow, n - 1) + LineFalls(PositiveLogs(Line(g, byRow, n - 1), log2))
  }

  /** The rises of lines 0 .. n-1. */
  function LinesRises(g: Grid, log2: int -> real, byRow: bool, n: int): (t: real)
    requires IsBoard(g) && 0 <= n <= 4
    ensures t <= 0.0
  {
    if n == 0 then 0.0 else LinesRises(g, log2, byRow, n - 1) + LineRises(PositiveLogs(Line(g, byRow, n - 1), log2))
  }

  /** `Math.max` */
  function Larger(x: real, y: real): real
  {
    if x >= y then x else y
  }

  /**
   * The monotonicity of a board: the better of the column totals (`totals[0]`, `totals[1]`) plus
   * the better of the row totals (`totals[2]`, `totals[3]`).
   */
  function Monotonicity(g: Grid, log2: int -> real): real
    requires IsBoard(g)
  {
    Larger(LinesFalls(g, log2, false, |g|), LinesRises(g, log2, false, |g|)) +
    Larger(LinesFalls(g, log2, true, |g|), LinesRises(g, log2, true, |g|))
  }

  /** The inner loop of `calculateMonotonicity` over one line: `totals[fall]` takes the falls, `totals[rise]` the rises. */
  method AddLineTotals(logs: seq<real>, totals: seq<real>, fall: int, rise: int) returns (t: seq<real>)
    requires |totals| == 4 && 0 <= fall < 4 && 0 <= rise < 4 && fall != rise
    ensures |t| == 4 && t[fall] == totals[fall] + LineFalls(logs) && t[rise] == totals[rise] + LineRises(logs)
    ensures forall k | 0 <= k < 4 && k != fall && k != rise :: t[k] == totals[k]
  {
    t := totals;
    if |logs| < 2 {
      return;
    }
    for i := 0 to |logs| - 1
      invariant |t| == 4 && t[fall] == totals[fall] + Falls(logs, i) && t[rise] == totals[rise] + Rises(logs, i)
      invariant forall k | 0 <= k < 4 && k != fall && k != rise :: t[k] == totals[k]
    {
      if logs[i] > logs[i + 1] {
        t := t[fall := t[fall] + (logs[i + 1] - logs[i])];
      } else if logs[i + 1] > logs[i] {
        t := t[rise := t[rise] + (logs[i] - logs[i + 1])];
      }
    }
  }

  /** `calculateMonotonicity`: the row loop fills `totals[2]`/`totals[3]`, the column loop `totals[0]`/`totals[1]`. */
  method CalculateMonotonicity(g: Grid, log2: int -> real) returns (monotonicity: real)
    requires IsBoard(g)
    ensures monotonicity == Monotonicity(g, log2)
  {
    var totals := [0.0, 0.0, 0.0, 0.0];
    for r := 0 to 4
      invariant |totals| == 4 && totals[0] == 0.0 && totals[1] == 0.0
      invariant totals[2] == LinesFalls(g, log2, true, r) && totals[3] == LinesRises(g, log2, true, r)
    {
      var nonZeroLogs := PositiveLogs(g[r], log2);
      totals := AddLineTotals(nonZeroLogs, totals, 2, 3);
    }
    for c := 0 to 4
      invariant |totals| == 4
      invariant totals[0] == LinesFalls(g, log2, false, c) && totals[1] == LinesRises(g, log2, false, c)
      invariant totals[2] == LinesFalls(g, log2, true, 4) && totals[3] == LinesRises(g, log2, true, 4)
    {
      var column := Column(g, c);
      var nonZeroLogs := PositiveLogs(column, log2);
      totals := AddLineTotals(nonZeroLogs, totals, 0, 1);
    }
    monotonicity := Larger(totals[0], totals[1]) + Larger(totals[2], totals[3]);
  }

  /** The logarithms never drop along the line. */
  predicate Ascending(logs: seq<real>)
  {
    forall k | 0 <= k < |logs| - 1 :: logs[k] <= logs[k + 1]
  }

  /** The logarithms never grow along the line. */
  predicate Descending(logs: seq<real>)
  {
    forall k | 0 <= k < |logs| - 1 :: logs[k] >= logs[k + 1]
  }

  lemma {:induction false} FallsZero(logs: seq<real>, n: int)
    requires 0 <= n < |logs|
    ensures Falls(logs, n) == 0.0 <==> forall k | 0 <= k < n :: logs[k] <= logs[k + 1]
  {
    if n > 0 {
      FallsZero(logs, n - 1);
    }
  }

  lemma {:induction false} RisesZero(logs: seq<real>, n: int)
    requires 0 <= n < |logs|
    ensures Rises(logs, n) == 0.0 <==> forall k | 0 <= k < n :: logs[k] >= logs[k + 1]
  {
    if n > 0 {
      RisesZero(logs, n - 1);
    }
  }

  /** A line adds no falls exactly when its logarithms ascend, and no rises exactly when they descend. */
  lemma LineTotalsZero(logs: seq<real>)
    ensures LineFalls(logs) == 0.0 <==> Ascending(logs)
    ensures LineRises(logs) == 0.0 <==> Descending(logs)
  {
    if |logs| >= 2 {
      FallsZero(logs, |logs| - 1);
      RisesZero(logs, |logs| - 1);
    }
  }

  lemma {:induction false} LinesFallsZero(g: Grid, log2: int -> real, byRow: bool, n: int)
    requires IsBoard(g) && 0 <= n <= 4
    ensures LinesFalls(g, log2, byRow, n) == 0.0 <==> forall k | 0 <= k < n :: Ascending(PositiveLogs(Line(g, byRow, k), log2))
  {
    if n > 0 {
      LinesFallsZero(g, log2, byRow, n - 1);
      var logs := PositiveLogs(Line(g, byRow, n - 1), log2);
      LineTotalsZero(logs);
      assert LinesFalls(g, log2, byRow, n) == LinesFalls(g, log2, byRow, n - 1) + LineFalls(logs);
    }
  }

  lemma {:induction false} LinesRisesZero(g: Grid, log2: int -> real, byRow: bool, n: int)
    requires IsBoard(g) && 0 <= n <= 4
    ensures LinesRises(g, log2, byRow, n) == 0.0 <==> forall k | 0 <= k < n :: Descending(PositiveLogs(Line(g, byRow, k), log2))
  {
    if n > 0 {
      LinesRisesZero(g, log2, byRow, n - 1);
      var logs := PositiveLogs(Line(g, byRow, n - 1), log2);
      LineTotalsZero(logs);
      assert LinesRises(g, log2, byRow, n) == LinesRises(g, log2, byRow, n - 1) + LineRises(logs);
    }
  }

  /** Every row (or every column) has ascending positive logarithms, or every one has descending ones. */
  predicate Ordered(g: Grid, log2: int -> real, byRow: bool)
    requires IsBoard(g)
  {
    (forall k | 0 <= k < 4 :: Ascending(PositiveLogs(Line(g, byRow, k), log2))) ||
    (forall k | 0 <= k < 4 :: Descending(PositiveLogs(Line(g, byRow, k), log2)))
  }

  /**
   * Monotonicity is never positive, and it is 0 exactly when all rows are ordered the same way
   * and all columns are ordered the same way (empty cells skipped).
   */
  lemma MonotonicityZero(g: Grid, log2: int -> real)
    requires IsBoard(g)
    ensures Monotonicity(g, log2) <= 0.0
    ensures Monotonicity(g, log2) == 0.0 <==> Ordered(g, log2, true) && Ordered(g, log2, false)
  {
    LinesFallsZero(g, log2, true, 4);
    LinesRisesZero(g, log2, true, 4);
    LinesFallsZero(g, log2, false, 4);
    LinesRisesZero(g, log2, false, 4);
  }

  // ---------------------------------------------------------------- the largest tile and the corners

  /** `Math.max(...s)` */
  function MaxOf(s: seq<int>): (m: int)
    requires |s| > 0
    ensures m in s && forall k | 0 <= k < |s| :: s[k] <= m
  {
    if |s| == 1 then s[0]
    else
      var rest := MaxOf(s[1..]);
      assert forall k | 1 <= k < |s| :: s[k] == s[1..][k - 1];
      if s[0] >= rest then s[0] else rest
  }

  /** `Math.max(...currentBoard.flat())`: the largest cell of the board. */
  function MaxTile(g: Grid): (m: int)
    requires IsBoard(g)
    ensures forall r, c | 0 <= r < 4 && 0 <= c < 4 :: g[r][c] <= m
    ensures exists r, c | 0 <= r < 4 && 0 <= c < 4 :: g[r][c] == m
  {
    var flat := Flatten(g);
    var m := MaxOf(flat);
    var k :| 0 <= k < 16 && flat[k] == m;
    assert g[k / 4][k % 4] == m by {
      assert flat[4 * (k / 4) + k % 4] == g[k / 4][k % 4];
    }
    assert forall r, c | 0 <= r < 4 && 0 <= c < 4 :: g[r][c] <= m by {
      forall r, c | 0 <= r < 4 && 0 <= c < 4
        ensures g[r][c] <= m
      {
        assert flat[4 * r + c] == g[r][c];
      }
    }
    m
  }

  /** `isMaxTileInCorner`: one of the four corners holds `maxTile`. */
  function IsMaxTileInCorner(g: Grid, maxTile: int): bool
    requires IsBoard(g)
  {
    maxTile in [g[0][0], g[0][3], g[3][0], g[3][3]]
  }

  /** (r, c) is a corner of the board. */
  predicate IsCorner(r: int, c: int)
  {
    (r == 0 || r == 3) && (c == 0 || c == 3)
  }

  /** Asked with the largest tile, `isMaxTileInCorner` holds exactly when some corner is at least every cell. */
  lemma MaxTileInCorner(g: Grid)
    requires IsBoard(g)
    ensures IsMaxTileInCorner(g, MaxTile(g)) <==>
      exists r, c | IsCorner(r, c) :: forall r', c' | 0 <= r' < 4 && 0 <= c' < 4 :: g[r'][c'] <= g[r][c]
  {
    var m := MaxTile(g);
    if exists r, c | IsCorner(r, c) :: forall r', c' | 0 <= r' < 4 && 0 <= c' < 4 :: g[r'][c'] <= g[r][c] {
      var r, c :| IsCorner(r, c) && forall r', c' | 0 <= r' < 4 && 0 <= c' < 4 :: g[r'][c'] <= g[r][c];
      var r0, c0 :| 0 <= r0 < 4 && 0 <= c0 < 4 && g[r0][c0] == m;
      assert g[r][c] == m;
    }
    if IsMaxTileInCorner(g, m) {
      if m == g[0][0] {
        assert IsCorner(0, 0);
      } else if m == g[0][3] {
        assert IsCorner(0, 3);
      } else if m == g[3][0] {
        assert IsCorner(3, 0);
      } else {
        assert IsCorner(3, 3) && m == g[3][3];
      }
    }
  }

  // ---------------------------------------------------------------- evaluateBoard

  /** `HeuristicWeights` */
  datatype Weights = Weights(smoothness: real, monotonicity: real, emptyCells: real, maxTile: real)

  /** The largest tile when a corner holds it, else 0. */
  function MaxTileBonus(g: Grid): int
    requires IsBoard(g)
  {
    var maxTileValue := MaxTile(g);
    if IsMaxTileInCorner(g, maxTileValue) then maxTileValue else 0
  }

  /** The weighted sum `evaluateBoard` returns, of its four terms. */
  function Weighted(smoothness: real, monotonicity: real, emptyTerm: real, bonus: real, w: Weights): real
  {
    smoothness * w.smoothness + monotonicity * w.monotonicity + emptyTerm * w.emptyCells + bonus * w.maxTile
  }

  /** The value `evaluateBoard` computes. */
  function Evaluation(g: Grid, w: Weights, log2: int -> real): real
    requires IsBoard(g)
  {
    Weighted(Smoothness(g, log2), Monotonicity(g, log2), Log2Of(|EmptyCells(g)| + 1, log2), MaxTileBonus(g) as real, w)
  }

  /** `evaluateBoard` */
  method EvaluateBoard(g: Grid, w: Weights, log2: int -> real) returns (value: real)
    requires IsBoard(g)
    ensures value == Evaluation(g, w, log2)
  {
    var emptyCells := |EmptyCells(g)|;
    var maxTileValue := MaxTile(g);
    var smoothness := CalculateSmoothness(g, log2);
    var monotonicity := CalculateMonotonicity(g, log2);
    var maxTileBonus := if IsMaxTileInCorner(g, maxTileValue) then maxTileValue else 0;
    value := Weighted(smoothness, monotonicity, Log2Of(emptyCells + 1, log2), maxTileBonus as real, w);
  }

  lemma MaxTileBonusBound(g: Grid)
    requires IsBoard(g) && forall r, c | 0 <= r < 4 && 0 <= c < 4 :: g[r][c] >= 0
    ensures 0 <= MaxTileBonus(g) <= MaxTile(g)
  {
    assert g[0][0] <= MaxTile(g);
  }

  /** Nonpositive penalties under nonnegative weights, and a bonus at most `top`, bound the weighted sum. */
  lemma WeightedBound(smoothness: real, monotonicity: real, emptyTerm: real, bonus: int, top: int, w: Weights)
    requires smoothness <= 0.0 && monotonicity <= 0.0 && 0 <= bonus <= top
    requires w.smoothness >= 0.0 && w.monotonicity >= 0.0 && w.maxTile >= 0.0
    ensures Weighted(smoothness, monotonicity, emptyTerm, bonus as real, w) <= Weighted(0.0, 0.0, emptyTerm, top as real, w)
  {
    assert smoothness * w.smoothness <= 0.0;
    assert monotonicity * w.monotonicity <= 0.0;
    assert bonus as real * w.maxTile <= top as real * w.maxTile;
  }

  /**
   * With nonnegative weights on the penalties and the corner bonus, and no negative cell, the
   * evaluation is at most what it would be with no smoothness or monotonicity penalty and the
   * largest tile always paid as the bonus.
   */
  lemma EvaluationBound(g: Grid, w: Weights, log2: int -> real)
    requires IsBoard(g) && w.smoothness >= 0.0 && w.monotonicity >= 0.0 && w.maxTile >= 0.0
    requires forall r, c | 0 <= r < 4 && 0 <= c < 4 :: g[r][c] >= 0
    ensures Evaluation(g, w, log2) <= Weighted(0.0, 0.0, Log2Of(|EmptyCells(g)| + 1, log2), MaxTile(g) as real, w)
  {
    SmoothnessZero(g, log2);
    MonotonicityZero(g, log2);
    MaxTileBonusBound(g);
    WeightedBound(Smoothness(g, log2), Monotonicity(g, log2), Log2Of(|EmptyCells(g)| + 1, log2), MaxTileBonus(g), MaxTile(g), w);
  }

  // ---------------------------------------------------------------- patterns

  /** Every row has as many entries as the matrix has rows. */
  predicate IsSquare(m: seq<seq<real>>)
  {
    forall r | 0 <= r < |m| :: |m[r]| == |m|
  }

  /** `rotateMatrix` (and `rotate_matrix` of lib.rs), as a value: entry (r, c) moves to (c, N-1-r). */
  function Rotated(m: seq<seq<real>>): (t: seq<seq<real>>)
    requires IsSquare(m)
    ensures |t| == |m| && IsSquare(t)
    ensures forall r, c | 0 <= r < |m| && 0 <= c < |m| :: t[c][|m| - 1 - r] == m[r][c]
  {
    var n := |m|;
    seq(n, i requires 0 <= i < n => seq(n, j requires 0 <= j < n => m[n - 1 - j][i]))
  }

  /** `rotateMatrix`: a zero matrix filled cell by cell. */
  method RotateMatrix(matrix: seq<seq<real>>) returns (result: seq<seq<real>>)
    requires IsSquare(matrix)
    ensures result == Rotated(matrix)
  {
    var n := |matrix|;
    result := seq(n, _ => seq(n, _ => 0.0));
    for r := 0 to n
      invariant |result| == n && IsSquare(result)
      invariant forall r', c' | 0 <= r' < r && 0 <= c' < n :: result[c'][n - 1 - r'] == matrix[r'][c']
    {
      for c := 0 to n
        invariant |result| == n && IsSquare(result)
        invariant forall r', c' | 0 <= r' < r && 0 <= c' < n :: result[c'][n - 1 - r'] == matrix[r'][c']
        invariant forall c' | 0 <= c' < c :: result[c'][n - 1 - r] == matrix[r][c']
      {
        result := result[c := result[c][n - 1 - r := matrix[r][c]]];
      }
    }
    var t := Rotated(matrix);
    forall i | 0 <= i < n
      ensures result[i] == t[i]
    {
      forall j | 0 <= j < n
        ensures result[i][j] == t[i][j]
      {
        assert result[i][n - 1 - (n - 1 - j)] == matrix[n - 1 - j][i];
      }
    }
  }

  /** Two rotations turn the matrix half way: entry (r, c) lands on (N-1-r, N-1-c). */
  lemma RotatedTwice(m: seq<seq<real>>)
    requires IsSquare(m)
    ensures forall r, c | 0 <= r < |m| && 0 <= c < |m| :: Rotated(Rotated(m))[r][c] == m[|m| - 1 - r][|m| - 1 - c]
  {
  }

  /** Four rotations give the matrix back. */
  lemma RotatedFourTimes(m: seq<seq<real>>)
    requires IsSquare(m)
    ensures Rotated(Rotated(Rotated(Rotated(m)))) == m
  {
    var h := Rotated(Rotated(m));
    RotatedTwice(m);
    RotatedTwice(h);
    var f := Rotated(Rotated(h));
    forall r | 0 <= r < |m|
      ensures f[r] == m[r]
    {
      forall c | 0 <= c < |m|
        ensures f[r][c] == m[r][c]
      {
        assert f[r][c] == h[|m| - 1 - r][|m| - 1 - c];
      }
    }
  }

  /** The pattern rotated k times. */
  function RotatedTimes(m: seq<seq<real>>, k: nat): (t: seq<seq<real>>)
    requires IsSquare(m)
    ensures |t| == |m| && IsSquare(t)
  {
    if k == 0 then m else Rotated(RotatedTimes(m, k - 1))
  }

  /** 4^n */
  function Pow4(n: nat): nat
  {
    if n == 0 then 1 else 4 * Pow4(n - 1)
  }

  /** The exponents of `SNAKE_PATTERN_WEIGHTS`, before `Math.pow(4, w)`. */
  function SnakeExponents(): seq<seq<nat>>
  {
    [[15, 14, 13, 12], [8, 9, 10, 11], [7, 6, 5, 4], [0, 1, 2, 3]]
  }

  /** `SNAKE_PATTERN_WEIGHTS`: 4 to the power of each exponent. */
  function SnakeWeights(): (w: seq<seq<real>>)
    ensures |w| == 4 && IsSquare(w)
  {
    seq(4, r requires 0 <= r < 4 => seq(4, c requires 0 <= c < 4 => Pow4(SnakeExponents()[r][c]) as real))
  }

  /** A 4x4 grid of reals. */
  predicate IsMatrix(m: seq<seq<real>>)
  {
    |m| == 4 && IsSquare(m)
  }

  /** The sum of a[r][c] * b[r][c] over cells (r, 0) .. (r, c-1). */
  function DotRow(a: seq<seq<real>>, b: seq<seq<real>>, r: int, c: int): real
    requires IsMatrix(a) && IsMatrix(b) && 0 <= r < 4 && 0 <= c <= 4
  {
    if c == 0 then 0.0 else DotRow(a, b, r, c - 1) + a[r][c - 1] * b[r][c - 1]
  }

  /** The sum of a[r][c] * b[r][c] over rows 0 .. r-1. */
  function DotRows(a: seq<seq<real>>, b: seq<seq<real>>, r: int): real
    requires IsMatrix(a) && IsMatrix(b) && 0 <= r <= 4
  {
    if r == 0 then 0.0 else DotRows(a, b, r - 1) + DotRow(a, b, r - 1, |a[r - 1]|)
  }

  /** The sum of a[r][c] * b[r][c] over the whole 4x4 grid. */
  function Dot(a: seq<seq<real>>, b: seq<seq<real>>): real
    requires IsMatrix(a) && IsMatrix(b)
  {
    DotRows(a, b, |a|)
  }

  /** The logarithms of the cells of a board, 0 for empty cells. */
  function Logs(g: Grid, log2: int -> real): (l: seq<seq<real>>)
    requires IsBoard(g)
    ensures IsMatrix(l) && forall r, c | 0 <= r < 4 && 0 <= c < 4 :: l[r][c] == Log2Of(g[r][c], log2)
  {
    seq(4, r requires 0 <= r < 4 => seq(4, c requires 0 <= c < 4 => Log2Of(g[r][c], log2)))
  }

  /** The cells of a board as numbers. */
  function Reals(g: Grid): (l: seq<seq<real>>)
    requires IsBoard(g)
    ensures IsMatrix(l) && forall r, c | 0 <= r < 4 && 0 <= c < 4 :: l[r][c] == g[r][c] as real
  {
    seq(4, r requires 0 <= r < 4 => seq(4, c requires 0 <= c < 4 => g[r][c] as real))
  }

  /** What `getPatternScore` computes: each tile's logarithm weighted by the pattern, summed. */
  function PatternScore(g: Grid, pattern: seq<seq<real>>, log2: int -> real): real
    requires IsBoard(g) && IsMatrix(pattern)
  {
    Dot(Logs(g, log2), pattern)
  }

  /** `getPatternScore`: only nonzero cells add `getLog2(tile) * pattern[r][c]`. */
  method GetPatternScore(g: Grid, pattern: seq<seq<real>>, log2: int -> real) returns (score: real)
    requires IsBoard(g) && IsMatrix(pattern)
    ensures score == PatternScore(g, pattern, log2)
  {
    var l := Logs(g, log2);
    score := 0.0;
    for r := 0 to 4
      invariant score == DotRows(l, pattern, r)
    {
      for c := 0 to 4
        invariant score == DotRows(l, pattern, r) + DotRow(l, pattern, r, c)
      {
        if g[r][c] != 0 {
          score := score + Log2Of(g[r][c], log2) * pattern[r][c];
        }
      }
    }
  }

  /** The score of the snake pattern turned i times. */
  function RotationScore(g: Grid, log2: int -> real, i: nat): real
    requires IsBoard(g)
  {
    PatternScore(g, RotatedTimes(SnakeWeights(), i), log2)
  }

  /** The best of 0 and the scores of the first k rotations of the snake pattern. */
  function BestPattern(g: Grid, log2: int -> real, k: nat): (best: real)
    requires IsBoard(g)
    ensures best >= 0.0
    ensures forall i | 0 <= i < k :: best >= RotationScore(g, log2, i)
    ensures best == 0.0 || exists i | 0 <= i < k :: best == RotationScore(g, log2, i)
  {
    if k == 0 then 0.0 else Larger(BestPattern(g, log2, k - 1), RotationScore(g, log2, k - 1))
  }

  /** The loop of `evaluatePattern`: the best of 0 and the four (|g|) rotations' scores, turning the pattern each time. */
  method BestRotation(g: Grid, log2: int -> real) returns (bestScore: real)
    requires IsBoard(g)
    ensures bestScore == BestPattern(g, log2, |g|)
  {
    bestScore := 0.0;
    var currentPattern := SnakeWeights();
    for i := 0 to 4
      invariant currentPattern == RotatedTimes(SnakeWeights(), i)
      invariant bestScore == BestPattern(g, log2, i)
    {
      var score := GetPatternScore(g, currentPattern, log2);
      assert score == RotationScore(g, log2, i);
      bestScore := Larger(bestScore, score);
      currentPattern := RotateMatrix(currentPattern);
    }
  }

  /**
   * `evaluatePattern`: the best of 0 and the scores of the four rotations of the snake pattern,
   * plus the weighted logarithm of the empty-cell count plus one. It is never below that last term.
   */
  method EvaluatePattern(g: Grid, w: Weights, log2: int -> real) returns (value: real)
    requires IsBoard(g)
    ensures value == PatternEvaluation(g, w, log2)
    ensures value >= EmptyTerm(g, w, log2)
  {
    var bestScore := BestRotation(g, log2);
    var emptyCells := |EmptyCells(g)|;
    value := bestScore + Log2Of(emptyCells + 1, log2) * w.emptyCells;
    assert value == bestScore + EmptyTerm(g, w, log2);
    NotBelow(bestScore, EmptyTerm(g, w, log2));
  }

  /** The value `evaluatePattern` computes; the four rotations are counted as |g|, which is 4 on a board. */
  function PatternEvaluation(g: Grid, w: Weights, log2: int -> real): real
    requires IsBoard(g)
  {
    BestPattern(g, log2, |g|) + EmptyTerm(g, w, log2)
  }

  /** The empty-cell term of `evaluatePattern`: the weighted logarithm of the empty-cell count plus one. */
  function EmptyTerm(g: Grid, w: Weights, log2: int -> real): real
    requires IsBoard(g)
  {
    Log2Of(|EmptyCells(g)| + 1, log2) * w.emptyCells
  }

  lemma NotBelow(best: real, term: real)
    requires best >= 0.0
    ensures best + term >= term
  {
  }

  /** After four rotations the pattern loop is back at the snake pattern. */
  lemma PatternCycle()
    ensures RotatedTimes(SnakeWeights(), 4) == SnakeWeights()
  {
    var w := SnakeWeights();
    assert RotatedTimes(w, 4) == Rotated(Rotated(Rotated(Rotated(w))));
    RotatedFourTimes(w);
  }

  /** `SNAKE_PATTERN_WEIGHTS_SINGLE` */
  function SnakeSingle(): (w: seq<seq<real>>)
    ensures IsMatrix(w)
  {
    [[10.0, 8.0, 7.0, 6.5], [-0.5, 0.7, 1.5, 3.0], [-1.5, -1.0, 1.0, 2.0], [-3.0, -2.0, -1.5, -1.0]]
  }

  /** What `evaluateSnakePattern` computes: the fixed linear form of the cells under the single snake weights. */
  function SnakeScore(g: Grid): real
    requires IsBoard(g)
  {
    Dot(SnakeSingle(), Reals(g))
  }

  /** `evaluateSnakePattern`: the loop below with the single snake weights. */
  method EvaluateSnakePattern(g: Grid) returns (score: real)
    requires IsBoard(g)
    ensures score == SnakeScore(g)
  {
    score := WeightedSum(SnakeSingle(), g);
  }

  /** The double loop of `evaluateSnakePattern` over a weight matrix w: the sum of w[i][j] * g[i][j]. */
  method WeightedSum(w: seq<seq<real>>, g: Grid) returns (score: real)
    requires IsMatrix(w) && IsBoard(g)
    ensures score == Dot(w, Reals(g))
  {
    var b := Reals(g);
    score := 0.0;
    for i := 0 to 4
      invariant score == DotRows(w, b, i)
    {
      for j := 0 to 4
        invariant score == DotRows(w, b, i) + DotRow(w, b, i, j)
      {
        score := score + w[i][j] * g[i][j] as real;
      }
      assert DotRows(w, b, i + 1) == DotRows(w, b, i) + DotRow(w, b, i, 4);
    }
  }

  /** `evaluate_snake_pattern` of lib.rs: the same form read from the flat buffer at `i*4+j`. */
  method EvaluateSnakePatternFlat(boardJs: seq<int>) returns (score: real)
    requires |boardJs| >= 16
    ensures score == SnakeScore(Reshape(boardJs))
  {
    score := WeightedSumFlat(SnakeSingle(), boardJs);
  }

  /** The double loop of `evaluate_snake_pattern` over a weight matrix w, reading cell (i, j) at `i*4+j`. */
  method WeightedSumFlat(w: seq<seq<real>>, boardJs: seq<int>) returns (score: real)
    requires IsMatrix(w) && |boardJs| >= 16
    ensures score == Dot(w, Reals(Reshape(boardJs)))
  {
    var b := Reals(Reshape(boardJs));
    score := 0.0;
    for i := 0 to 4
      invariant score == DotRows(w, b, i)
    {
      for j := 0 to 4
        invariant score == DotRows(w, b, i) + DotRow(w, b, i, j)
      {
        var cell := boardJs[i * 4 + j] as real;
        assert cell == b[i][j];
        score := score + w[i][j] * cell;
      }
      assert DotRows(w, b, i + 1) == DotRows(w, b, i) + DotRow(w, b, i, 4);
    }
  }

  /** The cellwise sum of two boards. */
  function Plus(x: Grid, y: Grid): (s: Grid)
    requires IsBoard(x) && IsBoard(y)
    ensures IsBoard(s) && forall r, c | 0 <= r < 4 && 0 <= c < 4 :: s[r][c] == x[r][c] + y[r][c]
  {
    seq(4, r requires 0 <= r < 4 => seq(4, c requires 0 <= c < 4 => x[r][c] + y[r][c]))
  }

  lemma {:induction false} DotRowPlus(a: seq<seq<real>>, x: Grid, y: Grid, r: int, c: int)
    requires IsMatrix(a) && IsBoard(x) && IsBoard(y) && 0 <= r < 4 && 0 <= c <= 4
    ensures DotRow(a, Reals(Plus(x, y)), r, c) == DotRow(a, Reals(x), r, c) + DotRow(a, Reals(y), r, c)
  {
    if c > 0 {
      DotRowPlus(a, x, y, r, c - 1);
      var s := Plus(x, y);
      assert Reals(s)[r][c - 1] == Reals(x)[r][c - 1] + Reals(y)[r][c - 1];
    }
  }

  lemma {:induction false} DotRowsPlus(a: seq<seq<real>>, x: Grid, y: Grid, r: int)
    requires IsMatrix(a) && IsBoard(x) && IsBoard(y) && 0 <= r <= 4
    ensures DotRows(a, Reals(Plus(x, y)), r) == DotRows(a, Reals(x), r) + DotRows(a, Reals(y), r)
  {
    if r > 0 {
      DotRowsPlus(a, x, y, r - 1);
      DotRowPlus(a, x, y, r - 1, 4);
    }
  }

  /** The snake score is linear in the board: the score of a cellwise sum is the sum of the scores. */
  lemma SnakeScoreAdditive(x: Grid, y: Grid)
    requires IsBoard(x) && IsBoard(y)
    ensures SnakeScore(Plus(x, y)) == SnakeScore(x) + SnakeScore(y)
  {
    DotRowsPlus(SnakeSingle(), x, y, 4);
  }

  lemma {:induction false} DotRowsZero(a: seq<seq<real>>, r: int)
    requires IsMatrix(a) && 0 <= r <= 4
    ensures DotRows(a, Reals(EmptyBoard()), r) == 0.0
  {
    if r > 0 {
      DotRowsZero(a, r - 1);
      DotRowZero(a, r - 1, 4);
    }
  }

  lemma {:induction false} DotRowZero(a: seq<seq<real>>, r: int, c: int)
    requires IsMatrix(a) && 0 <= r < 4 && 0 <= c <= 4
    ensures DotRow(a, Reals(EmptyBoard()), r, c) == 0.0
  {
    if c > 0 {
      DotRowZero(a, r, c - 1);
      assert Reals(EmptyBoard())[r][c - 1] == 0.0;
    }
  }

  /** The empty board scores 0 under the snake pattern. */
  lemma SnakeScoreEmpty()
    ensures SnakeScore(EmptyBoard()) == 0.0
  {
    DotRowsZero(SnakeSingle(), 4);
  }
}
