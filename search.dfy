/**
 * The expectimax search of wasm-lib/src/ai.rs: `find_empty_cell_masks`, `expectimax` with its
 * transposition table, and `find_best_move`.
 *
 * The table, a `&mut HashMap<Board, f64>` in the source, is a `map<Board, real>` passed in and handed
 * back. `Search` is the value and final table of a call; the method `Expectimax` is proved to compute
 * exactly that, and the lemmas below state what the source promises about it.
 */
module Search {
  import opened Board
  import opened Ai
  import opened Heuristics

  datatype Option<T> = None | Some(value: T)

  /**
   * The transposition table, `HashMap<u64, f64>` keyed by board. The board is wrapped in `Key` because
   * the verifier does not reason about map updates whose key type is a bit-vector.
   */
  datatype Key = Key(board: Board)
  type Table = map<Key, real>

  // ---------------------------------------------------------------- find_empty_cell_masks

  /** The shifts 4k of the empty cells k < n, in ascending order. */
  function EmptyShiftsBelow(b: Board, n: int): seq<nat>
    requires 0 <= n <= 16
  {
    if n == 0 then [] else EmptyShiftsBelow(b, n - 1) + (if Nibble(b, n - 1) == 0 then [4 * (n - 1)] else [])
  }

  function EmptyShifts(b: Board): seq<nat>
  {
    EmptyShiftsBelow(b, 16)
  }

  /** `find_empty_cell_masks`: the shift of every nibble that is 0. */
  method FindEmptyCellMasks(board: Board) returns (emptyCells: seq<nat>)
    ensures emptyCells == EmptyShifts(board)
  {
    emptyCells := [];
    var i := 0;
    while i < 16
      invariant 0 <= i <= 16
      invariant emptyCells == EmptyShiftsBelow(board, i)
    {
      var shift := i * 4;
      if Nibble(board, i) == 0 {
        emptyCells := emptyCells + [shift];
      }
      i := i + 1;
    }
  }

  lemma {:induction false} EmptyShiftsBelowCount(b: Board, n: int)
    requires 0 <= n <= 16
    ensures |EmptyShiftsBelow(b, n)| == |EmptyCellsBelow(b, n)|
  {
    if n > 0 {
      EmptyShiftsBelowCount(b, n - 1);
      EmptyCellsStep(b, n - 1);
    }
  }

  lemma {:induction false} EmptyShiftsBelowCells(b: Board, n: int)
    requires 0 <= n <= 16
    ensures forall j | 0 <= j < |EmptyShiftsBelow(b, n)| ::
      EmptyShiftsBelow(b, n)[j] % 4 == 0 && EmptyShiftsBelow(b, n)[j] / 4 in EmptyCellsBelow(b, n)
    ensures forall k | k in EmptyCellsBelow(b, n) :: 4 * k in EmptyShiftsBelow(b, n)
  {
    if n > 0 {
      EmptyShiftsBelowCells(b, n - 1);
      assert EmptyCellsBelow(b, n) == EmptyCellsBelow(b, n - 1) + (if Nibble(b, n - 1) == 0 then {n - 1} else {});
    }
  }

  lemma {:induction false} EmptyShiftsBelowSorted(b: Board, n: int)
    requires 0 <= n <= 16
    ensures forall j | 0 <= j < |EmptyShiftsBelow(b, n)| :: EmptyShiftsBelow(b, n)[j] < 4 * n
    ensures forall j, j' | 0 <= j < j' < |EmptyShiftsBelow(b, n)| :: EmptyShiftsBelow(b, n)[j] < EmptyShiftsBelow(b, n)[j']
  {
    if n > 0 {
      EmptyShiftsBelowSorted(b, n - 1);
    }
  }

  /**
   * The shifts are exactly 4k for the empty cells k, each once and in ascending order, so there are
   * `count_empty` of them.
   */
  lemma EmptyShiftsSpec(b: Board)
    ensures |EmptyShifts(b)| == |EmptyCells(b)|
    ensures forall j | 0 <= j < |EmptyShifts(b)| :: EmptyShifts(b)[j] % 4 == 0 && EmptyShifts(b)[j] / 4 in EmptyCells(b)
    ensures forall k | k in EmptyCells(b) :: 4 * k in EmptyShifts(b)
    ensures forall j, j' | 0 <= j < j' < |EmptyShifts(b)| :: EmptyShifts(b)[j] < EmptyShifts(b)[j']
  {
    EmptyShiftsBelowCount(b, 16);
    EmptyShiftsBelowCells(b, 16);
    EmptyShiftsBelowSorted(b, 16);
  }

  /** `v << shift`, one bit at a time. */
  function ShiftedLeft(v: bv64, shift: nat): bv64
  {
    if shift == 0 then v else ShiftedLeft(v, shift - 1) << 1
  }

  /** `board | (v << shift)`: the board with tile exponent v placed at the cell of `shift`. */
  function Spawn(board: Board, shift: nat, v: bv64): Board
  {
    board | ShiftedLeft(v, shift)
  }

  // ---------------------------------------------------------------- expectimax

  /**
   * The search is written over the two functions it calls: `eval` for `evaluate_board` and `move` for
   * the board half of `execute_move`. `Heuristic` and `Mover` are the ones ai.rs uses.
   */
  function Heuristic(ln1p: real -> real): Board -> real
  {
    b => Evaluation(b, ln1p)
  }

  function Mover(): (Board, nat) -> Board
  {
    (b: Board, dir: nat) => Move(b, dir).0
  }

  /** The ranking of a node: a player node at depth d comes before the chance node at d. */
  function Rank(depth: nat, isPlayer: bool): nat
  {
    2 * depth + (if isPlayer then 0 else 1)
  }

  /**
   * The value of `expectimax(board, depth, isPlayer)` started with `table`, and the table it leaves.
   * The table is probed first; depth 0 is the heuristic, not stored; a player node takes the best child
   * that moved (0.0 when none did); a chance node with no empty cell is searched as a player node at
   * the same depth; otherwise it averages 0.9 times the child with a 2 and 0.1 times the child with a
   * 4 over the empty cells. Every value computed at depth > 0 is stored under the board.
   */
  function Search(board: Board, depth: nat, isPlayer: bool, table: Table, eval: Board -> real, move: (Board, nat) -> Board): (real, Table)
    decreases Rank(depth, isPlayer), 1, 0
  {
    if Key(board) in table then (table[Key(board)], table)
    else if depth == 0 then (eval(board), table)
    else if isPlayer then
      var state := PlayerUpTo(board, depth, 4, table, eval, move);
      var score := if !state.moved then 0.0 else state.best;
      (score, state.table[Key(board) := score])
    else
      var cells := EmptyShifts(board);
      if |cells| == 0 then Search(board, depth, true, table, eval, move)
      else
        var (total, t) := ChanceUpTo(board, depth, cells, |cells|, table, eval, move);
        var score := total / |cells| as real;
        (score, t[Key(board) := score])
  }

  /** What the player loop has after directions 0..n-1: whether any moved, the best child so far, the table. */
  datatype PlayerState = PlayerState(moved: bool, best: real, table: Table)

  /** The player loop of `expectimax` over directions 0..n-1; `best` stands for minus infinity while nothing moved. */
  function PlayerUpTo(board: Board, depth: nat, n: nat, table: Table, eval: Board -> real, move: (Board, nat) -> Board): PlayerState
    requires 1 <= depth && n <= 4
    decreases Rank(depth, true), 0, n
  {
    if n == 0 then PlayerState(false, 0.0, table)
    else
      var state := PlayerUpTo(board, depth, n - 1, table, eval, move);
      var newBoard := move(board, n - 1);
      if newBoard != board then
        var (v, t) := Search(newBoard, depth - 1, false, state.table, eval, move);
        PlayerState(true, if state.moved then MaxReal(state.best, v) else v, t)
      else state
  }

  /** `f64::max` */
  function MaxReal(x: real, y: real): real
  {
    if x >= y then x else y
  }

  /** The chance loop of `expectimax` over the first n empty cells: the weighted total and the table. */
  function ChanceUpTo(board: Board, depth: nat, cells: seq<nat>, n: nat, table: Table, eval: Board -> real, move: (Board, nat) -> Board): (real, Table)
    requires 1 <= depth && n <= |cells|
    decreases Rank(depth, false), 0, n
  {
    if n == 0 then (0.0, table)
    else
      var (total, t) := ChanceUpTo(board, depth, cells, n - 1, table, eval, move);
      var (v2, t2) := Search(Spawn(board, cells[n - 1], 1), depth - 1, true, t, eval, move);
      var (v4, t4) := Search(Spawn(board, cells[n - 1], 2), depth - 1, true, t2, eval, move);
      (total + 0.9 * v2 + 0.1 * v4, t4)
  }

  /** `expectimax`, recursing as the source does, with the table passed in and handed back. */
  method Expectimax(board: Board, depth: nat, isPlayer: bool, table: Table, eval: Board -> real, move: (Board, nat) -> Board)
    returns (score: real, newTable: Table)
    ensures (score, newTable) == Search(board, depth, isPlayer, table, eval, move)
    decreases Rank(depth, isPlayer), 1, 0
  {
    if Key(board) in table {
      return table[Key(board)], table;
    }
    if depth == 0 {
      return eval(board), table;
    }
    if isPlayer {
      var moved, maxScore;
      moved, maxScore, newTable := PlayerMoves(board, depth, table, eval, move);
      score := if !moved then 0.0 else maxScore;
    } else {
      var emptyCells := FindEmptyCellMasks(board);
      var numEmpty := |emptyCells|;
      if numEmpty == 0 {
        score, newTable := Expectimax(board, depth, true, table, eval, move);
        return;
      }
      var totalScore;
      totalScore, newTable := ChanceTiles(board, depth, emptyCells, table, eval, move);
      score := totalScore / numEmpty as real;
    }
    newTable := newTable[Key(board) := score];
  }

  /** The player's loop of `expectimax`: every direction that changes the board is searched as a chance node. */
  method PlayerMoves(board: Board, depth: nat, table: Table, eval: Board -> real, move: (Board, nat) -> Board)
    returns (moved: bool, maxScore: real, newTable: Table)
    requires 1 <= depth
    ensures PlayerState(moved, maxScore, newTable) == PlayerUpTo(board, depth, 4, table, eval, move)
    decreases Rank(depth, true), 0, 4
  {
    maxScore := 0.0;  // stands for minus infinity while `moved` is false
    moved := false;
    newTable := table;
    var i := 0;
    while i < 4
      invariant 0 <= i <= 4
      invariant PlayerState(moved, maxScore, newTable) == PlayerUpTo(board, depth, i, table, eval, move)
    {
      var newBoard := move(board, i);
      if newBoard != board {
        var v;
        v, newTable := Expectimax(newBoard, depth - 1, false, newTable, eval, move);
        maxScore := if moved then MaxReal(maxScore, v) else v;
        moved := true;
      }
      i := i + 1;
    }
  }

  /** The computer's loop of `expectimax`: a 2 (weight 0.9) and a 4 (weight 0.1) in every empty cell. */
  method ChanceTiles(board: Board, depth: nat, emptyCells: seq<nat>, table: Table, eval: Board -> real, move: (Board, nat) -> Board)
    returns (totalScore: real, newTable: Table)
    requires 1 <= depth
    ensures (totalScore, newTable) == ChanceUpTo(board, depth, emptyCells, |emptyCells|, table, eval, move)
    decreases Rank(depth, false), 0, |emptyCells|
  {
    totalScore := 0.0;
    newTable := table;
    var j := 0;
    while j < |emptyCells|
      invariant 0 <= j <= |emptyCells|
      invariant (totalScore, newTable) == ChanceUpTo(board, depth, emptyCells, j, table, eval, move)
    {
      var posMask := emptyCells[j];
      var boardWith2 := Spawn(board, posMask, 1);
      var v2;
      v2, newTable := Expectimax(boardWith2, depth - 1, true, newTable, eval, move);
      totalScore := totalScore + 0.9 * v2;
      var boardWith4 := Spawn(board, posMask, 2);
      var v4;
      v4, newTable := Expectimax(boardWith4, depth - 1, true, newTable, eval, move);
      totalScore := totalScore + 0.1 * v4;
      j := j + 1;
    }
  }

  // ---------------------------------------------------------------- properties of the search

  /** Every entry of `t` is in `t'` with the same value. */
  predicate Extends(t': Table, t: Table)
  {
    forall k | k in t :: k in t' && t'[k] == t[k]
  }

  /**
   * The table only grows and no entry is ever overwritten; a board found in the table is answered from
   * it and leaves the table as it was; at depth 0 the heuristic is returned and nothing is stored; every
   * value computed at depth > 0 is stored under its board.
   */
  lemma {:induction false} SearchTable(board: Board, depth: nat, isPlayer: bool, table: Table, eval: Board -> real, move: (Board, nat) -> Board)
    ensures Extends(Search(board, depth, isPlayer, table, eval, move).1, table)
    ensures Key(board) in table ==> Search(board, depth, isPlayer, table, eval, move) == (table[Key(board)], table)
    ensures Key(board) !in table && depth == 0 ==> Search(board, depth, isPlayer, table, eval, move) == (eval(board), table)
    ensures Key(board) !in table && depth > 0 ==>
      var (score, t) := Search(board, depth, isPlayer, table, eval, move);
      Key(board) in t && t[Key(board)] == score
    decreases Rank(depth, isPlayer), 1, 0
  {
    if Key(board) in table || depth == 0 {
    } else if isPlayer {
      var state := PlayerUpTo(board, depth, 4, table, eval, move);
      PlayerTable(board, depth, 4, table, eval, move);
      var score := if !state.moved then 0.0 else state.best;
      assert Search(board, depth, isPlayer, table, eval, move) == (score, state.table[Key(board) := score]);
    } else if |EmptyShifts(board)| == 0 {
      SearchTable(board, depth, true, table, eval, move);
    } else {
      var cells := EmptyShifts(board);
      var (total, t) := ChanceUpTo(board, depth, cells, |cells|, table, eval, move);
      ChanceTable(board, depth, cells, |cells|, table, eval, move);
      var score := total / |cells| as real;
      assert Search(board, depth, isPlayer, table, eval, move) == (score, t[Key(board) := score]);
    }
  }

  lemma {:induction false} PlayerTable(board: Board, depth: nat, n: nat, table: Table, eval: Board -> real, move: (Board, nat) -> Board)
    requires 1 <= depth && n <= 4
    ensures Extends(PlayerUpTo(board, depth, n, table, eval, move).table, table)
    decreases Rank(depth, true), 0, n
  {
    if n > 0 {
      var state := PlayerUpTo(board, depth, n - 1, table, eval, move);
      PlayerTable(board, depth, n - 1, table, eval, move);
      if move(board, n - 1) != board {
        SearchTable(move(board, n - 1), depth - 1, false, state.table, eval, move);
      }
    }
  }

  lemma {:induction false} ChanceTable(board: Board, depth: nat, cells: seq<nat>, n: nat, table: Table, eval: Board -> real, move: (Board, nat) -> Board)
    requires 1 <= depth && n <= |cells|
    ensures Extends(ChanceUpTo(board, depth, cells, n, table, eval, move).1, table)
    decreases Rank(depth, false), 0, n
  {
    if n > 0 {
      var (total, t) := ChanceUpTo(board, depth, cells, n - 1, table, eval, move);
      ChanceTable(board, depth, cells, n - 1, table, eval, move);
      var (v2, t2) := Search(Spawn(board, cells[n - 1], 1), depth - 1, true, t, eval, move);
      SearchTable(Spawn(board, cells[n - 1], 1), depth - 1, true, t, eval, move);
      SearchTable(Spawn(board, cells[n - 1], 2), depth - 1, true, t2, eval, move);
    }
  }

  /** When no direction changes the board, the player loop finds nothing and leaves the table alone. */
  lemma {:induction false} PlayerBlocked(board: Board, depth: nat, n: nat, table: Table, eval: Board -> real, move: (Board, nat) -> Board)
    requires 1 <= depth && n <= 4
    requires forall dir: nat | dir < n :: move(board, dir) == board
    ensures PlayerUpTo(board, depth, n, table, eval, move) == PlayerState(false, 0.0, table)
  {
    if n > 0 {
      PlayerBlocked(board, depth, n - 1, table, eval, move);
    }
  }

  /** A player node where no direction changes the board is worth 0.0, and that is stored. */
  lemma SearchBlocked(board: Board, depth: nat, table: Table, eval: Board -> real, move: (Board, nat) -> Board)
    requires Key(board) !in table && 1 <= depth
    requires forall dir: nat | dir < 4 :: move(board, dir) == board
    ensures Search(board, depth, true, table, eval, move) == (0.0, table[Key(board) := 0.0])
  {
    PlayerBlocked(board, depth, 4, table, eval, move);
  }

  /** A chance node on a full board (`count_empty` is 0) is the player node at the same depth. */
  lemma SearchFullBoard(board: Board, depth: nat, table: Table, eval: Board -> real, move: (Board, nat) -> Board)
    requires Key(board) !in table && 1 <= depth && |EmptyCells(board)| == 0
    ensures Search(board, depth, false, table, eval, move) == Search(board, depth, true, table, eval, move)
  {
    EmptyShiftsSpec(board);
  }

  /** Every value of the table lies in [lo, hi]. */
  predicate InRange(t: Table, lo: real, hi: real)
  {
    forall k | k in t :: lo <= t[k] <= hi
  }

  /** n copies of x added up, the bound of a sum of n terms each at most (at least) x. */
  function Times(n: nat, x: real): real
  {
    if n == 0 then 0.0 else Times(n - 1, x) + x
  }

  lemma WeightedStep(total: real, n: nat, v2: real, v4: real, lo: real, hi: real)
    requires n > 0 && Times(n - 1, lo) <= total <= Times(n - 1, hi)
    requires lo <= v2 <= hi && lo <= v4 <= hi
    ensures Times(n, lo) <= total + 0.9 * v2 + 0.1 * v4 <= Times(n, hi)
  {
  }

  lemma {:induction false} TimesIsProduct(n: nat, x: real)
    ensures Times(n, x) == n as real * x
  {
    if n > 0 {
      TimesIsProduct(n - 1, x);
    }
  }

  lemma AverageInRange(total: real, n: nat, lo: real, hi: real)
    requires n > 0 && Times(n, lo) <= total <= Times(n, hi)
    ensures lo <= total / n as real <= hi
  {
    var m := n as real;
    var q := total / m;
    TimesIsProduct(n, lo);
    TimesIsProduct(n, hi);
    assert m * lo <= total <= m * hi;
    assert m * q == total;
    ScaleMonotone(lo, q, m);
    ScaleMonotone(q, hi, m);
  }

  /** For m > 0, m * x <= m * y gives x <= y. */
  lemma ScaleMonotone(x: real, y: real, m: real)
    requires m > 0.0 && m * x <= m * y
    ensures x <= y
  {
  }

  /**
   * When the heuristic and every stored value lie in an interval holding 0.0, so do the value of the
   * search and every value it stores: a node is a maximum of children, 0.0, the heuristic, a stored
   * value, or an average of children weighted 0.9 and 0.1.
   */
  lemma {:induction false} SearchInRange(board: Board, depth: nat, isPlayer: bool, table: Table, eval: Board -> real, move: (Board, nat) -> Board, lo: real, hi: real)
    requires lo <= 0.0 <= hi && (forall b :: lo <= eval(b) <= hi) && InRange(table, lo, hi)
    ensures lo <= Search(board, depth, isPlayer, table, eval, move).0 <= hi
    ensures InRange(Search(board, depth, isPlayer, table, eval, move).1, lo, hi)
    decreases Rank(depth, isPlayer), 1, 0
  {
    if Key(board) in table || depth == 0 {
    } else if isPlayer {
      PlayerNodeInRange(board, depth, table, eval, move, lo, hi);
    } else if |EmptyShifts(board)| == 0 {
      SearchInRange(board, depth, true, table, eval, move, lo, hi);
    } else {
      ChanceNodeInRange(board, depth, table, eval, move, lo, hi);
    }
  }

  lemma PlayerNodeInRange(board: Board, depth: nat, table: Table, eval: Board -> real, move: (Board, nat) -> Board, lo: real, hi: real)
    requires Key(board) !in table && 1 <= depth
    requires lo <= 0.0 <= hi && (forall b :: lo <= eval(b) <= hi) && InRange(table, lo, hi)
    ensures var (score, t) := Search(board, depth, true, table, eval, move);
      lo <= score <= hi && InRange(t, lo, hi)
    decreases Rank(depth, true), 0, 5
  {
    var state := PlayerUpTo(board, depth, 4, table, eval, move);
    PlayerInRange(board, depth, 4, table, eval, move, lo, hi);
    var score := if !state.moved then 0.0 else state.best;
    assert Search(board, depth, true, table, eval, move) == (score, state.table[Key(board) := score]);
  }

  lemma ChanceNodeInRange(board: Board, depth: nat, table: Table, eval: Board -> real, move: (Board, nat) -> Board, lo: real, hi: real)
    requires Key(board) !in table && 1 <= depth && |EmptyShifts(board)| > 0
    requires lo <= 0.0 <= hi && (forall b :: lo <= eval(b) <= hi) && InRange(table, lo, hi)
    ensures var (score, t) := Search(board, depth, false, table, eval, move);
      lo <= score <= hi && InRange(t, lo, hi)
    decreases Rank(depth, false), 0, |EmptyShifts(board)| + 1
  {
    var cells := EmptyShifts(board);
    ChanceInRange(board, depth, cells, |cells|, table, eval, move, lo, hi);
    var (total, t) := ChanceUpTo(board, depth, cells, |cells|, table, eval, move);
    AverageInRange(total, |cells|, lo, hi);
    var score := total / |cells| as real;
    assert Search(board, depth, false, table, eval, move) == (score, t[Key(board) := score]);
  }

  lemma {:induction false} PlayerInRange(board: Board, depth: nat, n: nat, table: Table, eval: Board -> real, move: (Board, nat) -> Board, lo: real, hi: real)
    requires 1 <= depth && n <= 4
    requires lo <= 0.0 <= hi && (forall b :: lo <= eval(b) <= hi) && InRange(table, lo, hi)
    ensures var state := PlayerUpTo(board, depth, n, table, eval, move);
      (state.moved ==> lo <= state.best <= hi) && InRange(state.table, lo, hi)
    decreases Rank(depth, true), 0, n
  {
    if n > 0 {
      var state := PlayerUpTo(board, depth, n - 1, table, eval, move);
      PlayerInRange(board, depth, n - 1, table, eval, move, lo, hi);
      if move(board, n - 1) != board {
        SearchInRange(move(board, n - 1), depth - 1, false, state.table, eval, move, lo, hi);
      }
    }
  }

  lemma {:induction false} ChanceInRange(board: Board, depth: nat, cells: seq<nat>, n: nat, table: Table, eval: Board -> real, move: (Board, nat) -> Board, lo: real, hi: real)
    requires 1 <= depth && n <= |cells|
    requires lo <= 0.0 <= hi && (forall b :: lo <= eval(b) <= hi) && InRange(table, lo, hi)
    ensures var (total, t) := ChanceUpTo(board, depth, cells, n, table, eval, move);
      Times(n, lo) <= total <= Times(n, hi) && InRange(t, lo, hi)
    decreases Rank(depth, false), 0, n
  {
    if n > 0 {
      var (total, t) := ChanceUpTo(board, depth, cells, n - 1, table, eval, move);
      ChanceInRange(board, depth, cells, n - 1, table, eval, move, lo, hi);
      var (v2, t2) := Search(Spawn(board, cells[n - 1], 1), depth - 1, true, t, eval, move);
      SearchInRange(Spawn(board, cells[n - 1], 1), depth - 1, true, t, eval, move, lo, hi);
      var (v4, t4) := Search(Spawn(board, cells[n - 1], 2), depth - 1, true, t2, eval, move);
      SearchInRange(Spawn(board, cells[n - 1], 2), depth - 1, true, t2, eval, move, lo, hi);
      WeightedStep(total, n, v2, v4, lo, hi);
    }
  }

  // ---------------------------------------------------------------- find_best_move

  /** What the root loop of `find_best_move` has after directions 0..n-1; `bestScore` is None for minus infinity. */
  datatype RootState = RootState(bestMove: nat, bestScore: Option<real>, table: Table)

  /** `score > best_score` with None for minus infinity. */
  predicate Beats(score: real, best: Option<real>)
  {
    best.None? || score > best.value
  }

  /**
   * The root loop of `find_best_move` over directions 0..n-1: every direction that changes the board is
   * searched as a chance node one level down, all of them sharing one table that starts empty, and a
   * direction is taken only when it beats the best so far.
   */
  function RootUpTo(board: Board, depth: nat, n: nat, eval: Board -> real, move: (Board, nat) -> Board): RootState
    requires 1 <= depth && n <= 4
  {
    if n == 0 then RootState(0, None, map[])
    else
      var state := RootUpTo(board, depth, n - 1, eval, move);
      var newBoard := move(board, n - 1);
      if newBoard != board then
        var (score, t) := Search(newBoard, depth - 1, false, state.table, eval, move);
        if Beats(score, state.bestScore) then RootState(n - 1, Some(score), t)
        else RootState(state.bestMove, state.bestScore, t)
      else state
  }

  /** The value the root loop finds for direction i, which changes the board. */
  function ChildScore(board: Board, depth: nat, i: nat, eval: Board -> real, move: (Board, nat) -> Board): real
    requires 1 <= depth && i < 4
  {
    Search(move(board, i), depth - 1, false, RootUpTo(board, depth, i, eval, move).table, eval, move).0
  }

  /** `find_best_move`: the direction (0 up, 1 down, 2 left, 3 right) the search rates best. */
  method FindBestMove(board: Board, searchDepth: nat, eval: Board -> real, move: (Board, nat) -> Board)
    returns (bestMove: nat)
    requires 1 <= searchDepth
    ensures bestMove == RootUpTo(board, searchDepth, 4, eval, move).bestMove
    ensures bestMove < 4
  {
    bestMove := 0;
    var bestScore: Option<real> := None;
    var table: Table := map[];
    var i := 0;
    while i < 4
      invariant 0 <= i <= 4
      invariant RootState(bestMove, bestScore, table) == RootUpTo(board, searchDepth, i, eval, move)
    {
      var newBoard := move(board, i);
      if newBoard != board {
        var score;
        score, table := Expectimax(newBoard, searchDepth - 1, false, table, eval, move);
        if Beats(score, bestScore) {
          bestScore := Some(score);
          bestMove := i;
        }
      }
      i := i + 1;
    }
    RootChoice(board, searchDepth, 4, eval, move);
  }

  /** `find_best_move` with the heuristic and the move of ai.rs. */
  method FindBestMoveWith(board: Board, searchDepth: nat, ln1p: real -> real) returns (bestMove: nat)
    requires 1 <= searchDepth
    ensures bestMove == RootUpTo(board, searchDepth, 4, Heuristic(ln1p), Mover()).bestMove
    ensures bestMove < 4
  {
    bestMove := FindBestMove(board, searchDepth, Heuristic(ln1p), Mover());
  }

  /**
   * The choice of the root loop: a direction below n; a score exactly when some direction below n
   * changes the board, and then the chosen direction is one that does; otherwise direction 0.
   */
  lemma {:induction false} RootChoice(board: Board, depth: nat, n: nat, eval: Board -> real, move: (Board, nat) -> Board)
    requires 1 <= depth && n <= 4
    ensures var state := RootUpTo(board, depth, n, eval, move);
      && (state.bestMove < n || state.bestMove == 0)
      && (state.bestScore.Some? <==> exists i: nat | i < n :: move(board, i) != board)
      && (state.bestScore.Some? ==> move(board, state.bestMove) != board)
      && (state.bestScore.None? ==> state.bestMove == 0)
  {
    if n > 0 {
      RootChoice(board, depth, n - 1, eval, move);
      var state := RootUpTo(board, depth, n, eval, move);
      if state.bestScore.Some? && move(board, n - 1) == board {
        var i: nat :| i < n - 1 && move(board, i) != board;
      }
    }
  }

  /**
   * The chosen direction is the first best: its score is at least that of every direction below n that
   * changes the board, and strictly above that of every such direction before it.
   */
  lemma {:induction false} RootBest(board: Board, depth: nat, n: nat, eval: Board -> real, move: (Board, nat) -> Board)
    requires 1 <= depth && n <= 4
    ensures var state := RootUpTo(board, depth, n, eval, move);
      && (state.bestScore.Some? ==> state.bestMove < n && state.bestScore.value == ChildScore(board, depth, state.bestMove, eval, move))
      && (forall i: nat | i < n && move(board, i) != board ::
            state.bestScore.Some? && ChildScore(board, depth, i, eval, move) <= state.bestScore.value)
      && (state.bestScore.Some? ==> forall i: nat | i < state.bestMove && move(board, i) != board ::
            ChildScore(board, depth, i, eval, move) < state.bestScore.value)
  {
    if n > 0 {
      RootBest(board, depth, n - 1, eval, move);
    }
  }
}
