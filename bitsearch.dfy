/**
 * The expectimax search of wasm-lib/src/bitboard.rs: `find_empty_cells`, `expectimax` and
 * `expectimax_search`.
 *
 * It is the search of ai.rs with four differences: the empty cells are listed as indices, a depth-0
 * value is stored in the table, a player node starts its maximum at -1.0 and falls back to the heuristic
 * when the maximum is still -1.0, and the root gives every direction a table of its own and also
 * reports the best score. As in `Search`, the table is passed in and handed back, and the heuristic and
 * the move are parameters (`BitHeuristic` and `Search.Mover`, which `Bitboard.BitboardTables.MoveBoard`
 * computes).
 */
module BitboardSearch {
  import opened Board
  import opened Search
  import opened BitboardHeuristics

  // ---------------------------------------------------------------- find_empty_cells

  /** The indices k < n of the empty cells, in ascending order. */
  function EmptyIndicesBelow(b: Board, n: int): seq<nat>
    requires 0 <= n <= 16
  {
    if n == 0 then [] else EmptyIndicesBelow(b, n - 1) + (if Nibble(b, n - 1) == 0 then [n - 1] else [])
  }

  function EmptyIndices(b: Board): seq<nat>
  {
    EmptyIndicesBelow(b, 16)
  }

  /** `find_empty_cells`: the index of every nibble that is 0. */
  method FindEmptyCells(board: Board) returns (emptyCells: seq<nat>)
    ensures emptyCells == EmptyIndices(board)
  {
    emptyCells := [];
    for i := 0 to 16
      invariant emptyCells == EmptyIndicesBelow(board, i)
    {
      if Nibble(board, i) == 0 {
        emptyCells := emptyCells + [i];
      }
    }
  }

  /** The indices below n are the shifts of ai.rs divided by four, one for one. */
  lemma {:induction false} EmptyIndicesAreShifts(b: Board, n: int)
    requires 0 <= n <= 16
    ensures |EmptyIndicesBelow(b, n)| == |EmptyShiftsBelow(b, n)|
    ensures forall j | 0 <= j < |EmptyIndicesBelow(b, n)| :: EmptyShiftsBelow(b, n)[j] == 4 * EmptyIndicesBelow(b, n)[j]
  {
    if n > 0 {
      EmptyIndicesAreShifts(b, n - 1);
    }
  }

  lemma EmptyIndicesBelowCells(b: Board, n: int)
    requires 0 <= n <= 16
    ensures |EmptyIndicesBelow(b, n)| == |EmptyCellsBelow(b, n)|
    ensures forall j | 0 <= j < |EmptyIndicesBelow(b, n)| :: EmptyIndicesBelow(b, n)[j] in EmptyCellsBelow(b, n)
    ensures forall k | k in EmptyCellsBelow(b, n) :: k in EmptyIndicesBelow(b, n)
  {
    EmptyIndicesBelowCount(b, n);
    EmptyIndicesBelowSound(b, n);
    EmptyIndicesBelowComplete(b, n);
  }

  lemma {:induction false} EmptyIndicesBelowCount(b: Board, n: int)
    requires 0 <= n <= 16
    ensures |EmptyIndicesBelow(b, n)| == |EmptyCellsBelow(b, n)|
  {
    if n > 0 {
      EmptyIndicesBelowCount(b, n - 1);
      EmptyCellsStep(b, n - 1);
    }
  }

  lemma {:induction false} EmptyIndicesBelowSound(b: Board, n: int)
    requires 0 <= n <= 16
    ensures forall j | 0 <= j < |EmptyIndicesBelow(b, n)| :: 0 <= EmptyIndicesBelow(b, n)[j] < n && Nibble(b, EmptyIndicesBelow(b, n)[j]) == 0
  {
    if n > 0 {
      EmptyIndicesBelowSound(b, n - 1);
      var prev, cur := EmptyIndicesBelow(b, n - 1), EmptyIndicesBelow(b, n);
      forall j | 0 <= j < |cur|
        ensures 0 <= cur[j] < n && Nibble(b, cur[j]) == 0
      {
        if j < |prev| {
          assert cur[j] == prev[j];
        }
      }
    }
  }

  lemma {:induction false} EmptyIndicesBelowComplete(b: Board, n: int)
    requires 0 <= n <= 16
    ensures forall k | 0 <= k < n && Nibble(b, k) == 0 :: k in EmptyIndicesBelow(b, n)
  {
    if n > 0 {
      EmptyIndicesBelowComplete(b, n - 1);
      var prev, cur := EmptyIndicesBelow(b, n - 1), EmptyIndicesBelow(b, n);
      forall k | 0 <= k < n && Nibble(b, k) == 0
        ensures k in cur
      {
        if k < n - 1 {
          assert k in prev;
        } else {
          assert cur[|cur| - 1] == k;
        }
      }
    }
  }

  lemma {:induction false} EmptyIndicesBelowSorted(b: Board, n: int)
    requires 0 <= n <= 16
    ensures forall j | 0 <= j < |EmptyIndicesBelow(b, n)| :: EmptyIndicesBelow(b, n)[j] < n
    ensures forall j, j' | 0 <= j < j' < |EmptyIndicesBelow(b, n)| :: EmptyIndicesBelow(b, n)[j] < EmptyIndicesBelow(b, n)[j']
  {
    if n > 0 {
      EmptyIndicesBelowSorted(b, n - 1);
    }
  }

  /**
   * The indices are exactly the empty cells, each once and in ascending order, so there are
   * `count_empty` of them.
   */
  lemma EmptyIndicesSpec(b: Board)
    ensures |EmptyIndices(b)| == |EmptyCells(b)|
    ensures forall j | 0 <= j < |EmptyIndices(b)| :: EmptyIndices(b)[j] in EmptyCells(b)
    ensures forall k | k in EmptyCells(b) :: k in EmptyIndices(b)
    ensures forall j, j' | 0 <= j < j' < |EmptyIndices(b)| :: EmptyIndices(b)[j] < EmptyIndices(b)[j']
  {
    EmptyIndicesBelowCells(b, 16);
    EmptyIndicesBelowSorted(b, 16);
  }

  /** Cell `EmptyIndices(b)[j]` is at the shift `EmptyShifts(b)[j]` of ai.rs. */
  lemma EmptyIndicesShifts(b: Board)
    ensures |EmptyIndices(b)| == |EmptyShifts(b)|
    ensures forall j | 0 <= j < |EmptyIndices(b)| :: EmptyShifts(b)[j] == 4 * EmptyIndices(b)[j]
  {
    EmptyIndicesAreShifts(b, 16);
  }

  // ---------------------------------------------------------------- expectimax

  /** The heuristic the search of bitboard.rs calls: `evaluate_bitboard`. */
  function BitHeuristic(ln: real -> real): Board -> real
  {
    b => BitEvaluation(b, ln)
  }

  /**
   * The value of `expectimax(board, depth, isPlayer)` started with `table`, and the table it leaves.
   * The table is probed first; at depth 0 the heuristic is stored and returned; a player node takes
   * the larger of -1.0 and the best child that moved, and the heuristic when that is still -1.0; a
   * chance node with no empty cell is searched as a player node at the same depth; otherwise it
   * averages 0.9 times the child with a 2 and 0.1 times the child with a 4 over the empty cells. Every
   * value computed is stored under the board, except that of a chance node on a full board, which
   * the player node it becomes stores.
   */
  function Value(board: Board, depth: nat, isPlayer: bool, table: Table, eval: Board -> real, move: (Board, nat) -> Board): (real, Table)
    decreases Rank(depth, isPlayer), 1, 0
  {
    if Key(board) in table then (table[Key(board)], table)
    else if depth == 0 then (eval(board), table[Key(board) := eval(board)])
    else if isPlayer then
      var (maxScore, t) := PlayerBest(board, depth, 4, table, eval, move);
      var score := if maxScore == -1.0 then eval(board) else maxScore;
      (score, t[Key(board) := score])
    else
      var cells := EmptyIndices(board);
      if |cells| == 0 then Value(board, depth, true, table, eval, move)
      else
        var (total, t) := ChanceTotal(board, depth, cells, |cells|, table, eval, move);
        var score := total / |cells| as real;
        (score, t[Key(board) := score])
  }

  /** The player loop over directions 0..n-1: the running `max_score`, which starts at -1.0, and the table. */
  function PlayerBest(board: Board, depth: nat, n: nat, table: Table, eval: Board -> real, move: (Board, nat) -> Board): (real, Table)
    requires 1 <= depth && n <= 4
    decreases Rank(depth, true), 0, n
  {
    if n == 0 then (-1.0, table)
    else
      var (maxScore, t) := PlayerBest(board, depth, n - 1, table, eval, move);
      var newBoard := move(board, n - 1);
      if newBoard != board then
        var (v, t') := Value(newBoard, depth - 1, false, t, eval, move);
        (MaxReal(maxScore, v), t')
      else (maxScore, t)
  }

  /** The chance loop over the first n empty cells: the weighted total and the table. */
  function ChanceTotal(board: Board, depth: nat, cells: seq<nat>, n: nat, table: Table, eval: Board -> real, move: (Board, nat) -> Board): (real, Table)
    requires 1 <= depth && n <= |cells|
    decreases Rank(depth, false), 0, n
  {
    if n == 0 then (0.0, table)
    else
      var (total, t) := ChanceTotal(board, depth, cells, n - 1, table, eval, move);
      var (v2, t2) := Value(Spawn(board, 4 * cells[n - 1], 1), depth - 1, true, t, eval, move);
      var (v4, t4) := Value(Spawn(board, 4 * cells[n - 1], 2), depth - 1, true, t2, eval, move);
      (total + 0.9 * v2 + 0.1 * v4, t4)
  }

  /** `expectimax` of bitboard.rs, recursing as the source does, with the table passed in and handed back. */
  method BitExpectimax(board: Board, depth: nat, isPlayerTurn: bool, table: Table, eval: Board -> real, move: (Board, nat) -> Board)
    returns (score: real, newTable: Table)
    ensures (score, newTable) == Value(board, depth, isPlayerTurn, table, eval, move)
    decreases Rank(depth, isPlayerTurn), 1, 0
  {
    if Key(board) in table {
      return table[Key(board)], table;
    }
    if depth == 0 {
      score := eval(board);
      return score, table[Key(board) := score];
    }
    if isPlayerTurn {
      var maxScore;
      maxScore, newTable := BitPlayerMoves(board, depth, table, eval, move);
      score := if maxScore == -1.0 then eval(board) else maxScore;
    } else {
      var emptyCells := FindEmptyCells(board);
      var numEmpty := |emptyCells|;
      if numEmpty == 0 {
        score, newTable := BitExpectimax(board, depth, true, table, eval, move);
        return;
      }
      var totalScore;
      totalScore, newTable := BitChanceTiles(board, depth, emptyCells, table, eval, move);
      score := totalScore / numEmpty as real;
    }
    newTable := newTable[Key(board) := score];
  }

  /** The player's loop: `max_score.max(...)` over every direction that changes the board. */
  method BitPlayerMoves(board: Board, depth: nat, table: Table, eval: Board -> real, move: (Board, nat) -> Board)
    returns (maxScore: real, newTable: Table)
    requires 1 <= depth
    ensures (maxScore, newTable) == PlayerBest(board, depth, 4, table, eval, move)
    decreases Rank(depth, true), 0, 4
  {
    maxScore := -1.0;
    newTable := table;
    for m := 0 to 4
      invariant (maxScore, newTable) == PlayerBest(board, depth, m, table, eval, move)
    {
      var newBoard := move(board, m);
      if newBoard != board {
        var v;
        v, newTable := BitExpectimax(newBoard, depth - 1, false, newTable, eval, move);
        maxScore := MaxReal(maxScore, v);
      }
    }
  }

  /** The computer's loop: a 2 (weight 0.9) and a 4 (weight 0.1) in every empty cell. */
  method BitChanceTiles(board: Board, depth: nat, emptyCells: seq<nat>, table: Table, eval: Board -> real, move: (Board, nat) -> Board)
    returns (totalScore: real, newTable: Table)
    requires 1 <= depth
    ensures (totalScore, newTable) == ChanceTotal(board, depth, emptyCells, |emptyCells|, table, eval, move)
    decreases Rank(depth, false), 0, |emptyCells|
  {
    totalScore := 0.0;
    newTable := table;
    for j := 0 to |emptyCells|
      invariant (totalScore, newTable) == ChanceTotal(board, depth, emptyCells, j, table, eval, move)
    {
      var cellIdx := emptyCells[j];
      var boardWith2 := Spawn(board, 4 * cellIdx, 1);
      var v2;
      v2, newTable := BitExpectimax(boardWith2, depth - 1, true, newTable, eval, move);
      totalScore := totalScore + 0.9 * v2;
      var boardWith4 := Spawn(board, 4 * cellIdx, 2);
      var v4;
      v4, newTable := BitExpectimax(boardWith4, depth - 1, true, newTable, eval, move);
      totalScore := totalScore + 0.1 * v4;
    }
  }

  // ---------------------------------------------------------------- properties of the search

  /**
   * The table only grows and no entry is ever overwritten; a board found in the table is answered from
   * it and leaves the table as it was; at depth 0 the heuristic is returned and stored; and whatever a
   * call returns is what the table it leaves holds for its board.
   */
  lemma {:induction false} ValueTable(board: Board, depth: nat, isPlayer: bool, table: Table, eval: Board -> real, move: (Board, nat) -> Board)
    ensures Extends(Value(board, depth, isPlayer, table, eval, move).1, table)
    ensures Key(board) in table ==> Value(board, depth, isPlayer, table, eval, move) == (table[Key(board)], table)
    ensures Key(board) !in table && depth == 0 ==>
      Value(board, depth, isPlayer, table, eval, move) == (eval(board), table[Key(board) := eval(board)])
    ensures var (score, t) := Value(board, depth, isPlayer, table, eval, move);
      Key(board) in t && t[Key(board)] == score
    decreases Rank(depth, isPlayer), 1, 0
  {
    if Key(board) in table || depth == 0 {
    } else if isPlayer {
      var (maxScore, t) := PlayerBest(board, depth, 4, table, eval, move);
      PlayerTable(board, depth, 4, table, eval, move);
      var score := if maxScore == -1.0 then eval(board) else maxScore;
      assert Value(board, depth, isPlayer, table, eval, move) == (score, t[Key(board) := score]);
    } else if |EmptyIndices(board)| == 0 {
      ValueTable(board, depth, true, table, eval, move);
    } else {
      var cells := EmptyIndices(board);
      var (total, t) := ChanceTotal(board, depth, cells, |cells|, table, eval, move);
      ChanceTable(board, depth, cells, |cells|, table, eval, move);
      var score := total / |cells| as real;
      assert Value(board, depth, isPlayer, table, eval, move) == (score, t[Key(board) := score]);
    }
  }

  lemma {:induction false} PlayerTable(board: Board, depth: nat, n: nat, table: Table, eval: Board -> real, move: (Board, nat) -> Board)
    requires 1 <= depth && n <= 4
    ensures Extends(PlayerBest(board, depth, n, table, eval, move).1, table)
    decreases Rank(depth, true), 0, n
  {
    if n > 0 {
      var (maxScore, t) := PlayerBest(board, depth, n - 1, table, eval, move);
      PlayerTable(board, depth, n - 1, table, eval, move);
      if move(board, n - 1) != board {
        ValueTable(move(board, n - 1), depth - 1, false, t, eval, move);
      }
    }
  }

  lemma {:induction false} ChanceTable(board: Board, depth: nat, cells: seq<nat>, n: nat, table: Table, eval: Board -> real, move: (Board, nat) -> Board)
    requires 1 <= depth && n <= |cells|
    ensures Extends(ChanceTotal(board, depth, cells, n, table, eval, move).1, table)
    decreases Rank(depth, false), 0, n
  {
    if n > 0 {
      var (total, t) := ChanceTotal(board, depth, cells, n - 1, table, eval, move);
      ChanceTable(board, depth, cells, n - 1, table, eval, move);
      var (v2, t2) := Value(Spawn(board, 4 * cells[n - 1], 1), depth - 1, true, t, eval, move);
      ValueTable(Spawn(board, 4 * cells[n - 1], 1), depth - 1, true, t, eval, move);
      ValueTable(Spawn(board, 4 * cells[n - 1], 2), depth - 1, true, t2, eval, move);
    }
  }

  /** The value the player loop finds for direction i, searched with the table directions 0..i-1 left. */
  function ChildValue(board: Board, depth: nat, i: nat, table: Table, eval: Board -> real, move: (Board, nat) -> Board): real
    requires 1 <= depth && i < 4
  {
    Value(move(board, i), depth - 1, false, PlayerBest(board, depth, i, table, eval, move).1, eval, move).0
  }

  /**
   * `max_score` after directions 0..n-1 is the larger of -1.0 and every child that moved: it is at
   * least -1.0 and at least every such child, and it is -1.0 or one of them.
   */
  lemma {:induction false} PlayerBestIsMax(board: Board, depth: nat, n: nat, table: Table, eval: Board -> real, move: (Board, nat) -> Board)
    requires 1 <= depth && n <= 4
    ensures var maxScore := PlayerBest(board, depth, n, table, eval, move).0;
      && -1.0 <= maxScore
      && (forall i: nat | i < n && move(board, i) != board :: ChildValue(board, depth, i, table, eval, move) <= maxScore)
      && (maxScore == -1.0 || exists i: nat | i < n && move(board, i) != board :: ChildValue(board, depth, i, table, eval, move) == maxScore)
  {
    if n > 0 {
      PlayerBestIsMax(board, depth, n - 1, table, eval, move);
      var (m, t) := PlayerBest(board, depth, n - 1, table, eval, move);
      var k := n - 1;
      if move(board, k) != board {
        var v := ChildValue(board, depth, k, table, eval, move);
        assert v == Value(move(board, k), depth - 1, false, t, eval, move).0;
        assert PlayerBest(board, depth, n, table, eval, move).0 == MaxReal(m, v);
      } else {
        assert PlayerBest(board, depth, n, table, eval, move) == (m, t);
      }
    }
  }

  /**
   * A player node (not in the table, depth at least 1) is worth the best child that moved when that
   * child is above -1.0, and the heuristic of the board itself when every child that moved is at most
   * -1.0, in particular when no direction changes the board.
   */
  lemma PlayerValue(board: Board, depth: nat, table: Table, eval: Board -> real, move: (Board, nat) -> Board)
    requires Key(board) !in table && 1 <= depth
    ensures var (score, t) := Value(board, depth, true, table, eval, move);
      && ((forall i: nat | i < 4 && move(board, i) != board :: ChildValue(board, depth, i, table, eval, move) <= -1.0)
            ==> score == eval(board))
      && ((exists i: nat | i < 4 && move(board, i) != board :: ChildValue(board, depth, i, table, eval, move) > -1.0)
            ==> ((forall i: nat | i < 4 && move(board, i) != board :: ChildValue(board, depth, i, table, eval, move) <= score)
                 && (exists i: nat | i < 4 && move(board, i) != board :: ChildValue(board, depth, i, table, eval, move) == score)))
  {
    PlayerBestIsMax(board, depth, 4, table, eval, move);
  }

  /** A chance node on a full board (`count_empty` is 0) is the player node at the same depth. */
  lemma ValueFullBoard(board: Board, depth: nat, table: Table, eval: Board -> real, move: (Board, nat) -> Board)
    requires Key(board) !in table && 1 <= depth && |EmptyCells(board)| == 0
    ensures Value(board, depth, false, table, eval, move) == Value(board, depth, true, table, eval, move)
  {
    EmptyIndicesSpec(board);
  }

  /**
   * When the heuristic and every stored value lie in [lo, hi], so do the value of the search and every
   * value it stores: a node is the heuristic, a stored value, a child, or an average of children
   * weighted 0.9 and 0.1. Unlike in ai.rs, the interval need not hold the starting -1.0.
   */
  lemma {:induction false} ValueInRange(board: Board, depth: nat, isPlayer: bool, table: Table, eval: Board -> real, move: (Board, nat) -> Board, lo: real, hi: real)
    requires (forall b :: lo <= eval(b) <= hi) && InRange(table, lo, hi)
    ensures lo <= Value(board, depth, isPlayer, table, eval, move).0 <= hi
    ensures InRange(Value(board, depth, isPlayer, table, eval, move).1, lo, hi)
    decreases Rank(depth, isPlayer), 1, 0
  {
    if Key(board) in table || depth == 0 {
    } else if isPlayer {
      PlayerNodeInRange(board, depth, table, eval, move, lo, hi);
    } else if |EmptyIndices(board)| == 0 {
      ValueInRange(board, depth, true, table, eval, move, lo, hi);
    } else {
      ChanceNodeInRange(board, depth, table, eval, move, lo, hi);
    }
  }

  lemma PlayerNodeInRange(board: Board, depth: nat, table: Table, eval: Board -> real, move: (Board, nat) -> Board, lo: real, hi: real)
    requires Key(board) !in table && 1 <= depth
    requires (forall b :: lo <= eval(b) <= hi) && InRange(table, lo, hi)
    ensures var (score, t) := Value(board, depth, true, table, eval, move);
      lo <= score <= hi && InRange(t, lo, hi)
    decreases Rank(depth, true), 0, 5
  {
    var (maxScore, t) := PlayerBest(board, depth, 4, table, eval, move);
    PlayerInRange(board, depth, 4, table, eval, move, lo, hi);
    var score := if maxScore == -1.0 then eval(board) else maxScore;
    assert Value(board, depth, true, table, eval, move) == (score, t[Key(board) := score]);
  }

  lemma ChanceNodeInRange(board: Board, depth: nat, table: Table, eval: Board -> real, move: (Board, nat) -> Board, lo: real, hi: real)
    requires Key(board) !in table && 1 <= depth && |EmptyIndices(board)| > 0
    requires (forall b :: lo <= eval(b) <= hi) && InRange(table, lo, hi)
    ensures var (score, t) := Value(board, depth, false, table, eval, move);
      lo <= score <= hi && InRange(t, lo, hi)
    decreases Rank(depth, false), 0, |EmptyIndices(board)| + 1
  {
    var cells := EmptyIndices(board);
    ChanceInRange(board, depth, cells, |cells|, table, eval, move, lo, hi);
    var (total, t) := ChanceTotal(board, depth, cells, |cells|, table, eval, move);
    AverageInRange(total, |cells|, lo, hi);
    var score := total / |cells| as real;
    assert Value(board, depth, false, table, eval, move) == (score, t[Key(board) := score]);
  }

  lemma {:induction false} PlayerInRange(board: Board, depth: nat, n: nat, table: Table, eval: Board -> real, move: (Board, nat) -> Board, lo: real, hi: real)
    requires 1 <= depth && n <= 4
    requires (forall b :: lo <= eval(b) <= hi) && InRange(table, lo, hi)
    ensures var (maxScore, t) := PlayerBest(board, depth, n, table, eval, move);
      (maxScore == -1.0 || lo <= maxScore <= hi) && InRange(t, lo, hi)
    decreases Rank(depth, true), 0, n
  {
    if n > 0 {
      var (maxScore, t) := PlayerBest(board, depth, n - 1, table, eval, move);
      PlayerInRange(board, depth, n - 1, table, eval, move, lo, hi);
      if move(board, n - 1) != board {
        ValueInRange(move(board, n - 1), depth - 1, false, t, eval, move, lo, hi);
      }
    }
  }

  lemma {:induction false} ChanceInRange(board: Board, depth: nat, cells: seq<nat>, n: nat, table: Table, eval: Board -> real, move: (Board, nat) -> Board, lo: real, hi: real)
    requires 1 <= depth && n <= |cells|
    requires (forall b :: lo <= eval(b) <= hi) && InRange(table, lo, hi)
    ensures var (total, t) := ChanceTotal(board, depth, cells, n, table, eval, move);
      Times(n, lo) <= total <= Times(n, hi) && InRange(t, lo, hi)
    decreases Rank(depth, false), 0, n
  {
    if n > 0 {
      var (total, t) := ChanceTotal(board, depth, cells, n - 1, table, eval, move);
      ChanceInRange(board, depth, cells, n - 1, table, eval, move, lo, hi);
      var (v2, t2) := Value(Spawn(board, 4 * cells[n - 1], 1), depth - 1, true, t, eval, move);
      ValueInRange(Spawn(board, 4 * cells[n - 1], 1), depth - 1, true, t, eval, move, lo, hi);
      var (v4, t4) := Value(Spawn(board, 4 * cells[n - 1], 2), depth - 1, true, t2, eval, move);
      ValueInRange(Spawn(board, 4 * cells[n - 1], 2), depth - 1, true, t2, eval, move, lo, hi);
      WeightedStep(total, n, v2, v4, lo, hi);
    }
  }

  // ---------------------------------------------------------------- expectimax_search

  /**
   * The root loop of `expectimax_search` over directions 0..n-1: the best direction and score so far,
   * starting from direction 0 and -1.0; a direction that changes the board is searched as a chance node
   * one level down with a fresh table, and taken only when its score is above the best so far.
   */
  function RootSearch(board: Board, depth: nat, n: nat, eval: Board -> real, move: (Board, nat) -> Board): (nat, real)
    requires 1 <= depth && n <= 4
  {
    if n == 0 then (0, -1.0)
    else
      var (bestMove, bestScore) := RootSearch(board, depth, n - 1, eval, move);
      var newBoard := move(board, n - 1);
      if newBoard != board then
        var score := RootChild(board, depth, n - 1, eval, move);
        if score > bestScore then (n - 1, score) else (bestMove, bestScore)
      else (bestMove, bestScore)
  }

  /** The score the root gives direction i: its board searched from an empty table. */
  function RootChild(board: Board, depth: nat, i: nat, eval: Board -> real, move: (Board, nat) -> Board): real
    requires 1 <= depth
  {
    Value(move(board, i), depth - 1, false, map[], eval, move).0
  }

  /** `expectimax_search`: the direction (0 up, 1 down, 2 left, 3 right) rated best, and its score. */
  method ExpectimaxSearch(board: Board, depth: nat, eval: Board -> real, move: (Board, nat) -> Board)
    returns (bestMove: nat, bestScore: real)
    requires 1 <= depth
    ensures (bestMove, bestScore) == RootSearch(board, depth, 4, eval, move)
    ensures bestMove < 4
  {
    bestScore := -1.0;
    bestMove := 0;
    for m := 0 to 4
      invariant (bestMove, bestScore) == RootSearch(board, depth, m, eval, move)
      invariant bestMove < 4
    {
      var newBoard := move(board, m);
      if newBoard != board {
        var table: Table := map[];
        var score, _ := BitExpectimax(newBoard, depth - 1, false, table, eval, move);
        if score > bestScore {
          bestScore := score;
          bestMove := m;
        }
      }
    }
  }

  /** `expectimax_search` with `evaluate_bitboard` and `move_board`. */
  method ExpectimaxSearchWith(board: Board, depth: nat, ln: real -> real) returns (bestMove: nat, bestScore: real)
    requires 1 <= depth
    ensures (bestMove, bestScore) == RootSearch(board, depth, 4, BitHeuristic(ln), Mover())
    ensures bestMove < 4
  {
    bestMove, bestScore := ExpectimaxSearch(board, depth, BitHeuristic(ln), Mover());
  }

  /**
   * What the root reports after directions 0..n-1: the score is the larger of -1.0 and the score of
   * every direction that changes the board; when it is above -1.0 the move is the first direction
   * with that score, and that direction changes the board; otherwise the move is 0, whether or not
   * direction 0 changes the board.
   */
  lemma {:induction false} RootSearchChoice(board: Board, depth: nat, n: nat, eval: Board -> real, move: (Board, nat) -> Board)
    requires 1 <= depth && n <= 4
    ensures var (bestMove, bestScore) := RootSearch(board, depth, n, eval, move);
      && -1.0 <= bestScore
      && (forall i: nat | i < n && move(board, i) != board :: RootChild(board, depth, i, eval, move) <= bestScore)
      && (bestScore == -1.0 ==> bestMove == 0)
      && (bestScore > -1.0 ==>
            && bestMove < n && move(board, bestMove) != board
            && RootChild(board, depth, bestMove, eval, move) == bestScore
            && forall i: nat | i < bestMove && move(board, i) != board :: RootChild(board, depth, i, eval, move) < bestScore)
  {
    if n > 0 {
      RootSearchChoice(board, depth, n - 1, eval, move);
    }
  }

  /**
   * The root reports (0, -1.0) exactly when no direction that changes the board scores above -1.0;
   * then direction 0 is reported even when it does not change the board.
   */
  lemma RootSearchNone(board: Board, depth: nat, eval: Board -> real, move: (Board, nat) -> Board)
    requires 1 <= depth
    ensures RootSearch(board, depth, 4, eval, move) == (0, -1.0)
      <==> forall i: nat | i < 4 && move(board, i) != board :: RootChild(board, depth, i, eval, move) <= -1.0
  {
    RootSearchChoice(board, depth, 4, eval, move);
  }
}
