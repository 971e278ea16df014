/**
 * The older bitboard engine of wasm-lib/src/bitboard.rs.
 *
 * It keeps its own row tables behind a build-once flag, slides a row with a single pass that carries
 * the last unmerged tile, and derives the right table by reversing rows. Its moves are proved equal
 * to those of the current engine (Ai.Move); its heuristic and search differ in the ways stated below.
 */
module Bitboard {
  import opened Board
  import opened Tables
  import opened Ai

  // ---------------------------------------------------------------- rows as tile arrays

  /** `unpack_row`: nibble i of the row becomes tile i. */
  method UnpackRow(row: Row) returns (tiles: seq<nat>)
    ensures tiles == Unpack(row)
  {
    tiles := [0, 0, 0, 0];
    for i := 0 to 4
      invariant |tiles| == 4
      invariant forall k | 0 <= k < i :: tiles[k] == Unpack(row)[k]
    {
      tiles := tiles[i := NibbleValue(RowNibble(row, i))];
    }
  }

  /** The tile still waiting for a partner in `slide_left`, as a sequence: none when it is 0. */
  function Pending(lastVal: nat): (p: seq<nat>)
    ensures |p| <= 1
  {
    if lastVal == 0 then [] else [lastVal]
  }

  /** The non-empty tiles of s from index i on, in their order. */
  function CompactFrom(s: seq<nat>, i: nat): seq<nat>
    requires i <= |s|
    decreases |s| - i
  {
    if i == |s| then [] else Pending(s[i]) + CompactFrom(s, i + 1)
  }

  lemma CompactCons(x: nat, rest: seq<nat>)
    ensures Compact([x] + rest) == Pending(x) + Compact(rest)
  {
    CompactAppend([x], rest);
    assert [x][..0] == [];
  }

  lemma {:induction false} CompactFromSuffix(s: seq<nat>, i: nat)
    requires i <= |s|
    ensures CompactFrom(s, i) == Compact(s[i..])
    decreases |s| - i
  {
    if i < |s| {
      CompactFromSuffix(s, i + 1);
      assert s[i..] == [s[i]] + s[i + 1..];
      CompactCons(s[i], s[i + 1..]);
    } else {
      assert s[i..] == [];
    }
  }

  /**
   * What `slide_left` has after tiles 0..i-1 of the row: the tiles written (`out`), the pending tile and
   * the score, which with the merge of the tiles still to come make up the reference merge and its score.
   */
  predicate SlideState(rowArray: seq<nat>, i: nat, out: seq<nat>, lastVal: nat, score: nat)
    requires i <= |rowArray|
  {
    && out + Merge(Pending(lastVal) + CompactFrom(rowArray, i)) == Merge(CompactFrom(rowArray, 0))
    && score + MergeScore(Pending(lastVal) + CompactFrom(rowArray, i)) == MergeScore(CompactFrom(rowArray, 0))
  }

  /** An empty cell is passed over. */
  lemma SlideSkip(rowArray: seq<nat>, i: nat, out: seq<nat>, lastVal: nat, score: nat)
    requires i < |rowArray| && rowArray[i] == 0 && SlideState(rowArray, i, out, lastVal, score)
    ensures SlideState(rowArray, i + 1, out, lastVal, score)
  {
    assert CompactFrom(rowArray, i) == [] + CompactFrom(rowArray, i + 1);
    assert CompactFrom(rowArray, i) == CompactFrom(rowArray, i + 1);
  }

  /** A tile with nothing pending becomes the pending tile. */
  lemma SlideHold(rowArray: seq<nat>, i: nat, out: seq<nat>, score: nat)
    requires i < |rowArray| && rowArray[i] != 0 && SlideState(rowArray, i, out, 0, score)
    ensures SlideState(rowArray, i + 1, out, rowArray[i], score)
  {
    assert Pending(0) + CompactFrom(rowArray, i) == [rowArray[i]] + CompactFrom(rowArray, i + 1);
  }

  /** A tile equal to the pending one merges with it: the sum is written and scored. */
  lemma SlideMerge(rowArray: seq<nat>, i: nat, out: seq<nat>, score: nat)
    requires i < |rowArray| && rowArray[i] != 0 && SlideState(rowArray, i, out, rowArray[i], score)
    ensures SlideState(rowArray, i + 1, out + [rowArray[i] + 1], 0, score + Pow2(rowArray[i] + 1))
  {
    var v := rowArray[i];
    var rest := CompactFrom(rowArray, i + 1);
    var t := Pending(v) + CompactFrom(rowArray, i);
    assert t == [v] + ([v] + rest);
    assert t[0] == t[1] && t[2..] == rest;
    assert Merge(t) == [v + 1] + Merge(rest);
    assert MergeScore(t) == Pow2(v + 1) + MergeScore(rest);
    assert Pending(0) + rest == rest;
    assert (out + [v + 1]) + Merge(rest) == out + Merge(t);
  }

  /** A tile different from the pending one writes the pending tile out and waits in its place. */
  lemma SlideWrite(rowArray: seq<nat>, i: nat, out: seq<nat>, lastVal: nat, score: nat)
    requires i < |rowArray| && rowArray[i] != 0 && lastVal != 0 && lastVal != rowArray[i]
    requires SlideState(rowArray, i, out, lastVal, score)
    ensures SlideState(rowArray, i + 1, out + [lastVal], rowArray[i], score)
  {
    var v := rowArray[i];
    var rest := CompactFrom(rowArray, i + 1);
    assert Pending(lastVal) + CompactFrom(rowArray, i) == [lastVal] + ([v] + rest);
    assert ([lastVal] + ([v] + rest))[1..] == [v] + rest;
    assert Pending(v) + rest == [v] + rest;
  }

  /** At the end of the row the pending tile, if any, is the last tile of the reference merge. */
  lemma SlideEnd(rowArray: seq<nat>, out: seq<nat>, lastVal: nat, score: nat)
    requires SlideState(rowArray, |rowArray|, out, lastVal, score)
    ensures out + Pending(lastVal) == Merge(Compact(rowArray)) && score == MergeScore(Compact(rowArray))
  {
    assert Pending(lastVal) + CompactFrom(rowArray, |rowArray|) == Pending(lastVal);
    CompactFromSuffix(rowArray, 0);
    assert rowArray[0..] == rowArray;
  }

  /** The tiles written so far, the pending tile and the score of `slide_left`. */
  datatype PassState = PassState(out: seq<nat>, lastVal: nat, score: nat)

  /** One iteration of the loop of `slide_left` on tile `val`. */
  function PassStep(st: PassState, val: nat): PassState
  {
    if val == 0 then st
    else if st.lastVal == 0 then PassState(st.out, val, st.score)
    else if st.lastVal == val then PassState(st.out + [val + 1], 0, st.score + Pow2(val + 1))
    else PassState(st.out + [st.lastVal], val, st.score)
  }

  /** The state of `slide_left` after tiles 0..i-1. */
  function PassUpTo(rowArray: seq<nat>, i: nat): PassState
    requires i <= |rowArray|
  {
    if i == 0 then PassState([], 0, 0) else PassStep(PassUpTo(rowArray, i - 1), rowArray[i - 1])
  }

  /** One iteration keeps the pass state in step with the reference merge. */
  lemma PassStepState(rowArray: seq<nat>, i: nat, st: PassState)
    requires i < |rowArray| && |st.out| + |Pending(st.lastVal)| <= i
    requires SlideState(rowArray, i, st.out, st.lastVal, st.score)
    ensures var st' := PassStep(st, rowArray[i]);
      |st'.out| + |Pending(st'.lastVal)| <= i + 1 && SlideState(rowArray, i + 1, st'.out, st'.lastVal, st'.score)
  {
    var val := rowArray[i];
    if val == 0 {
      SlideSkip(rowArray, i, st.out, st.lastVal, st.score);
    } else if st.lastVal == 0 {
      SlideHold(rowArray, i, st.out, st.score);
    } else if st.lastVal == val {
      SlideMerge(rowArray, i, st.out, st.score);
    } else {
      SlideWrite(rowArray, i, st.out, st.lastVal, st.score);
    }
  }

  /** The pass stays within the row, and with the merge of the tiles still to come makes up the reference merge. */
  lemma {:induction false} PassUpToState(rowArray: seq<nat>, i: nat)
    requires i <= |rowArray|
    ensures var st := PassUpTo(rowArray, i);
      |st.out| + |Pending(st.lastVal)| <= i && SlideState(rowArray, i, st.out, st.lastVal, st.score)
  {
    if i == 0 {
      assert Pending(0) + CompactFrom(rowArray, 0) == CompactFrom(rowArray, 0);
    } else {
      var prev := PassUpTo(rowArray, i - 1);
      PassUpToState(rowArray, i - 1);
      PassStepState(rowArray, i - 1, prev);
      assert PassUpTo(rowArray, i) == PassStep(prev, rowArray[i - 1]);
    }
  }

  /** The pass over the whole row is the reference merge of its tiles, and its score. */
  lemma PassComplete(rowArray: seq<nat>)
    ensures var st := PassUpTo(rowArray, |rowArray|);
      st.out + Pending(st.lastVal) == Merge(Compact(rowArray)) && st.score == MergeScore(Compact(rowArray))
  {
    PassUpToState(rowArray, |rowArray|);
    var st := PassUpTo(rowArray, |rowArray|);
    SlideEnd(rowArray, st.out, st.lastVal, st.score);
  }

  /**
   * `slide_left`: one pass over the row that skips empty cells and keeps the last tile not yet
   * written; an equal tile merges with it, a different one writes it out. It computes the reference
   * slide of tables.rs and its score.
   */
  method SlideLeftRow(rowArray: seq<nat>) returns (newRow: seq<nat>, score: nat)
    requires |rowArray| == 4 && NibbleTiles(rowArray)
    ensures newRow == SlideLeft(rowArray) && score == SlideScore(rowArray)
  {
    newRow := [0, 0, 0, 0];
    score := 0;
    var currentPos := 0;
    var lastVal := 0;
    ghost var out: seq<nat> := [];
    for i := 0 to 4
      invariant PassState(out, lastVal, score) == PassUpTo(rowArray, i)
      invariant currentPos == |out| && |out| + |Pending(lastVal)| <= i
      invariant |newRow| == 4 && newRow[..|out|] == out && forall k | |out| <= k < 4 :: newRow[k] == 0
    {
      PassUpToState(rowArray, i);
      var val := rowArray[i];
      if val == 0 {
      } else if lastVal == 0 {
        lastVal := val;
      } else if lastVal == val {
        newRow := newRow[currentPos := val + 1];
        score := score + Pow2(val + 1);
        out := out + [val + 1];
        lastVal := 0;
        currentPos := currentPos + 1;
      } else {
        newRow := newRow[currentPos := lastVal];
        out := out + [lastVal];
        lastVal := val;
        currentPos := currentPos + 1;
      }
    }
    PassComplete(rowArray);
    if lastVal != 0 {
      newRow := newRow[currentPos := lastVal];
    }
    PadIntro(newRow, Merge(Compact(rowArray)));
  }

  /** `reverse_row` on a tile array: tile i becomes tile 3 - i. */
  method ReverseTiles(rowArray: seq<nat>) returns (result: seq<nat>)
    requires |rowArray| == 4
    ensures result == Rev(rowArray)
  {
    result := [0, 0, 0, 0];
    for i := 0 to 4
      invariant |result| == 4
      invariant forall k | 0 <= k < i :: result[k] == rowArray[3 - k]
    {
      result := result[i := rowArray[3 - i]];
    }
  }

  /** `reverse_row_packed`: the four nibbles of a packed row in reverse order. */
  function ReverseRowPacked(row: Row): (r: Row)
    ensures r == ReverseRow(row)
  {
    ((row & 0xF) << 12) | ((row & 0xF0) << 4) | ((row & 0xF00) >> 4) | ((row & 0xF000) >> 12)
  }

  /** Reversing the packed row is packing the reversed tiles. */
  lemma ReverseRowPackedTiles(row: Row)
    ensures U16Tiles(Rev(Unpack(row))) && ReverseRowPacked(row) == Pack(Rev(Unpack(row)))
  {
    UnpackReverse(row);
    UnpackPack(ReverseRow(row));
  }

  /** The right move of one row: reverse it, move it left, reverse back. */
  function RightRow(row: Row): Row
  {
    ReverseRow(LeftRow(ReverseRow(row)))
  }

  // ---------------------------------------------------------------- the tables

  /**
   * The body of the fill loop of `init_tables` for one row: the left slide of the row and its score,
   * and the right slide, found by reversing the tiles, sliding left and reversing the packed result.
   */
  method TablesOfRow(i: int) returns (left: Row, right: Row, score: nat)
    requires 0 <= i < 0x1_0000
    ensures left == LeftEntry(i) && right == RightEntry(i) && score == ScoreEntry(i)
  {
    var row := i as Row;
    var rowArray := UnpackRow(row);
    var resultArray;
    resultArray, score := SlideLeftRow(rowArray);
    SlideLeftBounded(rowArray);
    left := PackTiles(resultArray);
    var reversedRow := ReverseTiles(rowArray);
    UnpackReverse(row);
    var resultReversed, _ := SlideLeftRow(reversedRow);
    SlideLeftBounded(reversedRow);
    var packedReversed := PackTiles(resultReversed);
    right := ReverseRowPacked(packedReversed);
  }

  /** The board the row loop of `move_left_internal` has ORed together after rows 0..n-1. */
  function OrRowsUpTo(b: Board, n: int, moveRow: Row -> Row): Board
    requires 0 <= n <= 4
  {
    if n == 0 then 0 else OrRowsUpTo(b, n - 1, moveRow) | AtRow(moveRow(GetRow(b, n - 1)), n - 1)
  }

  /** The bits of rows k..3 of a board. */
  function RowsFrom(k: int): bv64
    requires 0 <= k <= 4
  {
    if k == 0 then 0xFFFF_FFFF_FFFF_FFFF
    else if k == 1 then 0xFFFF_FFFF_FFFF_0000
    else if k == 2 then 0xFFFF_FFFF_0000_0000
    else if k == 3 then 0xFFFF_0000_0000_0000
    else 0
  }

  /** On a board whose rows k..3 are empty, setting row k is ORing it in, and rows k+1..3 stay empty. */
  lemma SetEmptyRow0(x: Board, v: Row)
    requires x & RowsFrom(0) == 0
    ensures SetRow(x, 0, v) == x | AtRow(v, 0)
    ensures (x | AtRow(v, 0)) & RowsFrom(1) == 0
  {
  }

  lemma SetEmptyRow1(x: Board, v: Row)
    requires x & RowsFrom(1) == 0
    ensures SetRow(x, 1, v) == x | AtRow(v, 1)
    ensures (x | AtRow(v, 1)) & RowsFrom(2) == 0
  {
  }

  lemma SetEmptyRow2(x: Board, v: Row)
    requires x & RowsFrom(2) == 0
    ensures SetRow(x, 2, v) == x | AtRow(v, 2)
    ensures (x | AtRow(v, 2)) & RowsFrom(3) == 0
  {
  }

  lemma SetEmptyRow3(x: Board, v: Row)
    requires x & RowsFrom(3) == 0
    ensures SetRow(x, 3, v) == x | AtRow(v, 3)
    ensures (x | AtRow(v, 3)) & RowsFrom(4) == 0
  {
  }

  /** ORing the rows into an empty board is setting them one by one; the rows not yet set stay empty. */
  lemma OrRowsAreSetRows1(b: Board, n: int, moveRow: Row -> Row)
    requires n == 1
    ensures OrRowsUpTo(b, n, moveRow) == RowsUpTo(b, n, moveRow)
    ensures RowsUpTo(b, n, moveRow) & RowsFrom(n) == 0
  {
    SetEmptyRow0(RowsUpTo(b, n - 1, moveRow), moveRow(GetRow(b, n - 1)));
  }

  lemma OrRowsAreSetRows2(b: Board, n: int, moveRow: Row -> Row)
    requires n == 2
    ensures OrRowsUpTo(b, n, moveRow) == RowsUpTo(b, n, moveRow)
    ensures RowsUpTo(b, n, moveRow) & RowsFrom(n) == 0
  {
    OrRowsAreSetRows1(b, n - 1, moveRow);
    SetEmptyRow1(RowsUpTo(b, n - 1, moveRow), moveRow(GetRow(b, n - 1)));
  }

  lemma OrRowsAreSetRows3(b: Board, n: int, moveRow: Row -> Row)
    requires n == 3
    ensures OrRowsUpTo(b, n, moveRow) == RowsUpTo(b, n, moveRow)
    ensures RowsUpTo(b, n, moveRow) & RowsFrom(n) == 0
  {
    OrRowsAreSetRows2(b, n - 1, moveRow);
    SetEmptyRow2(RowsUpTo(b, n - 1, moveRow), moveRow(GetRow(b, n - 1)));
  }

  lemma OrRowsAreSetRows4(b: Board, n: int, moveRow: Row -> Row)
    requires n == 4
    ensures OrRowsUpTo(b, n, moveRow) == RowsUpTo(b, n, moveRow)
    ensures RowsUpTo(b, n, moveRow) & RowsFrom(n) == 0
  {
    OrRowsAreSetRows3(b, n - 1, moveRow);
    SetEmptyRow3(RowsUpTo(b, n - 1, moveRow), moveRow(GetRow(b, n - 1)));
  }

  /**
   * The row loop of `move_left_internal` and `move_right_internal`: each row of the board indexes the
   * table, the entry is ORed in at the same row of an empty board, and the score table entries are added.
   */
  method LookupRows(board: Board, rowTable: array<Row>, scores: array<nat>, moveRow: Row -> Row, rowScore: Row -> nat)
    returns (newBoard: Board, score: nat)
    requires rowTable.Length == 0x1_0000 && scores.Length == 0x1_0000
    requires forall row: Row :: rowTable[row as int] == moveRow(row)
    requires forall row: Row :: scores[row as int] == rowScore(row)
    ensures newBoard == RowsUpTo(board, 4, moveRow) && score == ScoreUpTo(board, 4, rowScore)
  {
    newBoard := 0;
    score := 0;
    for i := 0 to 4
      invariant newBoard == OrRowsUpTo(board, i, moveRow) && score == ScoreUpTo(board, i, rowScore)
    {
      var rowIdx := GetRow(board, i);
      newBoard := newBoard | AtRow(rowTable[rowIdx as int], i);
      score := score + scores[rowIdx as int];
    }
    OrRowsAreSetRows4(board, 4, moveRow);
  }

  /** A right move of every row in place is the right move of ai.rs (reverse, left, reverse), with the same score. */
  lemma RightRowsAreMovedRight(b: Board)
    ensures RowsUpTo(b, 4, RightRow) == MovedRight(b)
    ensures ScoreUpTo(b, 4, LeftScore) == RightMoveScore(b)
  {
    RowsUpToRow(b, 4, RightRow, 0);
    RowsUpToRow(b, 4, RightRow, 1);
    RowsUpToRow(b, 4, RightRow, 2);
    RowsUpToRow(b, 4, RightRow, 3);
    MovedRightRow(b, 0);
    MovedRightRow(b, 1);
    MovedRightRow(b, 2);
    MovedRightRow(b, 3);
    RowsDetermine(RowsUpTo(b, 4, RightRow), MovedRight(b));
    RightMoveScoreIsLeft(b);
  }

  /** The entries `init_tables` writes at index j of its three tables. */
  function LeftEntry(j: int): Row
    requires 0 <= j < 0x1_0000
  {
    LeftRow(j as Row)
  }

  function RightEntry(j: int): Row
    requires 0 <= j < 0x1_0000
  {
    RightRow(j as Row)
  }

  function ScoreEntry(j: int): nat
    requires 0 <= j < 0x1_0000
  {
    LeftScore(j as Row)
  }

  /** A table filled by index is a table indexed by row. */
  lemma LeftByRow(left: array<Row>)
    requires left.Length == 0x1_0000 && forall j | 0 <= j < 0x1_0000 :: left[j] == LeftEntry(j)
    ensures forall row: Row :: left[row as int] == LeftRow(row)
  {
    forall row: Row
      ensures left[row as int] == LeftRow(row)
    {
      assert (row as int) as Row == row;
    }
  }

  lemma RightByRow(right: array<Row>)
    requires right.Length == 0x1_0000 && forall j | 0 <= j < 0x1_0000 :: right[j] == RightEntry(j)
    ensures forall row: Row :: right[row as int] == RightRow(row)
  {
    forall row: Row
      ensures right[row as int] == RightRow(row)
    {
      assert (row as int) as Row == row;
    }
  }

  lemma ScoreByRow(scores: array<nat>)
    requires scores.Length == 0x1_0000 && forall j | 0 <= j < 0x1_0000 :: scores[j] == ScoreEntry(j)
    ensures forall row: Row :: scores[row as int] == LeftScore(row)
  {
    forall row: Row
      ensures scores[row as int] == LeftScore(row)
    {
      assert (row as int) as Row == row;
    }
  }

  /** The fill loop of `init_tables`: every index of the three tables gets the entries of its row. */
  method FillTables(left: array<Row>, right: array<Row>, scores: array<nat>)
    requires left.Length == 0x1_0000 && right.Length == 0x1_0000 && scores.Length == 0x1_0000
    requires left != right && scores as object != left && scores as object != right
    modifies left, right, scores
    ensures forall j | 0 <= j < 0x1_0000 :: left[j] == LeftEntry(j)
    ensures forall j | 0 <= j < 0x1_0000 :: right[j] == RightEntry(j)
    ensures forall j | 0 <= j < 0x1_0000 :: scores[j] == ScoreEntry(j)
  {
    FillLoop(left, right, scores, LeftEntry, RightEntry, ScoreEntry);
  }

  /**
   * The loop itself, over the entry functions as parameters, so that its proof never looks inside them;
   * `EntriesOf` ties each pass to the entries of bitboard.rs.
   */
  method FillLoop(left: array<Row>, right: array<Row>, scores: array<nat>,
                  leftOf: int --> Row, rightOf: int --> Row, scoreOf: int --> nat)
    requires left.Length == 0x1_0000 && right.Length == 0x1_0000 && scores.Length == 0x1_0000
    requires left != right && scores as object != left && scores as object != right
    requires forall j | 0 <= j < 0x1_0000 :: leftOf.requires(j) && rightOf.requires(j) && scoreOf.requires(j)
    requires forall j {:trigger LeftEntry(j)} | 0 <= j < 0x1_0000 :: leftOf(j) == LeftEntry(j)
    requires forall j {:trigger RightEntry(j)} | 0 <= j < 0x1_0000 :: rightOf(j) == RightEntry(j)
    requires forall j {:trigger ScoreEntry(j)} | 0 <= j < 0x1_0000 :: scoreOf(j) == ScoreEntry(j)
    modifies left, right, scores
    ensures forall j | 0 <= j < 0x1_0000 :: left[j] == leftOf(j)
    ensures forall j | 0 <= j < 0x1_0000 :: right[j] == rightOf(j)
    ensures forall j | 0 <= j < 0x1_0000 :: scores[j] == scoreOf(j)
  {
    for i := 0 to 0x1_0000
      invariant forall j | 0 <= j < i :: left[j] == leftOf(j)
      invariant forall j | 0 <= j < i :: right[j] == rightOf(j)
      invariant forall j | 0 <= j < i :: scores[j] == scoreOf(j)
    {
      var leftRow, rightRow, score := EntriesOf(i, leftOf, rightOf, scoreOf);
      left[i] := leftRow;
      scores[i] := score;
      right[i] := rightRow;
    }
  }

  /** `TablesOfRow` with its results stated through the entry functions the fill loop is given. */
  method EntriesOf(i: int, leftOf: int --> Row, rightOf: int --> Row, scoreOf: int --> nat)
    returns (left: Row, right: Row, score: nat)
    requires 0 <= i < 0x1_0000
    requires forall j | 0 <= j < 0x1_0000 :: leftOf.requires(j) && rightOf.requires(j) && scoreOf.requires(j)
    requires forall j {:trigger LeftEntry(j)} | 0 <= j < 0x1_0000 :: leftOf(j) == LeftEntry(j)
    requires forall j {:trigger RightEntry(j)} | 0 <= j < 0x1_0000 :: rightOf(j) == RightEntry(j)
    requires forall j {:trigger ScoreEntry(j)} | 0 <= j < 0x1_0000 :: scoreOf(j) == ScoreEntry(j)
    ensures left == leftOf(i) && right == rightOf(i) && score == scoreOf(i)
  {
    left, right, score := TablesOfRow(i);
  }

  /**
   * The three tables of bitboard.rs and their build-once flag. Until `InitTables` runs the tables
   * hold zeros; after it, every entry is the left move, the right move or the score of its row.
   */
  class BitboardTables {
    var initialized: bool
    var moveLeftTable: array<Row>
    var moveRightTable: array<Row>
    var scoreTable: array<nat>

    ghost predicate Valid()
      reads this, moveLeftTable, moveRightTable, scoreTable
    {
      moveLeftTable.Length == 0x1_0000 && moveRightTable.Length == 0x1_0000 && scoreTable.Length == 0x1_0000
      && moveLeftTable != moveRightTable
      && scoreTable as object != moveLeftTable && scoreTable as object != moveRightTable
      && (initialized ==> Filled())
    }

    /** Every entry holds the move or score of its row. */
    ghost predicate Filled()
      reads this, moveLeftTable, moveRightTable, scoreTable
    {
      moveLeftTable.Length == 0x1_0000 && moveRightTable.Length == 0x1_0000 && scoreTable.Length == 0x1_0000
      && (forall j | 0 <= j < 0x1_0000 :: moveLeftTable[j] == LeftEntry(j))
      && (forall j | 0 <= j < 0x1_0000 :: moveRightTable[j] == RightEntry(j))
      && (forall j | 0 <= j < 0x1_0000 :: scoreTable[j] == ScoreEntry(j))
    }

    /** The statics before the first call: zero-filled tables, flag down. */
    constructor ()
      ensures Valid() && !initialized
      ensures fresh(moveLeftTable) && fresh(moveRightTable) && fresh(scoreTable)
      ensures forall j | 0 <= j < 0x1_0000 :: moveLeftTable[j] == 0 && moveRightTable[j] == 0 && scoreTable[j] == 0
    {
      initialized := false;
      moveLeftTable := new Row[0x1_0000](_ => 0);
      moveRightTable := new Row[0x1_0000](_ => 0);
      scoreTable := new nat[0x1_0000](_ => 0);
    }

    /**
     * `init_tables`: with the flag down, fills all three tables in one pass over the rows and raises
     * the flag; with the flag up, changes nothing.
     */
    method InitTables()
      requires Valid()
      modifies this, moveLeftTable, moveRightTable, scoreTable
      ensures Valid() && initialized && Filled()
      ensures moveLeftTable == old(moveLeftTable) && moveRightTable == old(moveRightTable) && scoreTable == old(scoreTable)
      ensures old(initialized) ==> unchanged(this) && unchanged(moveLeftTable) && unchanged(moveRightTable) && unchanged(scoreTable)
    {
      if initialized {
        return;
      }
      FillTables(moveLeftTable, moveRightTable, scoreTable);
      initialized := true;
    }

    /** `move_left_internal`: initialises the tables on demand, then moves every row left by lookup. */
    method MoveLeftInternal(board: Board) returns (newBoard: Board, score: nat)
      requires Valid()
      modifies this, moveLeftTable, moveRightTable, scoreTable
      ensures Valid() && initialized
      ensures moveLeftTable == old(moveLeftTable) && moveRightTable == old(moveRightTable) && scoreTable == old(scoreTable)
      ensures old(initialized) ==> unchanged(this) && unchanged(moveLeftTable) && unchanged(moveRightTable) && unchanged(scoreTable)
      ensures newBoard == MovedLeft(board) && score == LeftMoveScore(board)
    {
      if !initialized {
        InitTables();
      }
      LeftByRow(moveLeftTable);
      ScoreByRow(scoreTable);
      newBoard, score := LookupRows(board, moveLeftTable, scoreTable, LeftRow, LeftScore);
    }

    /**
     * `move_right_internal`: moves every row right by lookup in the right table, and reports the
     * score table entry of the row itself, which is the score of its right move.
     */
    method MoveRightInternal(board: Board) returns (newBoard: Board, score: nat)
      requires Valid()
      modifies this, moveLeftTable, moveRightTable, scoreTable
      ensures Valid() && initialized
      ensures moveLeftTable == old(moveLeftTable) && moveRightTable == old(moveRightTable) && scoreTable == old(scoreTable)
      ensures old(initialized) ==> unchanged(this) && unchanged(moveLeftTable) && unchanged(moveRightTable) && unchanged(scoreTable)
      ensures newBoard == MovedRight(board) && score == RightMoveScore(board)
    {
      if !initialized {
        InitTables();
      }
      RightByRow(moveRightTable);
      ScoreByRow(scoreTable);
      newBoard, score := LookupRows(board, moveRightTable, scoreTable, RightRow, LeftScore);
      RightRowsAreMovedRight(board);
    }

    /** `move_board`: the direction codes of ai.rs, and the same board and score as `execute_move`. */
    method MoveBoard(board: Board, direction: nat) returns (newBoard: Board, score: nat)
      requires Valid()
      modifies this, moveLeftTable, moveRightTable, scoreTable
      ensures Valid() && (direction < 4 ==> initialized)
      ensures moveLeftTable == old(moveLeftTable) && moveRightTable == old(moveRightTable) && scoreTable == old(scoreTable)
      ensures old(initialized) || direction >= 4 ==> unchanged(this) && unchanged(moveLeftTable) && unchanged(moveRightTable) && unchanged(scoreTable)
      ensures (newBoard, score) == Move(board, direction)
    {
      if direction == 0 {
        var transposed := Transpose(board);
        var moved;
        moved, score := MoveLeftInternal(transposed);
        newBoard := Transpose(moved);
      } else if direction == 1 {
        var transposed := Transpose(board);
        var moved;
        moved, score := MoveRightInternal(transposed);
        newBoard := Transpose(moved);
      } else if direction == 2 {
        newBoard, score := MoveLeftInternal(board);
      } else if direction == 3 {
        newBoard, score := MoveRightInternal(board);
      } else {
        newBoard, score := board, 0;
      }
    }
  }
}
