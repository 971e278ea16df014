/**
 * The packed board of wasm-lib/src/board.rs. A board is a 64-bit word holding sixteen 4-bit
 * exponents (0 is an empty cell, e stands for the tile 2^e). Row i occupies bits [16i, 16i + 16)
 * and cell (r, c) occupies bits [16r + 4c, 16r + 4c + 4).
 *
 * Every shift amount used by the source is a multiple of four, so shifts are written out per
 * nibble index (`Nibble`, `AtNibble`) and per row index (`GetRow`, `SetRow`).
 */
module Board {
  type Board = bv64
  type Row = bv16

  /** `(x >> 4k) & 0xF`: the nibble with index k. */
  function Nibble(x: bv64, k: int): bv64
    requires 0 <= k < 16
  {
    if k < 8 then
      (if k < 4 then (if k == 0 then x & 0xF else if k == 1 then (x >> 4) & 0xF else if k == 2 then (x >> 8) & 0xF else (x >> 12) & 0xF)
       else (if k == 4 then (x >> 16) & 0xF else if k == 5 then (x >> 20) & 0xF else if k == 6 then (x >> 24) & 0xF else (x >> 28) & 0xF))
    else
      (if k < 12 then (if k == 8 then (x >> 32) & 0xF else if k == 9 then (x >> 36) & 0xF else if k == 10 then (x >> 40) & 0xF else (x >> 44) & 0xF)
       else (if k == 12 then (x >> 48) & 0xF else if k == 13 then (x >> 52) & 0xF else if k == 14 then (x >> 56) & 0xF else (x >> 60) & 0xF))
  }

  /** `v << 4k` */
  function AtNibble(v: bv64, k: int): bv64
    requires 0 <= k < 16
  {
    if k < 8 then
      (if k < 4 then (if k == 0 then v else if k == 1 then v << 4 else if k == 2 then v << 8 else v << 12)
       else (if k == 4 then v << 16 else if k == 5 then v << 20 else if k == 6 then v << 24 else v << 28))
    else
      (if k < 12 then (if k == 8 then v << 32 else if k == 9 then v << 36 else if k == 10 then v << 40 else v << 44)
       else (if k == 12 then v << 48 else if k == 13 then v << 52 else if k == 14 then v << 56 else v << 60))
  }

  /** The exponent at row r, column c: `(board >> (r * 16 + c * 4)) & 0xF`. */
  function Tile(b: Board, r: int, c: int): bv64
    requires 0 <= r < 4 && 0 <= c < 4
  {
    if r == 0 then (if c == 0 then b & 0xF else if c == 1 then (b >> 4) & 0xF else if c == 2 then (b >> 8) & 0xF else (b >> 12) & 0xF)
    else if r == 1 then (if c == 0 then (b >> 16) & 0xF else if c == 1 then (b >> 20) & 0xF else if c == 2 then (b >> 24) & 0xF else (b >> 28) & 0xF)
    else if r == 2 then (if c == 0 then (b >> 32) & 0xF else if c == 1 then (b >> 36) & 0xF else if c == 2 then (b >> 40) & 0xF else (b >> 44) & 0xF)
    else (if c == 0 then (b >> 48) & 0xF else if c == 1 then (b >> 52) & 0xF else if c == 2 then (b >> 56) & 0xF else (b >> 60) & 0xF)
  }

  // ---------------------------------------------------------------- transpose

  /** Tile (r, c) moved to position (c, r), as in the loop body of `transpose`. */
  function TransposedPart(b: Board, r: int, c: int): bv64
    requires 0 <= r < 4 && 0 <= c < 4
  {
    AtNibble(Tile(b, r, c), 4 * c + r)
  }

  /** The accumulator of `transpose` once rows 0..r-1 and columns 0..c-1 of row r are done. */
  function TransposeUpTo(b: Board, r: int, c: int): Board
    requires 0 <= r <= 4 && 0 <= c <= 4 && (r == 4 ==> c == 0)
    decreases r, c
  {
    if c == 0 then (if r == 0 then 0 else TransposeUpTo(b, r - 1, 4))
    else TransposeUpTo(b, r, c - 1) | TransposedPart(b, r, c - 1)
  }

  /** What row r of the input contributes to the transposed board: it becomes column r. */
  function TransposedRow(b: Board, r: int): Board
    requires 0 <= r < 4
  {
    TransposedPart(b, r, 0) | TransposedPart(b, r, 1) | TransposedPart(b, r, 2) | TransposedPart(b, r, 3)
  }

  /** The transposed board: every tile (r, c) ORed into position (c, r). */
  function Transposed(b: Board): Board
  {
    TransposedRow(b, 0) | TransposedRow(b, 1) | TransposedRow(b, 2) | TransposedRow(b, 3)
  }

  lemma TransposeStep(b: Board, r: int, c: int)
    requires 0 <= r < 4 && 0 <= c < 4
    ensures TransposeUpTo(b, r, c + 1) == TransposeUpTo(b, r, c) | TransposedPart(b, r, c)
  {
  }

  lemma TransposeNextRow(b: Board, r: int)
    requires 0 <= r < 4
    ensures TransposeUpTo(b, r + 1, 0) == TransposeUpTo(b, r, 4)
  {
  }

  lemma OrRegroup(x: bv64, p0: bv64, p1: bv64, p2: bv64, p3: bv64)
    ensures x | p0 | p1 | p2 | p3 == x | (p0 | p1 | p2 | p3)
  {
  }

  /** Row r of the accumulator: its four steps add exactly `TransposedRow(b, r)`. */
  lemma TransposeRow(b: Board, r: int)
    requires 0 <= r < 4
    ensures TransposeUpTo(b, r + 1, 0) == TransposeUpTo(b, r, 0) | TransposedRow(b, r)
  {
    TransposeNextRow(b, r);
    TransposeStep(b, r, 0);
    TransposeStep(b, r, 1);
    TransposeStep(b, r, 2);
    TransposeStep(b, r, 3);
    OrRegroup(TransposeUpTo(b, r, 0), TransposedPart(b, r, 0), TransposedPart(b, r, 1), TransposedPart(b, r, 2), TransposedPart(b, r, 3));
  }

  /**
   * Once all four rows are done the accumulator is the transposed board. The row count is a
   * parameter rather than the literal 4 so that the accumulator is unfolded one row at a time.
   */
  lemma TransposeComplete(b: Board, n: int)
    requires n == 4
    ensures TransposeUpTo(b, n, 0) == Transposed(b)
  {
    TransposeRow(b, n - 4);
    TransposeRow(b, n - 3);
    TransposeRow(b, n - 2);
    TransposeRow(b, n - 1);
  }

  lemma TransposedTile00(b: Board) ensures Tile(Transposed(b), 0, 0) == Tile(b, 0, 0) {}
  lemma TransposedTile01(b: Board) ensures Tile(Transposed(b), 1, 0) == Tile(b, 0, 1) {}
  lemma TransposedTile02(b: Board) ensures Tile(Transposed(b), 2, 0) == Tile(b, 0, 2) {}
  lemma TransposedTile03(b: Board) ensures Tile(Transposed(b), 3, 0) == Tile(b, 0, 3) {}
  lemma TransposedTile10(b: Board) ensures Tile(Transposed(b), 0, 1) == Tile(b, 1, 0) {}
  lemma TransposedTile11(b: Board) ensures Tile(Transposed(b), 1, 1) == Tile(b, 1, 1) {}
  lemma TransposedTile12(b: Board) ensures Tile(Transposed(b), 2, 1) == Tile(b, 1, 2) {}
  lemma TransposedTile13(b: Board) ensures Tile(Transposed(b), 3, 1) == Tile(b, 1, 3) {}
  lemma TransposedTile20(b: Board) ensures Tile(Transposed(b), 0, 2) == Tile(b, 2, 0) {}
  lemma TransposedTile21(b: Board) ensures Tile(Transposed(b), 1, 2) == Tile(b, 2, 1) {}
  lemma TransposedTile22(b: Board) ensures Tile(Transposed(b), 2, 2) == Tile(b, 2, 2) {}
  lemma TransposedTile23(b: Board) ensures Tile(Transposed(b), 3, 2) == Tile(b, 2, 3) {}
  lemma TransposedTile30(b: Board) ensures Tile(Transposed(b), 0, 3) == Tile(b, 3, 0) {}
  lemma TransposedTile31(b: Board) ensures Tile(Transposed(b), 1, 3) == Tile(b, 3, 1) {}
  lemma TransposedTile32(b: Board) ensures Tile(Transposed(b), 2, 3) == Tile(b, 3, 2) {}
  lemma TransposedTile33(b: Board) ensures Tile(Transposed(b), 3, 3) == Tile(b, 3, 3) {}

  /** `transpose` (wasm-lib/src/board.rs): the double loop ORs each tile into its mirrored place. */
  method Transpose(board: Board) returns (newBoard: Board)
    ensures newBoard == Transposed(board)
  {
    newBoard := 0;
    var r := 0;
    while r < 4
      invariant 0 <= r <= 4
      invariant newBoard == TransposeUpTo(board, r, 0)
    {
      var c := 0;
      while c < 4
        invariant 0 <= c <= 4
        invariant newBoard == TransposeUpTo(board, r, c)
      {
        TransposeStep(board, r, c);
        var tile := Tile(board, r, c);
        newBoard := newBoard | AtNibble(tile, 4 * c + r);
        c := c + 1;
      }
      TransposeNextRow(board, r);
      r := r + 1;
    }
    TransposeComplete(board, r);
  }

  /** `transpose` moves tile (r, c) to (c, r). */
  lemma TransposedTile(b: Board, r: int, c: int)
    requires 0 <= r < 4 && 0 <= c < 4
    ensures Tile(Transposed(b), c, r) == Tile(b, r, c)
  {
    if r == 0 { if c == 0 { TransposedTile00(b); } else if c == 1 { TransposedTile01(b); } else if c == 2 { TransposedTile02(b); } else { TransposedTile03(b); } }
    else if r == 1 { if c == 0 { TransposedTile10(b); } else if c == 1 { TransposedTile11(b); } else if c == 2 { TransposedTile12(b); } else { TransposedTile13(b); } }
    else if r == 2 { if c == 0 { TransposedTile20(b); } else if c == 1 { TransposedTile21(b); } else if c == 2 { TransposedTile22(b); } else { TransposedTile23(b); } }
    else { if c == 0 { TransposedTile30(b); } else if c == 1 { TransposedTile31(b); } else if c == 2 { TransposedTile32(b); } else { TransposedTile33(b); } }
  }

  lemma TransposedInvolution(b: Board)
    ensures Transposed(Transposed(b)) == b
  {
  }

  // ---------------------------------------------------------------- rows

  /** `get_row`: bits [16i, 16i + 16) of the board, truncated to a row. */
  function GetRow(b: Board, i: int): Row
    requires 0 <= i < 4
  {
    if i == 0 then (b & 0xFFFF) as Row
    else if i == 1 then ((b >> 16) & 0xFFFF) as Row
    else if i == 2 then ((b >> 32) & 0xFFFF) as Row
    else ((b >> 48) & 0xFFFF) as Row
  }

  /** `0xFFFF << 16i`: the bits of row i. */
  function RowMask(i: int): bv64
    requires 0 <= i < 4
  {
    if i == 0 then 0xFFFF else if i == 1 then 0xFFFF_0000 else if i == 2 then 0xFFFF_0000_0000 else 0xFFFF_0000_0000_0000
  }

  /** `(v as u64) << 16i` */
  function AtRow(v: Row, i: int): bv64
    requires 0 <= i < 4
  {
    if i == 0 then v as bv64 else if i == 1 then (v as bv64) << 16 else if i == 2 then (v as bv64) << 32 else (v as bv64) << 48
  }

  /** `set_row`, returning the updated board: clear row i, then OR the new row into it. */
  function SetRow(b: Board, i: int, v: Row): Board
    requires 0 <= i < 4
  {
    (b & !RowMask(i)) | AtRow(v, i)
  }

  /** Nibble c of a row: `(row >> 4c) & 0xF`. */
  function RowNibble(row: Row, c: int): Row
    requires 0 <= c < 4
  {
    if c == 0 then row & 0xF else if c == 1 then (row >> 4) & 0xF else if c == 2 then (row >> 8) & 0xF else (row >> 12) & 0xF
  }

  lemma SetRow0Row0(b: Board, v: Row)
    ensures GetRow(SetRow(b, 0, v), 0) == v
  {
  }

  lemma SetRow0Row1(b: Board, v: Row)
    ensures GetRow(SetRow(b, 0, v), 1) == GetRow(b, 1)
  {
  }

  lemma SetRow0Row2(b: Board, v: Row)
    ensures GetRow(SetRow(b, 0, v), 2) == GetRow(b, 2)
  {
  }

  lemma SetRow0Row3(b: Board, v: Row)
    ensures GetRow(SetRow(b, 0, v), 3) == GetRow(b, 3)
  {
  }

  lemma SetRow1Row0(b: Board, v: Row)
    ensures GetRow(SetRow(b, 1, v), 0) == GetRow(b, 0)
  {
  }

  lemma SetRow1Row1(b: Board, v: Row)
    ensures GetRow(SetRow(b, 1, v), 1) == v
  {
  }

  lemma SetRow1Row2(b: Board, v: Row)
    ensures GetRow(SetRow(b, 1, v), 2) == GetRow(b, 2)
  {
  }

  lemma SetRow1Row3(b: Board, v: Row)
    ensures GetRow(SetRow(b, 1, v), 3) == GetRow(b, 3)
  {
  }

  lemma SetRow2Row0(b: Board, v: Row)
    ensures GetRow(SetRow(b, 2, v), 0) == GetRow(b, 0)
  {
  }

  lemma SetRow2Row1(b: Board, v: Row)
    ensures GetRow(SetRow(b, 2, v), 1) == GetRow(b, 1)
  {
  }

  lemma SetRow2Row2(b: Board, v: Row)
    ensures GetRow(SetRow(b, 2, v), 2) == v
  {
  }

  lemma SetRow2Row3(b: Board, v: Row)
    ensures GetRow(SetRow(b, 2, v), 3) == GetRow(b, 3)
  {
  }

  lemma SetRow3Row0(b: Board, v: Row)
    ensures GetRow(SetRow(b, 3, v), 0) == GetRow(b, 0)
  {
  }

  lemma SetRow3Row1(b: Board, v: Row)
    ensures GetRow(SetRow(b, 3, v), 1) == GetRow(b, 1)
  {
  }

  lemma SetRow3Row2(b: Board, v: Row)
    ensures GetRow(SetRow(b, 3, v), 2) == GetRow(b, 2)
  {
  }

  lemma SetRow3Row3(b: Board, v: Row)
    ensures GetRow(SetRow(b, 3, v), 3) == v
  {
  }

  lemma SetRow0(b: Board, v: Row)
    ensures GetRow(SetRow(b, 0, v), 0) == v
    ensures GetRow(SetRow(b, 0, v), 1) == GetRow(b, 1)
    ensures GetRow(SetRow(b, 0, v), 2) == GetRow(b, 2)
    ensures GetRow(SetRow(b, 0, v), 3) == GetRow(b, 3)
  {
    SetRow0Row0(b, v);
    SetRow0Row1(b, v);
    SetRow0Row2(b, v);
    SetRow0Row3(b, v);
  }

  lemma SetRow1(b: Board, v: Row)
    ensures GetRow(SetRow(b, 1, v), 1) == v
    ensures GetRow(SetRow(b, 1, v), 0) == GetRow(b, 0)
    ensures GetRow(SetRow(b, 1, v), 2) == GetRow(b, 2)
    ensures GetRow(SetRow(b, 1, v), 3) == GetRow(b, 3)
  {
    SetRow1Row0(b, v);
    SetRow1Row1(b, v);
    SetRow1Row2(b, v);
    SetRow1Row3(b, v);
  }

  lemma SetRow2(b: Board, v: Row)
    ensures GetRow(SetRow(b, 2, v), 2) == v
    ensures GetRow(SetRow(b, 2, v), 0) == GetRow(b, 0)
    ensures GetRow(SetRow(b, 2, v), 1) == GetRow(b, 1)
    ensures GetRow(SetRow(b, 2, v), 3) == GetRow(b, 3)
  {
    SetRow2Row0(b, v);
    SetRow2Row1(b, v);
    SetRow2Row2(b, v);
    SetRow2Row3(b, v);
  }

  lemma SetRow3(b: Board, v: Row)
    ensures GetRow(SetRow(b, 3, v), 3) == v
    ensures GetRow(SetRow(b, 3, v), 0) == GetRow(b, 0)
    ensures GetRow(SetRow(b, 3, v), 1) == GetRow(b, 1)
    ensures GetRow(SetRow(b, 3, v), 2) == GetRow(b, 2)
  {
    SetRow3Row0(b, v);
    SetRow3Row1(b, v);
    SetRow3Row2(b, v);
    SetRow3Row3(b, v);
  }

  lemma RowTiles0(b: Board)
    ensures Tile(b, 0, 0) == RowNibble(GetRow(b, 0), 0) as bv64
    ensures Tile(b, 0, 1) == RowNibble(GetRow(b, 0), 1) as bv64
    ensures Tile(b, 0, 2) == RowNibble(GetRow(b, 0), 2) as bv64
    ensures Tile(b, 0, 3) == RowNibble(GetRow(b, 0), 3) as bv64
  {
  }

  lemma RowTiles1(b: Board)
    ensures Tile(b, 1, 0) == RowNibble(GetRow(b, 1), 0) as bv64
    ensures Tile(b, 1, 1) == RowNibble(GetRow(b, 1), 1) as bv64
    ensures Tile(b, 1, 2) == RowNibble(GetRow(b, 1), 2) as bv64
    ensures Tile(b, 1, 3) == RowNibble(GetRow(b, 1), 3) as bv64
  {
  }

  lemma RowTiles2(b: Board)
    ensures Tile(b, 2, 0) == RowNibble(GetRow(b, 2), 0) as bv64
    ensures Tile(b, 2, 1) == RowNibble(GetRow(b, 2), 1) as bv64
    ensures Tile(b, 2, 2) == RowNibble(GetRow(b, 2), 2) as bv64
    ensures Tile(b, 2, 3) == RowNibble(GetRow(b, 2), 3) as bv64
  {
  }

  lemma RowTiles3(b: Board)
    ensures Tile(b, 3, 0) == RowNibble(GetRow(b, 3), 0) as bv64
    ensures Tile(b, 3, 1) == RowNibble(GetRow(b, 3), 1) as bv64
    ensures Tile(b, 3, 2) == RowNibble(GetRow(b, 3), 2) as bv64
    ensures Tile(b, 3, 3) == RowNibble(GetRow(b, 3), 3) as bv64
  {
  }


  /** `get_row` after `set_row`: the row written is read back and the other rows are unchanged. */
  lemma SetRowGetRow(b: Board, i: int, v: Row, j: int)
    requires 0 <= i < 4 && 0 <= j < 4
    ensures GetRow(SetRow(b, i, v), j) == if i == j then v else GetRow(b, j)
  {
    if i == 0 { SetRow0(b, v); }
    else if i == 1 { SetRow1(b, v); }
    else if i == 2 { SetRow2(b, v); }
    else { SetRow3(b, v); }
  }

  /** A tile is the corresponding nibble of its row. */
  lemma TileOfRow(b: Board, r: int, c: int)
    requires 0 <= r < 4 && 0 <= c < 4
    ensures Tile(b, r, c) == RowNibble(GetRow(b, r), c) as bv64
  {
    if r == 0 {
      if c == 0 { RowTiles0(b); }
      else if c == 1 { RowTiles0(b); }
      else if c == 2 { RowTiles0(b); }
      else { RowTiles0(b); }
    }
    else if r == 1 {
      if c == 0 { RowTiles1(b); }
      else if c == 1 { RowTiles1(b); }
      else if c == 2 { RowTiles1(b); }
      else { RowTiles1(b); }
    }
    else if r == 2 {
      if c == 0 { RowTiles2(b); }
      else if c == 1 { RowTiles2(b); }
      else if c == 2 { RowTiles2(b); }
      else { RowTiles2(b); }
    }
    else {
      if c == 0 { RowTiles3(b); }
      else if c == 1 { RowTiles3(b); }
      else if c == 2 { RowTiles3(b); }
      else { RowTiles3(b); }
    }
  }

  /** A board is determined by its four rows. */
  lemma RowsDetermine(a: Board, b: Board)
    requires GetRow(a, 0) == GetRow(b, 0) && GetRow(a, 1) == GetRow(b, 1)
    requires GetRow(a, 2) == GetRow(b, 2) && GetRow(a, 3) == GetRow(b, 3)
    ensures a == b
  {
  }

  // ---------------------------------------------------------------- reverse

  /** `reverse_row`: the four nibbles of a row in the opposite order. */
  function ReverseRow(row: Row): Row
  {
    ((row & 0xF000) >> 12) | ((row & 0x0F00) >> 4) | ((row & 0x00F0) << 4) | ((row & 0x000F) << 12)
  }

  lemma ReverseRowNibbles(row: Row)
    ensures RowNibble(ReverseRow(row), 0) == RowNibble(row, 3)
    ensures RowNibble(ReverseRow(row), 1) == RowNibble(row, 2)
    ensures RowNibble(ReverseRow(row), 2) == RowNibble(row, 1)
    ensures RowNibble(ReverseRow(row), 3) == RowNibble(row, 0)
  {
  }

  lemma ReverseRowInvolution(row: Row)
    ensures ReverseRow(ReverseRow(row)) == row
  {
  }

  /** The accumulator of `reverse` after rows 0..n-1: row i has been written, reversed, to row 3 - i. */
  function ReverseUpTo(b: Board, n: int): Board
    requires 0 <= n <= 4
  {
    if n == 0 then 0 else SetRow(ReverseUpTo(b, n - 1), 3 - (n - 1), ReverseRow(GetRow(b, n - 1)))
  }

  /** The board rotated by 180 degrees, as `reverse` builds it. */
  function Reversed(b: Board): Board
  {
    ReverseUpTo(b, 4)
  }

  /** `reverse`: the result is `Reversed(board)`, stated through its definition. */
  method Reverse(board: Board) returns (newBoard: Board)
    ensures newBoard == ReverseUpTo(board, 4)
  {
    newBoard := 0;
    var i := 0;
    while i < 4
      invariant 0 <= i <= 4
      invariant newBoard == ReverseUpTo(board, i)
    {
      newBoard := SetRow(newBoard, 3 - i, ReverseRow(GetRow(board, i)));
      i := i + 1;
    }
  }

  /** `Reversed` written out: the four `set_row` calls of `reverse` in order. */
  lemma ReversedClosed(b: Board)
    ensures Reversed(b) == SetRow(SetRow(SetRow(SetRow(0, 3, ReverseRow(GetRow(b, 0))), 2, ReverseRow(GetRow(b, 1))), 1, ReverseRow(GetRow(b, 2))), 0, ReverseRow(GetRow(b, 3)))
  {
    assert ReverseUpTo(b, 1) == SetRow(0, 3, ReverseRow(GetRow(b, 0)));
    assert ReverseUpTo(b, 2) == SetRow(ReverseUpTo(b, 1), 2, ReverseRow(GetRow(b, 1)));
    assert ReverseUpTo(b, 3) == SetRow(ReverseUpTo(b, 2), 1, ReverseRow(GetRow(b, 2)));
  }

  lemma ReversedRow0(b: Board)
    ensures GetRow(Reversed(b), 0) == ReverseRow(GetRow(b, 3))
  {
    ReversedClosed(b);
    SetRow0(SetRow(SetRow(SetRow(0, 3, ReverseRow(GetRow(b, 0))), 2, ReverseRow(GetRow(b, 1))), 1, ReverseRow(GetRow(b, 2))), ReverseRow(GetRow(b, 3)));
    SetRow1(SetRow(SetRow(0, 3, ReverseRow(GetRow(b, 0))), 2, ReverseRow(GetRow(b, 1))), ReverseRow(GetRow(b, 2)));
    SetRow2(SetRow(0, 3, ReverseRow(GetRow(b, 0))), ReverseRow(GetRow(b, 1)));
    SetRow3(0, ReverseRow(GetRow(b, 0)));
  }

  lemma ReversedRow1(b: Board)
    ensures GetRow(Reversed(b), 1) == ReverseRow(GetRow(b, 2))
  {
    ReversedClosed(b);
    SetRow0(SetRow(SetRow(SetRow(0, 3, ReverseRow(GetRow(b, 0))), 2, ReverseRow(GetRow(b, 1))), 1, ReverseRow(GetRow(b, 2))), ReverseRow(GetRow(b, 3)));
    SetRow1(SetRow(SetRow(0, 3, ReverseRow(GetRow(b, 0))), 2, ReverseRow(GetRow(b, 1))), ReverseRow(GetRow(b, 2)));
    SetRow2(SetRow(0, 3, ReverseRow(GetRow(b, 0))), ReverseRow(GetRow(b, 1)));
    SetRow3(0, ReverseRow(GetRow(b, 0)));
  }

  lemma ReversedRow2(b: Board)
    ensures GetRow(Reversed(b), 2) == ReverseRow(GetRow(b, 1))
  {
    ReversedClosed(b);
    SetRow0(SetRow(SetRow(SetRow(0, 3, ReverseRow(GetRow(b, 0))), 2, ReverseRow(GetRow(b, 1))), 1, ReverseRow(GetRow(b, 2))), ReverseRow(GetRow(b, 3)));
    SetRow1(SetRow(SetRow(0, 3, ReverseRow(GetRow(b, 0))), 2, ReverseRow(GetRow(b, 1))), ReverseRow(GetRow(b, 2)));
    SetRow2(SetRow(0, 3, ReverseRow(GetRow(b, 0))), ReverseRow(GetRow(b, 1)));
    SetRow3(0, ReverseRow(GetRow(b, 0)));
  }

  lemma ReversedRow3(b: Board)
    ensures GetRow(Reversed(b), 3) == ReverseRow(GetRow(b, 0))
  {
    ReversedClosed(b);
    SetRow0(SetRow(SetRow(SetRow(0, 3, ReverseRow(GetRow(b, 0))), 2, ReverseRow(GetRow(b, 1))), 1, ReverseRow(GetRow(b, 2))), ReverseRow(GetRow(b, 3)));
    SetRow1(SetRow(SetRow(0, 3, ReverseRow(GetRow(b, 0))), 2, ReverseRow(GetRow(b, 1))), ReverseRow(GetRow(b, 2)));
    SetRow2(SetRow(0, 3, ReverseRow(GetRow(b, 0))), ReverseRow(GetRow(b, 1)));
    SetRow3(0, ReverseRow(GetRow(b, 0)));
  }

  /** Row i of the reversed board is row 3 - i of the input, reversed. */
  lemma ReversedRow(b: Board, i: int)
    requires 0 <= i < 4
    ensures GetRow(Reversed(b), i) == ReverseRow(GetRow(b, 3 - i))
  {
    if i == 0 { ReversedRow0(b); }
    else if i == 1 { ReversedRow1(b); }
    else if i == 2 { ReversedRow2(b); }
    else { ReversedRow3(b); }
  }

  lemma ReversedTile00(b: Board)
    ensures Tile(Reversed(b), 0, 0) == Tile(b, 3, 3)
  {
    RowTiles0(Reversed(b));
    RowTiles3(b);
    ReversedRow0(b);
    ReverseRowNibbles(GetRow(b, 3));
  }

  lemma ReversedTile01(b: Board)
    ensures Tile(Reversed(b), 0, 1) == Tile(b, 3, 2)
  {
    RowTiles0(Reversed(b));
    RowTiles3(b);
    ReversedRow0(b);
    ReverseRowNibbles(GetRow(b, 3));
  }

  lemma ReversedTile02(b: Board)
    ensures Tile(Reversed(b), 0, 2) == Tile(b, 3, 1)
  {
    RowTiles0(Reversed(b));
    RowTiles3(b);
    ReversedRow0(b);
    ReverseRowNibbles(GetRow(b, 3));
  }

  lemma ReversedTile03(b: Board)
    ensures Tile(Reversed(b), 0, 3) == Tile(b, 3, 0)
  {
    RowTiles0(Reversed(b));
    RowTiles3(b);
    ReversedRow0(b);
    ReverseRowNibbles(GetRow(b, 3));
  }

  lemma ReversedTile10(b: Board)
    ensures Tile(Reversed(b), 1, 0) == Tile(b, 2, 3)
  {
    RowTiles1(Reversed(b));
    RowTiles2(b);
    ReversedRow1(b);
    ReverseRowNibbles(GetRow(b, 2));
  }

  lemma ReversedTile11(b: Board)
    ensures Tile(Reversed(b), 1, 1) == Tile(b, 2, 2)
  {
    RowTiles1(Reversed(b));
    RowTiles2(b);
    ReversedRow1(b);
    ReverseRowNibbles(GetRow(b, 2));
  }

  lemma ReversedTile12(b: Board)
    ensures Tile(Reversed(b), 1, 2) == Tile(b, 2, 1)
  {
    RowTiles1(Reversed(b));
    RowTiles2(b);
    ReversedRow1(b);
    ReverseRowNibbles(GetRow(b, 2));
  }

  lemma ReversedTile13(b: Board)
    ensures Tile(Reversed(b), 1, 3) == Tile(b, 2, 0)
  {
    RowTiles1(Reversed(b));
    RowTiles2(b);
    ReversedRow1(b);
    ReverseRowNibbles(GetRow(b, 2));
  }

  lemma ReversedTile20(b: Board)
    ensures Tile(Reversed(b), 2, 0) == Tile(b, 1, 3)
  {
    RowTiles2(Reversed(b));
    RowTiles1(b);
    ReversedRow2(b);
    ReverseRowNibbles(GetRow(b, 1));
  }

  lemma ReversedTile21(b: Board)
    ensures Tile(Reversed(b), 2, 1) == Tile(b, 1, 2)
  {
    RowTiles2(Reversed(b));
    RowTiles1(b);
    ReversedRow2(b);
    ReverseRowNibbles(GetRow(b, 1));
  }

  lemma ReversedTile22(b: Board)
    ensures Tile(Reversed(b), 2, 2) == Tile(b, 1, 1)
  {
    RowTiles2(Reversed(b));
    RowTiles1(b);
    ReversedRow2(b);
    ReverseRowNibbles(GetRow(b, 1));
  }

  lemma ReversedTile23(b: Board)
    ensures Tile(Reversed(b), 2, 3) == Tile(b, 1, 0)
  {
    RowTiles2(Reversed(b));
    RowTiles1(b);
    ReversedRow2(b);
    ReverseRowNibbles(GetRow(b, 1));
  }

  lemma ReversedTile30(b: Board)
    ensures Tile(Reversed(b), 3, 0) == Tile(b, 0, 3)
  {
    RowTiles3(Reversed(b));
    RowTiles0(b);
    ReversedRow3(b);
    ReverseRowNibbles(GetRow(b, 0));
  }

  lemma ReversedTile31(b: Board)
    ensures Tile(Reversed(b), 3, 1) == Tile(b, 0, 2)
  {
    RowTiles3(Reversed(b));
    RowTiles0(b);
    ReversedRow3(b);
    ReverseRowNibbles(GetRow(b, 0));
  }

  lemma ReversedTile32(b: Board)
    ensures Tile(Reversed(b), 3, 2) == Tile(b, 0, 1)
  {
    RowTiles3(Reversed(b));
    RowTiles0(b);
    ReversedRow3(b);
    ReverseRowNibbles(GetRow(b, 0));
  }

  lemma ReversedTile33(b: Board)
    ensures Tile(Reversed(b), 3, 3) == Tile(b, 0, 0)
  {
    RowTiles3(Reversed(b));
    RowTiles0(b);
    ReversedRow3(b);
    ReverseRowNibbles(GetRow(b, 0));
  }

  /** `reverse` moves tile (r, c) to (3 - r, 3 - c). */
  lemma ReversedTile(b: Board, r: int, c: int)
    requires 0 <= r < 4 && 0 <= c < 4
    ensures Tile(Reversed(b), r, c) == Tile(b, 3 - r, 3 - c)
  {
    if r == 0 {
      if c == 0 { ReversedTile00(b); }
      else if c == 1 { ReversedTile01(b); }
      else if c == 2 { ReversedTile02(b); }
      else { ReversedTile03(b); }
    }
    else if r == 1 {
      if c == 0 { ReversedTile10(b); }
      else if c == 1 { ReversedTile11(b); }
      else if c == 2 { ReversedTile12(b); }
      else { ReversedTile13(b); }
    }
    else if r == 2 {
      if c == 0 { ReversedTile20(b); }
      else if c == 1 { ReversedTile21(b); }
      else if c == 2 { ReversedTile22(b); }
      else { ReversedTile23(b); }
    }
    else {
      if c == 0 { ReversedTile30(b); }
      else if c == 1 { ReversedTile31(b); }
      else if c == 2 { ReversedTile32(b); }
      else { ReversedTile33(b); }
    }
  }

  lemma ReversedInvolution(b: Board)
    ensures Reversed(Reversed(b)) == b
  {
    ReversedRow0(Reversed(b));
    ReversedRow1(Reversed(b));
    ReversedRow2(Reversed(b));
    ReversedRow3(Reversed(b));
    ReversedRow0(b);
    ReversedRow1(b);
    ReversedRow2(b);
    ReversedRow3(b);
    ReverseRowInvolution(GetRow(b, 0));
    ReverseRowInvolution(GetRow(b, 1));
    ReverseRowInvolution(GetRow(b, 2));
    ReverseRowInvolution(GetRow(b, 3));
    RowsDetermine(Reversed(Reversed(b)), b);
  }

  // ---------------------------------------------------------------- from_js

  /** 2^e as a real number. */
  function Pow2Real(e: nat): (p: real)
    ensures p >= 1.0
  {
    if e == 0 then 1.0 else 2.0 * Pow2Real(e - 1)
  }

  /** The whole part of log2 v, for v >= 1. */
  function FloorLog2(v: real): (e: nat)
    requires v >= 1.0
    ensures Pow2Real(e) <= v < 2.0 * Pow2Real(e)
    decreases v.Floor
  {
    if v < 2.0 then 0 else 1 + FloorLog2(v / 2.0)
  }

  /** Rust's saturating float-to-integer `as u64` on a whole number. */
  function SaturatingU64(e: nat): bv64
  {
    if e < 0x1_0000_0000_0000_0000 then e as bv64 else 0xFFFF_FFFF_FFFF_FFFF
  }

  /**
   * `tile_value.log2() as u64`: for v >= 1 the logarithm is non-negative and the cast truncates
   * it; below 1 it is negative (or NaN for negative v) and the cast saturates to 0.
   */
  function Exponent(v: real): bv64
  {
    if v >= 1.0 then SaturatingU64(FloorLog2(v)) else 0
  }

  lemma Pow2RealMonotone(i: nat, j: nat)
    requires i < j
    ensures 2.0 * Pow2Real(i) <= Pow2Real(j)
    decreases j
  {
    if j > i + 1 {
      Pow2RealMonotone(i, j - 1);
    }
  }

  /** The whole part of the logarithm is the only e with 2^e <= v < 2^(e+1). */
  lemma FloorLog2Unique(v: real, e: nat)
    requires v >= 1.0 && Pow2Real(e) <= v < 2.0 * Pow2Real(e)
    ensures FloorLog2(v) == e
  {
    var f := FloorLog2(v);
    if f < e {
      Pow2RealMonotone(f, e);
    } else if e < f {
      Pow2RealMonotone(e, f);
    }
  }

  /** The exponent of the tile 2^e is e (saturated to 64 bits). */
  lemma ExponentOfPow2(e: nat)
    ensures Exponent(Pow2Real(e)) == SaturatingU64(e)
  {
    FloorLog2Unique(Pow2Real(e), e);
  }

  /** The exponent `from_js` stores for a cell value; the zero test of the loop body included. */
  function CellExponent(v: real): bv64
  {
    if v != 0.0 then Exponent(v) else 0
  }

  /** What iteration k of `from_js` ORs into the board. */
  function FromJsPart(js: seq<real>, k: int): Board
    requires |js| >= 16 && 0 <= k < 16
  {
    AtNibble(CellExponent(js[k]), k)
  }

  /** The accumulator of `from_js` after its first n iterations (n = 4r + c). */
  function FromJsUpTo(js: seq<real>, n: int): Board
    requires |js| >= 16 && 0 <= n <= 16
  {
    if n == 0 then 0 else FromJsUpTo(js, n - 1) | FromJsPart(js, n - 1)
  }

  lemma FromJsStep(js: seq<real>, n: int)
    requires |js| >= 16 && 0 <= n < 16
    ensures FromJsUpTo(js, n + 1) == FromJsUpTo(js, n) | FromJsPart(js, n)
  {
  }

  lemma AtNibbleZero(k: int)
    requires 0 <= k < 16
    ensures AtNibble(0, k) == 0
  {
  }

  /** An empty cell adds nothing to the board. */
  lemma FromJsSkip(js: seq<real>, n: int)
    requires |js| >= 16 && 0 <= n < 16 && js[n] == 0.0
    ensures FromJsUpTo(js, n + 1) == FromJsUpTo(js, n)
  {
    AtNibbleZero(n);
  }

  /** `from_js`: reads a 16-cell row-major array of tile values (panics on a shorter one). */
  method FromJs(boardJs: seq<real>) returns (board: Board)
    requires |boardJs| >= 16
    ensures board == FromJsUpTo(boardJs, 16)
  {
    board := 0;
    var r := 0;
    while r < 4
      invariant 0 <= r <= 4
      invariant board == FromJsUpTo(boardJs, 4 * r)
    {
      var c := 0;
      while c < 4
        invariant 0 <= c <= 4
        invariant board == FromJsUpTo(boardJs, 4 * r + c)
      {
        var n := r * 4 + c;
        var tileValue := boardJs[n];
        if tileValue != 0.0 {
          var exponent := Exponent(tileValue);
          board := board | AtNibble(exponent, n);
        } else {
          FromJsSkip(boardJs, n);
        }
        c := c + 1;
      }
      r := r + 1;
    }
  }

  /** The four parts of row r. */
  function FromJsRow(js: seq<real>, r: int): Board
    requires |js| >= 16 && 0 <= r < 4
  {
    if r == 0 then FromJsPart(js, 0) | FromJsPart(js, 1) | FromJsPart(js, 2) | FromJsPart(js, 3)
    else if r == 1 then FromJsPart(js, 4) | FromJsPart(js, 5) | FromJsPart(js, 6) | FromJsPart(js, 7)
    else if r == 2 then FromJsPart(js, 8) | FromJsPart(js, 9) | FromJsPart(js, 10) | FromJsPart(js, 11)
    else FromJsPart(js, 12) | FromJsPart(js, 13) | FromJsPart(js, 14) | FromJsPart(js, 15)
  }

  /** The result of `from_js` in closed form. */
  function FromJsBoard(js: seq<real>): Board
    requires |js| >= 16
  {
    FromJsRow(js, 0) | FromJsRow(js, 1) | FromJsRow(js, 2) | FromJsRow(js, 3)
  }

  lemma FromJsRowStep0(js: seq<real>)
    requires |js| >= 16
    ensures FromJsUpTo(js, 4) == FromJsUpTo(js, 0) | FromJsRow(js, 0)
  {
    FromJsStep(js, 0); FromJsStep(js, 1); FromJsStep(js, 2); FromJsStep(js, 3);
    OrRegroup(FromJsUpTo(js, 0), FromJsPart(js, 0), FromJsPart(js, 1), FromJsPart(js, 2), FromJsPart(js, 3));
  }

  lemma FromJsRowStep1(js: seq<real>)
    requires |js| >= 16
    ensures FromJsUpTo(js, 8) == FromJsUpTo(js, 4) | FromJsRow(js, 1)
  {
    FromJsStep(js, 4); FromJsStep(js, 5); FromJsStep(js, 6); FromJsStep(js, 7);
    OrRegroup(FromJsUpTo(js, 4), FromJsPart(js, 4), FromJsPart(js, 5), FromJsPart(js, 6), FromJsPart(js, 7));
  }

  lemma FromJsRowStep2(js: seq<real>)
    requires |js| >= 16
    ensures FromJsUpTo(js, 12) == FromJsUpTo(js, 8) | FromJsRow(js, 2)
  {
    FromJsStep(js, 8); FromJsStep(js, 9); FromJsStep(js, 10); FromJsStep(js, 11);
    OrRegroup(FromJsUpTo(js, 8), FromJsPart(js, 8), FromJsPart(js, 9), FromJsPart(js, 10), FromJsPart(js, 11));
  }

  lemma FromJsRowStep3(js: seq<real>)
    requires |js| >= 16
    ensures FromJsUpTo(js, 16) == FromJsUpTo(js, 12) | FromJsRow(js, 3)
  {
    FromJsStep(js, 12); FromJsStep(js, 13); FromJsStep(js, 14); FromJsStep(js, 15);
    OrRegroup(FromJsUpTo(js, 12), FromJsPart(js, 12), FromJsPart(js, 13), FromJsPart(js, 14), FromJsPart(js, 15));
  }

  lemma FromJsComplete(js: seq<real>)
    requires |js| >= 16
    ensures FromJsUpTo(js, 16) == FromJsBoard(js)
  {
    FromJsRowStep0(js); FromJsRowStep1(js); FromJsRowStep2(js); FromJsRowStep3(js);
  }

  /** Every exponent fits in its 4-bit cell (tile values below 2^16). */
  predicate SmallExponents(js: seq<real>)
    requires |js| >= 16
  {
    forall k | 0 <= k < 16 :: CellExponent(js[k]) < 16
  }

  lemma SmallExponentsIntro(js: seq<real>)
    requires |js| >= 16
    requires CellExponent(js[0]) < 16 && CellExponent(js[1]) < 16 && CellExponent(js[2]) < 16 && CellExponent(js[3]) < 16 && CellExponent(js[4]) < 16 && CellExponent(js[5]) < 16 && CellExponent(js[6]) < 16 && CellExponent(js[7]) < 16 && CellExponent(js[8]) < 16 && CellExponent(js[9]) < 16 && CellExponent(js[10]) < 16 && CellExponent(js[11]) < 16 && CellExponent(js[12]) < 16 && CellExponent(js[13]) < 16 && CellExponent(js[14]) < 16 && CellExponent(js[15]) < 16
    ensures SmallExponents(js)
  {
    forall k | 0 <= k < 16
      ensures CellExponent(js[k]) < 16
    {
      if k == 0 { } else if k == 1 { } else if k == 2 { } else if k == 3 { } else if k == 4 { } else if k == 5 { } else if k == 6 { } else if k == 7 { } else if k == 8 { } else if k == 9 { } else if k == 10 { } else if k == 11 { } else if k == 12 { } else if k == 13 { } else if k == 14 { } else { }
    }
  }

  lemma FromJsTile00(js: seq<real>)
    requires |js| >= 16 && SmallExponents(js)
    ensures Tile(FromJsBoard(js), 0, 0) == CellExponent(js[0])
  {
    assert CellExponent(js[0]) < 16; assert CellExponent(js[1]) < 16; assert CellExponent(js[2]) < 16; assert CellExponent(js[3]) < 16; assert CellExponent(js[4]) < 16; assert CellExponent(js[5]) < 16; assert CellExponent(js[6]) < 16; assert CellExponent(js[7]) < 16; assert CellExponent(js[8]) < 16; assert CellExponent(js[9]) < 16; assert CellExponent(js[10]) < 16; assert CellExponent(js[11]) < 16; assert CellExponent(js[12]) < 16; assert CellExponent(js[13]) < 16; assert CellExponent(js[14]) < 16; assert CellExponent(js[15]) < 16;
  }

  lemma FromJsTile01(js: seq<real>)
    requires |js| >= 16 && SmallExponents(js)
    ensures Tile(FromJsBoard(js), 0, 1) == CellExponent(js[1])
  {
    assert CellExponent(js[0]) < 16; assert CellExponent(js[1]) < 16; assert CellExponent(js[2]) < 16; assert CellExponent(js[3]) < 16; assert CellExponent(js[4]) < 16; assert CellExponent(js[5]) < 16; assert CellExponent(js[6]) < 16; assert CellExponent(js[7]) < 16; assert CellExponent(js[8]) < 16; assert CellExponent(js[9]) < 16; assert CellExponent(js[10]) < 16; assert CellExponent(js[11]) < 16; assert CellExponent(js[12]) < 16; assert CellExponent(js[13]) < 16; assert CellExponent(js[14]) < 16; assert CellExponent(js[15]) < 16;
  }

  lemma FromJsTile02(js: seq<real>)
    requires |js| >= 16 && SmallExponents(js)
    ensures Tile(FromJsBoard(js), 0, 2) == CellExponent(js[2])
  {
    assert CellExponent(js[0]) < 16; assert CellExponent(js[1]) < 16; assert CellExponent(js[2]) < 16; assert CellExponent(js[3]) < 16; assert CellExponent(js[4]) < 16; assert CellExponent(js[5]) < 16; assert CellExponent(js[6]) < 16; assert CellExponent(js[7]) < 16; assert CellExponent(js[8]) < 16; assert CellExponent(js[9]) < 16; assert CellExponent(js[10]) < 16; assert CellExponent(js[11]) < 16; assert CellExponent(js[12]) < 16; assert CellExponent(js[13]) < 16; assert CellExponent(js[14]) < 16; assert CellExponent(js[15]) < 16;
  }

  lemma FromJsTile03(js: seq<real>)
    requires |js| >= 16 && SmallExponents(js)
    ensures Tile(FromJsBoard(js), 0, 3) == CellExponent(js[3])
  {
    assert CellExponent(js[0]) < 16; assert CellExponent(js[1]) < 16; assert CellExponent(js[2]) < 16; assert CellExponent(js[3]) < 16; assert CellExponent(js[4]) < 16; assert CellExponent(js[5]) < 16; assert CellExponent(js[6]) < 16; assert CellExponent(js[7]) < 16; assert CellExponent(js[8]) < 16; assert CellExponent(js[9]) < 16; assert CellExponent(js[10]) < 16; assert CellExponent(js[11]) < 16; assert CellExponent(js[12]) < 16; assert CellExponent(js[13]) < 16; assert CellExponent(js[14]) < 16; assert CellExponent(js[15]) < 16;
  }

  lemma FromJsTile10(js: seq<real>)
    requires |js| >= 16 && SmallExponents(js)
    ensures Tile(FromJsBoard(js), 1, 0) == CellExponent(js[4])
  {
    assert CellExponent(js[0]) < 16; assert CellExponent(js[1]) < 16; assert CellExponent(js[2]) < 16; assert CellExponent(js[3]) < 16; assert CellExponent(js[4]) < 16; assert CellExponent(js[5]) < 16; assert CellExponent(js[6]) < 16; assert CellExponent(js[7]) < 16; assert CellExponent(js[8]) < 16; assert CellExponent(js[9]) < 16; assert CellExponent(js[10]) < 16; assert CellExponent(js[11]) < 16; assert CellExponent(js[12]) < 16; assert CellExponent(js[13]) < 16; assert CellExponent(js[14]) < 16; assert CellExponent(js[15]) < 16;
  }

  lemma FromJsTile11(js: seq<real>)
    requires |js| >= 16 && SmallExponents(js)
    ensures Tile(FromJsBoard(js), 1, 1) == CellExponent(js[5])
  {
    assert CellExponent(js[0]) < 16; assert CellExponent(js[1]) < 16; assert CellExponent(js[2]) < 16; assert CellExponent(js[3]) < 16; assert CellExponent(js[4]) < 16; assert CellExponent(js[5]) < 16; assert CellExponent(js[6]) < 16; assert CellExponent(js[7]) < 16; assert CellExponent(js[8]) < 16; assert CellExponent(js[9]) < 16; assert CellExponent(js[10]) < 16; assert CellExponent(js[11]) < 16; assert CellExponent(js[12]) < 16; assert CellExponent(js[13]) < 16; assert CellExponent(js[14]) < 16; assert CellExponent(js[15]) < 16;
  }

  lemma FromJsTile12(js: seq<real>)
    requires |js| >= 16 && SmallExponents(js)
    ensures Tile(FromJsBoard(js), 1, 2) == CellExponent(js[6])
  {
    assert CellExponent(js[0]) < 16; assert CellExponent(js[1]) < 16; assert CellExponent(js[2]) < 16; assert CellExponent(js[3]) < 16; assert CellExponent(js[4]) < 16; assert CellExponent(js[5]) < 16; assert CellExponent(js[6]) < 16; assert CellExponent(js[7]) < 16; assert CellExponent(js[8]) < 16; assert CellExponent(js[9]) < 16; assert CellExponent(js[10]) < 16; assert CellExponent(js[11]) < 16; assert CellExponent(js[12]) < 16; assert CellExponent(js[13]) < 16; assert CellExponent(js[14]) < 16; assert CellExponent(js[15]) < 16;
  }

  lemma FromJsTile13(js: seq<real>)
    requires |js| >= 16 && SmallExponents(js)
    ensures Tile(FromJsBoard(js), 1, 3) == CellExponent(js[7])
  {
    assert CellExponent(js[0]) < 16; assert CellExponent(js[1]) < 16; assert CellExponent(js[2]) < 16; assert CellExponent(js[3]) < 16; assert CellExponent(js[4]) < 16; assert CellExponent(js[5]) < 16; assert CellExponent(js[6]) < 16; assert CellExponent(js[7]) < 16; assert CellExponent(js[8]) < 16; assert CellExponent(js[9]) < 16; assert CellExponent(js[10]) < 16; assert CellExponent(js[11]) < 16; assert CellExponent(js[12]) < 16; assert CellExponent(js[13]) < 16; assert CellExponent(js[14]) < 16; assert CellExponent(js[15]) < 16;
  }

  lemma FromJsTile20(js: seq<real>)
    requires |js| >= 16 && SmallExponents(js)
    ensures Tile(FromJsBoard(js), 2, 0) == CellExponent(js[8])
  {
    assert CellExponent(js[0]) < 16; assert CellExponent(js[1]) < 16; assert CellExponent(js[2]) < 16; assert CellExponent(js[3]) < 16; assert CellExponent(js[4]) < 16; assert CellExponent(js[5]) < 16; assert CellExponent(js[6]) < 16; assert CellExponent(js[7]) < 16; assert CellExponent(js[8]) < 16; assert CellExponent(js[9]) < 16; assert CellExponent(js[10]) < 16; assert CellExponent(js[11]) < 16; assert CellExponent(js[12]) < 16; assert CellExponent(js[13]) < 16; assert CellExponent(js[14]) < 16; assert CellExponent(js[15]) < 16;
  }

  lemma FromJsTile21(js: seq<real>)
    requires |js| >= 16 && SmallExponents(js)
    ensures Tile(FromJsBoard(js), 2, 1) == CellExponent(js[9])
  {
    assert CellExponent(js[0]) < 16; assert CellExponent(js[1]) < 16; assert CellExponent(js[2]) < 16; assert CellExponent(js[3]) < 16; assert CellExponent(js[4]) < 16; assert CellExponent(js[5]) < 16; assert CellExponent(js[6]) < 16; assert CellExponent(js[7]) < 16; assert CellExponent(js[8]) < 16; assert CellExponent(js[9]) < 16; assert CellExponent(js[10]) < 16; assert CellExponent(js[11]) < 16; assert CellExponent(js[12]) < 16; assert CellExponent(js[13]) < 16; assert CellExponent(js[14]) < 16; assert CellExponent(js[15]) < 16;
  }

  lemma FromJsTile22(js: seq<real>)
    requires |js| >= 16 && SmallExponents(js)
    ensures Tile(FromJsBoard(js), 2, 2) == CellExponent(js[10])
  {
    assert CellExponent(js[0]) < 16; assert CellExponent(js[1]) < 16; assert CellExponent(js[2]) < 16; assert CellExponent(js[3]) < 16; assert CellExponent(js[4]) < 16; assert CellExponent(js[5]) < 16; assert CellExponent(js[6]) < 16; assert CellExponent(js[7]) < 16; assert CellExponent(js[8]) < 16; assert CellExponent(js[9]) < 16; assert CellExponent(js[10]) < 16; assert CellExponent(js[11]) < 16; assert CellExponent(js[12]) < 16; assert CellExponent(js[13]) < 16; assert CellExponent(js[14]) < 16; assert CellExponent(js[15]) < 16;
  }

  lemma FromJsTile23(js: seq<real>)
    requires |js| >= 16 && SmallExponents(js)
    ensures Tile(FromJsBoard(js), 2, 3) == CellExponent(js[11])
  {
    assert CellExponent(js[0]) < 16; assert CellExponent(js[1]) < 16; assert CellExponent(js[2]) < 16; assert CellExponent(js[3]) < 16; assert CellExponent(js[4]) < 16; assert CellExponent(js[5]) < 16; assert CellExponent(js[6]) < 16; assert CellExponent(js[7]) < 16; assert CellExponent(js[8]) < 16; assert CellExponent(js[9]) < 16; assert CellExponent(js[10]) < 16; assert CellExponent(js[11]) < 16; assert CellExponent(js[12]) < 16; assert CellExponent(js[13]) < 16; assert CellExponent(js[14]) < 16; assert CellExponent(js[15]) < 16;
  }

  lemma FromJsTile30(js: seq<real>)
    requires |js| >= 16 && SmallExponents(js)
    ensures Tile(FromJsBoard(js), 3, 0) == CellExponent(js[12])
  {
    assert CellExponent(js[0]) < 16; assert CellExponent(js[1]) < 16; assert CellExponent(js[2]) < 16; assert CellExponent(js[3]) < 16; assert CellExponent(js[4]) < 16; assert CellExponent(js[5]) < 16; assert CellExponent(js[6]) < 16; assert CellExponent(js[7]) < 16; assert CellExponent(js[8]) < 16; assert CellExponent(js[9]) < 16; assert CellExponent(js[10]) < 16; assert CellExponent(js[11]) < 16; assert CellExponent(js[12]) < 16; assert CellExponent(js[13]) < 16; assert CellExponent(js[14]) < 16; assert CellExponent(js[15]) < 16;
  }

  lemma FromJsTile31(js: seq<real>)
    requires |js| >= 16 && SmallExponents(js)
    ensures Tile(FromJsBoard(js), 3, 1) == CellExponent(js[13])
  {
    assert CellExponent(js[0]) < 16; assert CellExponent(js[1]) < 16; assert CellExponent(js[2]) < 16; assert CellExponent(js[3]) < 16; assert CellExponent(js[4]) < 16; assert CellExponent(js[5]) < 16; assert CellExponent(js[6]) < 16; assert CellExponent(js[7]) < 16; assert CellExponent(js[8]) < 16; assert CellExponent(js[9]) < 16; assert CellExponent(js[10]) < 16; assert CellExponent(js[11]) < 16; assert CellExponent(js[12]) < 16; assert CellExponent(js[13]) < 16; assert CellExponent(js[14]) < 16; assert CellExponent(js[15]) < 16;
  }

  lemma FromJsTile32(js: seq<real>)
    requires |js| >= 16 && SmallExponents(js)
    ensures Tile(FromJsBoard(js), 3, 2) == CellExponent(js[14])
  {
    assert CellExponent(js[0]) < 16; assert CellExponent(js[1]) < 16; assert CellExponent(js[2]) < 16; assert CellExponent(js[3]) < 16; assert CellExponent(js[4]) < 16; assert CellExponent(js[5]) < 16; assert CellExponent(js[6]) < 16; assert CellExponent(js[7]) < 16; assert CellExponent(js[8]) < 16; assert CellExponent(js[9]) < 16; assert CellExponent(js[10]) < 16; assert CellExponent(js[11]) < 16; assert CellExponent(js[12]) < 16; assert CellExponent(js[13]) < 16; assert CellExponent(js[14]) < 16; assert CellExponent(js[15]) < 16;
  }

  lemma FromJsTile33(js: seq<real>)
    requires |js| >= 16 && SmallExponents(js)
    ensures Tile(FromJsBoard(js), 3, 3) == CellExponent(js[15])
  {
    assert CellExponent(js[0]) < 16; assert CellExponent(js[1]) < 16; assert CellExponent(js[2]) < 16; assert CellExponent(js[3]) < 16; assert CellExponent(js[4]) < 16; assert CellExponent(js[5]) < 16; assert CellExponent(js[6]) < 16; assert CellExponent(js[7]) < 16; assert CellExponent(js[8]) < 16; assert CellExponent(js[9]) < 16; assert CellExponent(js[10]) < 16; assert CellExponent(js[11]) < 16; assert CellExponent(js[12]) < 16; assert CellExponent(js[13]) < 16; assert CellExponent(js[14]) < 16; assert CellExponent(js[15]) < 16;
  }

  /** With every exponent below 16, tile (r, c) of `from_js` is the exponent of cell 4r + c. */
  lemma FromJsTile(js: seq<real>, r: int, c: int)
    requires |js| >= 16 && SmallExponents(js) && 0 <= r < 4 && 0 <= c < 4
    ensures Tile(FromJsUpTo(js, 16), r, c) == CellExponent(js[4 * r + c])
  {
    FromJsComplete(js);
    if r == 0 {
      if c == 0 { FromJsTile00(js); }
      else if c == 1 { FromJsTile01(js); }
      else if c == 2 { FromJsTile02(js); }
      else { FromJsTile03(js); }
    }
    else if r == 1 {
      if c == 0 { FromJsTile10(js); }
      else if c == 1 { FromJsTile11(js); }
      else if c == 2 { FromJsTile12(js); }
      else { FromJsTile13(js); }
    }
    else if r == 2 {
      if c == 0 { FromJsTile20(js); }
      else if c == 1 { FromJsTile21(js); }
      else if c == 2 { FromJsTile22(js); }
      else { FromJsTile23(js); }
    }
    else {
      if c == 0 { FromJsTile30(js); }
      else if c == 1 { FromJsTile31(js); }
      else if c == 2 { FromJsTile32(js); }
      else { FromJsTile33(js); }
    }
  }
  lemma RowOfTiles0(b: Board)
    ensures GetRow(b, 0) == (Tile(b, 0, 0) | (Tile(b, 0, 1) << 4) | (Tile(b, 0, 2) << 8) | (Tile(b, 0, 3) << 12)) as Row
  {
  }

  lemma RowOfTiles1(b: Board)
    ensures GetRow(b, 1) == (Tile(b, 1, 0) | (Tile(b, 1, 1) << 4) | (Tile(b, 1, 2) << 8) | (Tile(b, 1, 3) << 12)) as Row
  {
  }

  lemma RowOfTiles2(b: Board)
    ensures GetRow(b, 2) == (Tile(b, 2, 0) | (Tile(b, 2, 1) << 4) | (Tile(b, 2, 2) << 8) | (Tile(b, 2, 3) << 12)) as Row
  {
  }

  lemma RowOfTiles3(b: Board)
    ensures GetRow(b, 3) == (Tile(b, 3, 0) | (Tile(b, 3, 1) << 4) | (Tile(b, 3, 2) << 8) | (Tile(b, 3, 3) << 12)) as Row
  {
  }

  lemma FromJsGetRow0(js: seq<real>)
    requires |js| >= 16 && SmallExponents(js)
    ensures GetRow(FromJsBoard(js), 0)
      == (CellExponent(js[0]) | (CellExponent(js[1]) << 4) | (CellExponent(js[2]) << 8) | (CellExponent(js[3]) << 12)) as Row
  {
    FromJsTile00(js); FromJsTile01(js); FromJsTile02(js); FromJsTile03(js);
    RowOfTiles0(FromJsBoard(js));
  }

  lemma FromJsGetRow1(js: seq<real>)
    requires |js| >= 16 && SmallExponents(js)
    ensures GetRow(FromJsBoard(js), 1)
      == (CellExponent(js[4]) | (CellExponent(js[5]) << 4) | (CellExponent(js[6]) << 8) | (CellExponent(js[7]) << 12)) as Row
  {
    FromJsTile10(js); FromJsTile11(js); FromJsTile12(js); FromJsTile13(js);
    RowOfTiles1(FromJsBoard(js));
  }

  lemma FromJsGetRow2(js: seq<real>)
    requires |js| >= 16 && SmallExponents(js)
    ensures GetRow(FromJsBoard(js), 2)
      == (CellExponent(js[8]) | (CellExponent(js[9]) << 4) | (CellExponent(js[10]) << 8) | (CellExponent(js[11]) << 12)) as Row
  {
    FromJsTile20(js); FromJsTile21(js); FromJsTile22(js); FromJsTile23(js);
    RowOfTiles2(FromJsBoard(js));
  }

  lemma FromJsGetRow3(js: seq<real>)
    requires |js| >= 16 && SmallExponents(js)
    ensures GetRow(FromJsBoard(js), 3)
      == (CellExponent(js[12]) | (CellExponent(js[13]) << 4) | (CellExponent(js[14]) << 8) | (CellExponent(js[15]) << 12)) as Row
  {
    FromJsTile30(js); FromJsTile31(js); FromJsTile32(js); FromJsTile33(js);
    RowOfTiles3(FromJsBoard(js));
  }

  /** With every exponent below 16, row r of `from_js` packs the exponents of cells 4r .. 4r + 3. */
  lemma FromJsGetRow(js: seq<real>, r: int)
    requires |js| >= 16 && SmallExponents(js) && 0 <= r < 4
    ensures GetRow(FromJsUpTo(js, 16), r)
      == (CellExponent(js[4 * r]) | (CellExponent(js[4 * r + 1]) << 4) | (CellExponent(js[4 * r + 2]) << 8) | (CellExponent(js[4 * r + 3]) << 12)) as Row
  {
    FromJsComplete(js);
    if r == 0 { FromJsGetRow0(js); }
    else if r == 1 { FromJsGetRow1(js); }
    else if r == 2 { FromJsGetRow2(js); }
    else { FromJsGetRow3(js); }
  }

  // ---------------------------------------------------------------- count_empty

  /** The cell indices below n whose nibble is 0. */
  function EmptyCellsBelow(b: Board, n: int): set<int>
    requires 0 <= n <= 16
  {
    set k | 0 <= k < n && Nibble(b, k) == 0
  }

  /** The empty cells of a board, as cell indices 4r + c. */
  function EmptyCells(b: Board): set<int>
  {
    EmptyCellsBelow(b, 16)
  }

  lemma EmptyCellsStep(b: Board, n: int)
    requires 0 <= n < 16
    ensures |EmptyCellsBelow(b, n + 1)| == |EmptyCellsBelow(b, n)| + (if Nibble(b, n) == 0 then 1 else 0)
  {
    if Nibble(b, n) == 0 {
      assert EmptyCellsBelow(b, n + 1) == EmptyCellsBelow(b, n) + {n};
    } else {
      assert EmptyCellsBelow(b, n + 1) == EmptyCellsBelow(b, n);
    }
  }

  /** `count_empty`: the number of cells holding exponent 0. */
  method CountEmpty(board: Board) returns (count: nat)
    ensures count == |EmptyCells(board)|
    ensures count <= 16
  {
    count := 0;
    var i := 0;
    while i < 16
      invariant 0 <= i <= 16
      invariant count == |EmptyCellsBelow(board, i)|
      invariant count <= i
    {
      EmptyCellsStep(board, i);
      if Nibble(board, i) == 0 {
        count := count + 1;
      }
      i := i + 1;
    }
  }

  lemma {:induction false} EmptyCellsBelowBound(b: Board, n: int)
    requires 0 <= n <= 16
    ensures |EmptyCellsBelow(b, n)| <= n
  {
    if n > 0 {
      EmptyCellsBelowBound(b, n - 1);
      EmptyCellsStep(b, n - 1);
    }
  }

  /** A board has at most sixteen empty cells. */
  lemma EmptyCellsBound(b: Board)
    ensures |EmptyCells(b)| <= 16
  {
    EmptyCellsBelowBound(b, 16);
  }

  lemma TileNibble00(b: Board)
    ensures Tile(b, 0, 0) == Nibble(b, 0)
  {
  }

  lemma TileNibble01(b: Board)
    ensures Tile(b, 0, 1) == Nibble(b, 1)
  {
  }

  lemma TileNibble02(b: Board)
    ensures Tile(b, 0, 2) == Nibble(b, 2)
  {
  }

  lemma TileNibble03(b: Board)
    ensures Tile(b, 0, 3) == Nibble(b, 3)
  {
  }

  lemma TileNibble10(b: Board)
    ensures Tile(b, 1, 0) == Nibble(b, 4)
  {
  }

  lemma TileNibble11(b: Board)
    ensures Tile(b, 1, 1) == Nibble(b, 5)
  {
  }

  lemma TileNibble12(b: Board)
    ensures Tile(b, 1, 2) == Nibble(b, 6)
  {
  }

  lemma TileNibble13(b: Board)
    ensures Tile(b, 1, 3) == Nibble(b, 7)
  {
  }

  lemma TileNibble20(b: Board)
    ensures Tile(b, 2, 0) == Nibble(b, 8)
  {
  }

  lemma TileNibble21(b: Board)
    ensures Tile(b, 2, 1) == Nibble(b, 9)
  {
  }

  lemma TileNibble22(b: Board)
    ensures Tile(b, 2, 2) == Nibble(b, 10)
  {
  }

  lemma TileNibble23(b: Board)
    ensures Tile(b, 2, 3) == Nibble(b, 11)
  {
  }

  lemma TileNibble30(b: Board)
    ensures Tile(b, 3, 0) == Nibble(b, 12)
  {
  }

  lemma TileNibble31(b: Board)
    ensures Tile(b, 3, 1) == Nibble(b, 13)
  {
  }

  lemma TileNibble32(b: Board)
    ensures Tile(b, 3, 2) == Nibble(b, 14)
  {
  }

  lemma TileNibble33(b: Board)
    ensures Tile(b, 3, 3) == Nibble(b, 15)
  {
  }

  /** Tile (r, c) is nibble 4r + c. */
  lemma TileNibble(b: Board, r: int, c: int)
    requires 0 <= r < 4 && 0 <= c < 4
    ensures Tile(b, r, c) == Nibble(b, 4 * r + c)
  {
    if r == 0 {
      if c == 0 { TileNibble00(b); }
      else if c == 1 { TileNibble01(b); }
      else if c == 2 { TileNibble02(b); }
      else { TileNibble03(b); }
    }
    else if r == 1 {
      if c == 0 { TileNibble10(b); }
      else if c == 1 { TileNibble11(b); }
      else if c == 2 { TileNibble12(b); }
      else { TileNibble13(b); }
    }
    else if r == 2 {
      if c == 0 { TileNibble20(b); }
      else if c == 1 { TileNibble21(b); }
      else if c == 2 { TileNibble22(b); }
      else { TileNibble23(b); }
    }
    else {
      if c == 0 { TileNibble30(b); }
      else if c == 1 { TileNibble31(b); }
      else if c == 2 { TileNibble32(b); }
      else { TileNibble33(b); }
    }
  }

  /** Cell 4r + c is empty exactly when tile (r, c) is 0. */
  lemma EmptyCellsTiles(b: Board, r: int, c: int)
    requires 0 <= r < 4 && 0 <= c < 4
    ensures 4 * r + c in EmptyCells(b) <==> Tile(b, r, c) == 0
  {
    TileNibble(b, r, c);
  }


  // ---------------------------------------------------------------- examples from the unit tests

  /** The exponents of the tile values in `test_from_js_and_get_row`. */
  lemma CellExponentPowers()
    ensures CellExponent(2.0) == 1 && CellExponent(4.0) == 2 && CellExponent(8.0) == 3 && CellExponent(16.0) == 4 && CellExponent(32.0) == 5 && CellExponent(64.0) == 6 && CellExponent(128.0) == 7 && CellExponent(256.0) == 8 && CellExponent(512.0) == 9 && CellExponent(1024.0) == 10 && CellExponent(2048.0) == 11 && CellExponent(4096.0) == 12 && CellExponent(8192.0) == 13 && CellExponent(16384.0) == 14 && CellExponent(0.0) == 0
  {
    FloorLog2Unique(2.0, 1);
    FloorLog2Unique(4.0, 2);
    FloorLog2Unique(8.0, 3);
    FloorLog2Unique(16.0, 4);
    FloorLog2Unique(32.0, 5);
    FloorLog2Unique(64.0, 6);
    FloorLog2Unique(128.0, 7);
    FloorLog2Unique(256.0, 8);
    FloorLog2Unique(512.0, 9);
    FloorLog2Unique(1024.0, 10);
    FloorLog2Unique(2048.0, 11);
    FloorLog2Unique(4096.0, 12);
    FloorLog2Unique(8192.0, 13);
    FloorLog2Unique(16384.0, 14);
  }

  /** The values 1 .. 16 of `test_reverse`: the logarithm is truncated, so 3.0 is stored as 1 and 1.0 as 0. */
  lemma CellExponentSmall()
    ensures CellExponent(1.0) == 0 && CellExponent(2.0) == 1 && CellExponent(3.0) == 1 && CellExponent(4.0) == 2 && CellExponent(5.0) == 2 && CellExponent(6.0) == 2 && CellExponent(7.0) == 2 && CellExponent(8.0) == 3 && CellExponent(9.0) == 3 && CellExponent(10.0) == 3 && CellExponent(11.0) == 3 && CellExponent(12.0) == 3 && CellExponent(13.0) == 3 && CellExponent(14.0) == 3 && CellExponent(15.0) == 3 && CellExponent(16.0) == 4
  {
    FloorLog2Unique(1.0, 0);
    FloorLog2Unique(2.0, 1);
    FloorLog2Unique(3.0, 1);
    FloorLog2Unique(4.0, 2);
    FloorLog2Unique(5.0, 2);
    FloorLog2Unique(6.0, 2);
    FloorLog2Unique(7.0, 2);
    FloorLog2Unique(8.0, 3);
    FloorLog2Unique(9.0, 3);
    FloorLog2Unique(10.0, 3);
    FloorLog2Unique(11.0, 3);
    FloorLog2Unique(12.0, 3);
    FloorLog2Unique(13.0, 3);
    FloorLog2Unique(14.0, 3);
    FloorLog2Unique(15.0, 3);
    FloorLog2Unique(16.0, 4);
  }

  /** `test_from_js_and_get_row`: the tiles 2 .. 16384 give the rows 0x4321, 0x8765, 0xCBA9, 0x00ED. */
  lemma FromJsGetRowExample(js: seq<real>)
    requires |js| == 16 && js[0] == 2.0 && js[1] == 4.0 && js[2] == 8.0 && js[3] == 16.0 && js[4] == 32.0 && js[5] == 64.0 && js[6] == 128.0 && js[7] == 256.0 && js[8] == 512.0 && js[9] == 1024.0 && js[10] == 2048.0 && js[11] == 4096.0 && js[12] == 8192.0 && js[13] == 16384.0 && js[14] == 0.0 && js[15] == 0.0
    ensures GetRow(FromJsUpTo(js, 16), 0) == 0x4321 && GetRow(FromJsUpTo(js, 16), 1) == 0x8765
    ensures GetRow(FromJsUpTo(js, 16), 2) == 0xCBA9 && GetRow(FromJsUpTo(js, 16), 3) == 0x00ED
  {
    CellExponentPowers();
    FromJsGetRowExampleCells(js);
  }

  lemma FromJsGetRowExampleCells(js: seq<real>)
    requires |js| >= 16 && CellExponent(js[0]) == 1 && CellExponent(js[1]) == 2 && CellExponent(js[2]) == 3 && CellExponent(js[3]) == 4 && CellExponent(js[4]) == 5 && CellExponent(js[5]) == 6 && CellExponent(js[6]) == 7 && CellExponent(js[7]) == 8 && CellExponent(js[8]) == 9 && CellExponent(js[9]) == 10 && CellExponent(js[10]) == 11 && CellExponent(js[11]) == 12 && CellExponent(js[12]) == 13 && CellExponent(js[13]) == 14 && CellExponent(js[14]) == 0 && CellExponent(js[15]) == 0
    ensures GetRow(FromJsUpTo(js, 16), 0) == 0x4321 && GetRow(FromJsUpTo(js, 16), 1) == 0x8765
    ensures GetRow(FromJsUpTo(js, 16), 2) == 0xCBA9 && GetRow(FromJsUpTo(js, 16), 3) == 0x00ED
  {
    SmallExponentsIntro(js);
    FromJsGetRow(js, 0); FromJsGetRow(js, 1); FromJsGetRow(js, 2); FromJsGetRow(js, 3);
  }

  /** `test_transpose`: the board with rows 0x4321, 0x8765, 0xCBA9, 0x0FED transposed. */
  lemma TransposeExample()
    ensures GetRow(Transposed(0x0FED_CBA9_8765_4321), 0) == 0xD951 && GetRow(Transposed(0x0FED_CBA9_8765_4321), 1) == 0xEA62
    ensures GetRow(Transposed(0x0FED_CBA9_8765_4321), 2) == 0xFB73 && GetRow(Transposed(0x0FED_CBA9_8765_4321), 3) == 0x0C84
  {
  }

  /** The board `from_js` builds from the values 1 .. 16. */
  lemma FromJsSmallBoard(js: seq<real>)
    requires |js| == 16 && js[0] == 1.0 && js[1] == 2.0 && js[2] == 3.0 && js[3] == 4.0 && js[4] == 5.0 && js[5] == 6.0 && js[6] == 7.0 && js[7] == 8.0 && js[8] == 9.0 && js[9] == 10.0 && js[10] == 11.0 && js[11] == 12.0 && js[12] == 13.0 && js[13] == 14.0 && js[14] == 15.0 && js[15] == 16.0
    ensures FromJsUpTo(js, 16) == 0x4333_3333_3222_2110
  {
    CellExponentSmall();
    FromJsSmallBoardCells(js);
  }

  lemma FromJsSmallBoardCells(js: seq<real>)
    requires |js| >= 16 && CellExponent(js[0]) == 0 && CellExponent(js[1]) == 1 && CellExponent(js[2]) == 1 && CellExponent(js[3]) == 2 && CellExponent(js[4]) == 2 && CellExponent(js[5]) == 2 && CellExponent(js[6]) == 2 && CellExponent(js[7]) == 3 && CellExponent(js[8]) == 3 && CellExponent(js[9]) == 3 && CellExponent(js[10]) == 3 && CellExponent(js[11]) == 3 && CellExponent(js[12]) == 3 && CellExponent(js[13]) == 3 && CellExponent(js[14]) == 3 && CellExponent(js[15]) == 4
    ensures FromJsUpTo(js, 16) == 0x4333_3333_3222_2110
  {
    SmallExponentsIntro(js);
    FromJsGetRow(js, 0); FromJsGetRow(js, 1); FromJsGetRow(js, 2); FromJsGetRow(js, 3);
    RowsDetermine(FromJsUpTo(js, 16), 0x4333_3333_3222_2110);
  }

  /** The board `from_js` builds from the values 16 .. 1. */
  lemma FromJsSmallReversedBoard(js: seq<real>)
    requires |js| == 16 && js[0] == 16.0 && js[1] == 15.0 && js[2] == 14.0 && js[3] == 13.0 && js[4] == 12.0 && js[5] == 11.0 && js[6] == 10.0 && js[7] == 9.0 && js[8] == 8.0 && js[9] == 7.0 && js[10] == 6.0 && js[11] == 5.0 && js[12] == 4.0 && js[13] == 3.0 && js[14] == 2.0 && js[15] == 1.0
    ensures FromJsUpTo(js, 16) == 0x0112_2223_3333_3334
  {
    CellExponentSmall();
    FromJsSmallReversedBoardCells(js);
  }

  lemma FromJsSmallReversedBoardCells(js: seq<real>)
    requires |js| >= 16 && CellExponent(js[0]) == 4 && CellExponent(js[1]) == 3 && CellExponent(js[2]) == 3 && CellExponent(js[3]) == 3 && CellExponent(js[4]) == 3 && CellExponent(js[5]) == 3 && CellExponent(js[6]) == 3 && CellExponent(js[7]) == 3 && CellExponent(js[8]) == 3 && CellExponent(js[9]) == 2 && CellExponent(js[10]) == 2 && CellExponent(js[11]) == 2 && CellExponent(js[12]) == 2 && CellExponent(js[13]) == 1 && CellExponent(js[14]) == 1 && CellExponent(js[15]) == 0
    ensures FromJsUpTo(js, 16) == 0x0112_2223_3333_3334
  {
    SmallExponentsIntro(js);
    FromJsGetRow(js, 0); FromJsGetRow(js, 1); FromJsGetRow(js, 2); FromJsGetRow(js, 3);
    RowsDetermine(FromJsUpTo(js, 16), 0x0112_2223_3333_3334);
  }

  /** `test_reverse`: reversing the board of 1 .. 16 gives the board of 16 .. 1. */
  lemma ReverseExample(js: seq<real>, expected: seq<real>)
    requires |js| == 16 && js[0] == 1.0 && js[1] == 2.0 && js[2] == 3.0 && js[3] == 4.0 && js[4] == 5.0 && js[5] == 6.0 && js[6] == 7.0 && js[7] == 8.0 && js[8] == 9.0 && js[9] == 10.0 && js[10] == 11.0 && js[11] == 12.0 && js[12] == 13.0 && js[13] == 14.0 && js[14] == 15.0 && js[15] == 16.0
    requires |expected| == 16 && expected[0] == 16.0 && expected[1] == 15.0 && expected[2] == 14.0 && expected[3] == 13.0 && expected[4] == 12.0 && expected[5] == 11.0 && expected[6] == 10.0 && expected[7] == 9.0 && expected[8] == 8.0 && expected[9] == 7.0 && expected[10] == 6.0 && expected[11] == 5.0 && expected[12] == 4.0 && expected[13] == 3.0 && expected[14] == 2.0 && expected[15] == 1.0
    ensures Reversed(FromJsUpTo(js, 16)) == FromJsUpTo(expected, 16)
  {
    FromJsSmallBoard(js);
    FromJsSmallReversedBoard(expected);
    ReversedRow0(0x4333_3333_3222_2110); ReversedRow1(0x4333_3333_3222_2110); ReversedRow2(0x4333_3333_3222_2110); ReversedRow3(0x4333_3333_3222_2110);
    RowsDetermine(Reversed(0x4333_3333_3222_2110), 0x0112_2223_3333_3334);
  }

  /** The empty cells of the board of `test_count_empty`: two in row 0, one in row 1, four in row 3. */
  lemma EmptyCellsLiteral()
    ensures |EmptyCells(0x0000_CBA9_8760_0301)| == 7
  {
    EmptyCellsStep(0x0000_CBA9_8760_0301, 0);
    EmptyCellsStep(0x0000_CBA9_8760_0301, 1);
    EmptyCellsStep(0x0000_CBA9_8760_0301, 2);
    EmptyCellsStep(0x0000_CBA9_8760_0301, 3);
    EmptyCellsStep(0x0000_CBA9_8760_0301, 4);
    EmptyCellsStep(0x0000_CBA9_8760_0301, 5);
    EmptyCellsStep(0x0000_CBA9_8760_0301, 6);
    EmptyCellsStep(0x0000_CBA9_8760_0301, 7);
    EmptyCellsStep(0x0000_CBA9_8760_0301, 8);
    EmptyCellsStep(0x0000_CBA9_8760_0301, 9);
    EmptyCellsStep(0x0000_CBA9_8760_0301, 10);
    EmptyCellsStep(0x0000_CBA9_8760_0301, 11);
    EmptyCellsStep(0x0000_CBA9_8760_0301, 12);
    EmptyCellsStep(0x0000_CBA9_8760_0301, 13);
    EmptyCellsStep(0x0000_CBA9_8760_0301, 14);
    EmptyCellsStep(0x0000_CBA9_8760_0301, 15);
  }

  /** `test_count_empty`: the board read from the test's array has 7 empty cells. */
  lemma CountEmptyExample(js: seq<real>)
    requires |js| == 16 && js[0] == 2.0 && js[1] == 0.0 && js[2] == 8.0 && js[3] == 0.0 && js[4] == 0.0 && js[5] == 64.0 && js[6] == 128.0 && js[7] == 256.0 && js[8] == 512.0 && js[9] == 1024.0 && js[10] == 2048.0 && js[11] == 4096.0 && js[12] == 0.0 && js[13] == 0.0 && js[14] == 0.0 && js[15] == 0.0
    ensures |EmptyCells(FromJsUpTo(js, 16))| == 7
  {
    CellExponentPowers();
    CountEmptyExampleCells(js);
  }

  lemma CountEmptyExampleCells(js: seq<real>)
    requires |js| >= 16 && CellExponent(js[0]) == 1 && CellExponent(js[1]) == 0 && CellExponent(js[2]) == 3 && CellExponent(js[3]) == 0 && CellExponent(js[4]) == 0 && CellExponent(js[5]) == 6 && CellExponent(js[6]) == 7 && CellExponent(js[7]) == 8 && CellExponent(js[8]) == 9 && CellExponent(js[9]) == 10 && CellExponent(js[10]) == 11 && CellExponent(js[11]) == 12 && CellExponent(js[12]) == 0 && CellExponent(js[13]) == 0 && CellExponent(js[14]) == 0 && CellExponent(js[15]) == 0
    ensures |EmptyCells(FromJsUpTo(js, 16))| == 7
  {
    SmallExponentsIntro(js);
    FromJsGetRow(js, 0); FromJsGetRow(js, 1); FromJsGetRow(js, 2); FromJsGetRow(js, 3);
    RowsDetermine(FromJsUpTo(js, 16), 0x0000_CBA9_8760_0301);
    EmptyCellsLiteral();
  }

}
