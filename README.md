# A verified model of the 2048 move engine and expectimax search

This project models the game logic of a 2048 helper in Dafny. The helper recommends a move by
expectimax search over the board. The logic exists in several versions, and all of them are
modelled:

- **The Rust bitboard engine** (`wasm-lib/src/board.rs`, `tables.rs`, `ai.rs`).
  - A board is a `u64` of sixteen 4-bit cells. Each cell holds the exponent e of a tile 2^e, or 0
    for an empty cell. Row i is bits [16i, 16i+16), and tile (r, c) is nibble 4r + c.
  - `board.rs` reads and writes rows, transposes the board, reverses a row, reverses the whole
    board, reads a board from 16 tile values (`from_js`) and counts empty cells.
  - `tables.rs` fills a left-move table and a score table for all 65536 rows. A row's left move
    comes from `slide_and_merge`; a right move is the left move of the reversed row, reversed back.
  - `ai.rs` builds the four moves from the left move, computes the integer heuristic sub-scores
    (monotonicity, smoothness, largest exponent), and runs expectimax with a transposition table.
    The table is shared by the four root moves of `find_best_move`.
- **The older bitboard copy** (`wasm-lib/src/bitboard.rs`).
  - It has its own single-pass `slide_left` and an explicit right-move table.
  - Its tables are built once, behind the flag `TABLES_INITIALIZED`.
  - Its heuristic skips empty cells in the monotonicity walks.
  - Its expectimax stores depth-0 values and uses -1.0 as a starting sentinel. Its root uses a
    fresh table for each move.
- **The face-value simulators.** These work on 4×4 arrays of tile values (2, 4, 8, …):
  - `wasm-lib/src/lib.rs`: `operate_row` with a merge limit, and `simulate_move`, which writes an
    output buffer and returns `score * 10 + moved`;
  - the JavaScript copies in `ai-worker.js`, `script.js`, `dist/main.js` and `dist/ai-worker.js`,
    which splice rows in place;
  - `src/game/game.ts`, which maps directions to codes and decodes the WASM result;
  - the heuristics of `src/ai/evaluation.ts` and their JavaScript copies;
  - the worker searches of `src/ai/ai-worker.ts`, `dist/ai-worker.js` and `ai-worker.js` (with a
    memo), and that of `script.js` (without one);
  - `addRandomTile`, `initializeBoard` and the game state of `dist/main.js`.

One Dafny module models each part:

| module | file | models |
|---|---|---|
| `Board` | board.dfy | board.rs |
| `Tables` | tables.dfy | tables.rs |
| `Ai` | ai.dfy | the moves of ai.rs |
| `Heuristics` | heuristics.dfy | `calculate_metrics` and `evaluate_board` of ai.rs |
| `Search` | search.dfy | `expectimax`, `find_empty_cell_masks` and `find_best_move` of ai.rs |
| `Bitboard` | bitboard.dfy | the row codec, slide, tables and moves of bitboard.rs |
| `BitboardHeuristics` | bitheuristics.dfy | the heuristics of bitboard.rs |
| `BitboardSearch` | bitsearch.dfy | the search of bitboard.rs |
| `FaceRow` | facerow.dfy | `operate_row` and `operateRow` |
| `FaceBoard` | faceboard.dfy | the face-value boards, moves, encoding and empty cells |
| `FaceEvaluation` | faceeval.dfy | evaluation.ts and its copies |
| `FaceSearch` | facesearch.dfy | the worker searches and script.js's search |
| `FaceGame` | facegame.dfy | `addRandomTile` and the game state |

Rust values are Dafny bit-vectors: `bv64` for a board, `bv16` for a row. Tile exponents and
scores are unbounded naturals; a `u32` score of four rows cannot overflow. Face values and their
scores are unbounded integers; `FaceBoard.MovedFitsI32` bounds the cells for which lib.rs's `i32`
score cannot overflow. Heuristic values are `real`.

Transcendental functions are parameters of the model: `ln_1p`, `ln` and `Math.log2`. Any property
that needs them, such as an exact logarithm on powers of two, is stated as a hypothesis.

The same holds for the heuristic and the move of every search: they are function parameters. The
`…With` methods and `Mover` instantiate them with the functions of the source.

Each loop of the source is a Dafny method with a loop that carries invariants. Each method is
proved against a reference function, and the reference function's properties are proved as lemmas.

## Model

| member | source | states |
|---|---|---|
| Board.Transpose | wasm-lib/src/board.rs:28-39 | The double loop ORs every tile into its mirrored place; the result is `Transposed(board)`. |
| Board.TransposedTile | wasm-lib/src/board.rs:28-39 | Transposing moves tile (r, c) to (c, r). |
| Board.TransposedInvolution | wasm-lib/src/board.rs:28-39 | Transposing twice gives the board back. |
| Board.TransposeExample | wasm-lib/src/board.rs:130-153 | `test_transpose`: rows 0x4321, 0x8765, 0xCBA9, 0x0FED become 0xD951, 0xEA62, 0xFB73, 0x0C84. |
| Board.TransposeComplete | wasm-lib/src/board.rs:28-39 | After all four rows, the loop accumulator is the transposed board. |
| Board.SetRowGetRow | wasm-lib/src/board.rs:13-24 | After `set_row(b, i, v)`, `get_row` returns v at i; every other row is unchanged. |
| Board.TileOfRow | wasm-lib/src/board.rs:13-15 | A tile is the matching nibble of its row (row i is bits [16i, 16i+16)). |
| Board.RowsDetermine | wasm-lib/src/board.rs:13-15 | Two boards with the same four rows are equal. |
| Board.ReverseRowNibbles | wasm-lib/src/board.rs:71-73 | `reverse_row` puts nibble c at position 3 - c. |
| Board.ReverseRowInvolution | wasm-lib/src/board.rs:71-73 | Reversing a row twice gives it back. |
| Board.Reverse | wasm-lib/src/board.rs:75-81 | The loop writes row i, reversed, to row 3 - i; the result is the accumulator after four rows. |
| Board.ReversedClosed | wasm-lib/src/board.rs:75-81 | The reversed board is the four `set_row` calls of `reverse` applied to an empty board. |
| Board.ReversedRow | wasm-lib/src/board.rs:75-81 | Row i of the reversed board is row 3 - i reversed. |
| Board.ReversedTile | wasm-lib/src/board.rs:75-81 | `reverse` moves tile (r, c) to (3 - r, 3 - c): a 180-degree rotation. |
| Board.ReversedInvolution | wasm-lib/src/board.rs:75-81 | Reversing twice gives the board back. |
| Board.ReverseExample | wasm-lib/src/board.rs:88-107 | `test_reverse`: the board read from 1 .. 16, reversed, is the board read from 16 .. 1. |
| Board.FloorLog2 | wasm-lib/src/board.rs:50 | The whole part e of log2 v satisfies 2^e <= v < 2^(e+1). |
| Board.FloorLog2Unique | wasm-lib/src/board.rs:50 | That e is the only exponent with 2^e <= v < 2^(e+1). |
| Board.ExponentOfPow2 | wasm-lib/src/board.rs:50 | The truncated logarithm of the tile value 2^e is e, saturated to 64 bits. |
| Board.FromJs | wasm-lib/src/board.rs:43-57 | The loop ORs the exponent of cell n into nibble n, skipping zero cells; it needs 16 values, as the indexing does. |
| Board.FromJsSkip | wasm-lib/src/board.rs:47-53 | An empty cell adds nothing to the board. |
| Board.FromJsComplete | wasm-lib/src/board.rs:43-57 | The accumulator after 16 cells is the board in closed form. |
| Board.FromJsTile | wasm-lib/src/board.rs:43-57 | When every exponent fits a nibble, tile (r, c) is the exponent of cell 4r + c (row-major). |
| Board.FromJsGetRow | wasm-lib/src/board.rs:43-57 | Under the same condition, row r packs the exponents of cells 4r .. 4r+3. |
| Board.CellExponentPowers | wasm-lib/src/board.rs:110-127 | The tile values 2 .. 16384 of the test have exponents 1 .. 14, and 0 has 0. |
| Board.CellExponentSmall | wasm-lib/src/board.rs:88-107 | The values 1 .. 16 of `test_reverse` truncate: 3 is stored as 1, and 1 as 0. |
| Board.FromJsGetRowExample | wasm-lib/src/board.rs:110-127 | `test_from_js_and_get_row`: the rows are 0x4321, 0x8765, 0xCBA9, 0x00ED. |
| Board.FromJsSmallBoard | wasm-lib/src/board.rs:88-107 | The board read from 1 .. 16 is 0x4333_3333_3222_2110. |
| Board.FromJsSmallReversedBoard | wasm-lib/src/board.rs:88-107 | The board read from 16 .. 1 is 0x0112_2223_3333_3334. |
| Board.CountEmpty | wasm-lib/src/board.rs:61-69 | The count is the number of zero nibbles, and it is at most 16. |
| Board.EmptyCellsBound | wasm-lib/src/board.rs:61-69 | A board has at most sixteen empty cells. |
| Board.EmptyCellsTiles | wasm-lib/src/board.rs:61-69 | Cell 4r + c is counted exactly when tile (r, c) is 0. |
| Board.TileNibble | wasm-lib/src/board.rs:61-69 | Tile (r, c) is nibble 4r + c, the cell `count_empty` reads. |
| Board.CountEmptyExample | wasm-lib/src/board.rs:156-165 | `test_count_empty`: the test board has 7 empty cells. |
| Tables.Compact | wasm-lib/src/tables.rs:50-58 | The compacted row is never longer than the row. |
| Tables.CompactTiles | wasm-lib/src/tables.rs:50-58 | The compacted tiles are nonzero, and they stay nibbles (and mergeable) when the row's are. |
| Tables.SlideTiles | wasm-lib/src/tables.rs:50-58 | The first loop moves the nonzero tiles, in order, to the front of a fresh buffer of zeros. |
| Tables.MergeTiles | wasm-lib/src/tables.rs:59-76 | The merge loop fills the buffer with the merge run and adds up the run score. The loop invariant keeps the write position at most the read position, below 4. |
| Tables.MergeLoopMerge | wasm-lib/src/tables.rs:61-69 | Two equal tiles become one tile one higher, written at the next position; the score adds 2^(new exponent), and the loop skips both tiles. |
| Tables.MergeLoopCopy | wasm-lib/src/tables.rs:70-74 | Any other tile is copied, and only a nonzero one advances the write position. |
| Tables.MergeLoopEnd | wasm-lib/src/tables.rs:59-76 | At the end, the buffer is the padded merge run and the score is the run score. |
| Tables.RunPad | wasm-lib/src/tables.rs:59-76 | Over a padded compacted row, the loop's run is the reference merge pass, and its score is that pass's score. |
| Tables.SlideAndMerge | wasm-lib/src/tables.rs:45-79 | `slide_and_merge` returns the reference left slide and its score. |
| Tables.MergeScore4 | wasm-lib/src/tables.rs:61-69 | Four tiles score either their first pair and their last pair, or their middle pair: each tile merges at most once. |
| Tables.MergeBounded | wasm-lib/src/tables.rs:64 | A merge never raises a tile past one more than the largest input tile. |
| Tables.SlideLeftBounded | wasm-lib/src/tables.rs:29-33 | The slid tiles fit a u16, are at most 16, and are nibbles when no tile is 15. |
| Tables.SlideLeftMass | wasm-lib/src/tables.rs:45-79 | A left slide keeps the total face value: 2^e + 2^e becomes 2^(e+1). |
| Tables.MergeScoreZero | wasm-lib/src/tables.rs:61-69 | The pass scores 0 exactly when no two neighbours are equal, and then it keeps its input. |
| Tables.FullRowStays | wasm-lib/src/tables.rs:119-122 | A full row with no equal neighbours is unchanged and scores 0. |
| Tables.SlideScoreRev | wasm-lib/src/tables.rs:100-104 | Sliding the reversed row scores the same as sliding the row. |
| Tables.LeftScoreReverse | wasm-lib/src/tables.rs:100-104 | The table score of a reversed row is that of the row, so `move_right` may report it. |
| Tables.UnpackReverse | wasm-lib/src/tables.rs:96-98 | The tiles of a reversed row are the row's tiles in the opposite order. |
| Tables.Unpack | wasm-lib/src/tables.rs:20-24 | A row yields four nibble tiles. |
| Tables.PackTiles | wasm-lib/src/tables.rs:29-33 | The packing loop ORs tile i into nibble i. |
| Tables.UnpackPack | wasm-lib/src/tables.rs:20-33 | Packing the tiles of any row gives the row back. |
| Tables.PackUnpack | wasm-lib/src/tables.rs:20-33 | Unpacking the packed row of four nibble tiles gives the tiles back. |
| Tables.LeftRowTiles | wasm-lib/src/tables.rs:18-36 | When no tile is 15, the left-table entry of a row holds exactly the slid tiles. |
| Tables.LeftOfRow | wasm-lib/src/tables.rs:18-36 | One iteration of the fill loop computes the row's left move and score. |
| Tables.BuildLeftTable | wasm-lib/src/tables.rs:14-42 | Every entry j of the 65536-entry move table is the left move of row j. |
| Tables.BuildScoreTable | wasm-lib/src/tables.rs:14-42 | Every entry j of the score table is the left-move score of row j. |
| Tables.RowIndexed | wasm-lib/src/tables.rs:87-91 | A table filled for every index 0 .. 65535 answers every u16 row. |
| Tables.MoveTables.constructor | wasm-lib/src/tables.rs:14-42 | `MoveTables::new` leaves both tables valid for every row. |
| Tables.MoveTables.MoveLeft | wasm-lib/src/tables.rs:85-91 | The lookup is the left move of the row and its score. |
| Tables.MoveTables.MoveRight | wasm-lib/src/tables.rs:100-104 | The lookup is reverse, then left move, then reverse, with the score of the row's left move. |
| Tables.MoveLeftTests | wasm-lib/src/tables.rs:115-153 | The six cases of `test_move_left`, rows and scores. |
| Tables.MoveRightTests | wasm-lib/src/tables.rs:155-180 | The four cases of `test_move_right`, rows and scores. |
| Ai.MoveEachRow | wasm-lib/src/ai.rs:19-29 | The row loop, for any row lookup: each result row is the lookup of the same input row, and the scores add up. |
| Ai.RowsUpToRow | wasm-lib/src/ai.rs:19-29 | After n rows, row j of the accumulator is the moved row j when j < n, and 0 otherwise. |
| Ai.MoveLeft | wasm-lib/src/ai.rs:19-29 | `move_left` is the row-wise left move, scored by the sum of the row scores. |
| Ai.MovedLeftRow | wasm-lib/src/ai.rs:19-29 | Row i of a left move depends only on row i: it is that row's left move. |
| Ai.LeftMoveScoreSum | wasm-lib/src/ai.rs:19-29 | The score of a left move is the sum of the four row scores. |
| Ai.MoveRight | wasm-lib/src/ai.rs:31-35 | Right is reverse, then left, then reverse, with the left move's score. |
| Ai.MovedRightRow | wasm-lib/src/ai.rs:31-35 | Every row of a right move is that row's `tables::move_right`, even though `reverse` also reorders the rows. |
| Ai.RightMoveScoreIsLeft | wasm-lib/src/ai.rs:31-35 | A right move scores what a left move of the same board scores. |
| Ai.MoveUp | wasm-lib/src/ai.rs:37-41 | Up is transpose, then left, then transpose. |
| Ai.MovedUpColumn | wasm-lib/src/ai.rs:37-41 | Column c of an up move is the left move of column c. |
| Ai.MoveDown | wasm-lib/src/ai.rs:43-47 | Down is transpose, then right, then transpose. |
| Ai.MovedDownColumn | wasm-lib/src/ai.rs:43-47 | Column c of a down move is the right move of column c. |
| Ai.DownMoveScoreIsUp | wasm-lib/src/ai.rs:43-47 | A down move scores what an up move scores. |
| Ai.ExecuteMove | wasm-lib/src/ai.rs:9-17 | Codes 0, 1, 2, 3 are up, down, left, right; any other code returns (board, 0). |
| Ai.HorizontalLeftExample | wasm-lib/src/ai.rs:212-248 | `test_horizontal_moves`, left: [2,2,0,0] and [4,4,0,0] become [4,0,0,0] and [8,0,0,0], scoring 12. |
| Ai.HorizontalRightExample | wasm-lib/src/ai.rs:212-248 | `test_horizontal_moves`, right: the same rows become [0,0,0,4] and [0,0,0,8], scoring 12. |
| Ai.VerticalUpExample | wasm-lib/src/ai.rs:251-274 | `test_vertical_moves`: two columns move up into one row [4,8,0,0], scoring 12. |
| Ai.LeftMoveNotIdempotent | wasm-lib/src/tables.rs:143-146 | [0,2,2,4] moves to [4,4,0,0] and then to [8,0,0,0], so a move is not idempotent. |
| Heuristics.CalculateMetrics | wasm-lib/src/ai.rs:68-123 | The three sub-scores are the monotonicity, smoothness and largest exponent of the board's exponent grid. |
| Heuristics.MonotonicityLoop | wasm-lib/src/ai.rs:73-98 | The first loop nest accumulates the four totals step by step and returns the better column total plus the better row total. |
| Heuristics.SmoothnessLoop | wasm-lib/src/ai.rs:100-120 | The second loop nest returns the smoothness and the largest exponent. |
| Heuristics.StepTerms | wasm-lib/src/ai.rs:83-95 | A step adds a nonpositive amount to each total: 0 to the decreasing total exactly when it does not go down, and 0 to the increasing total exactly when it does not go up. |
| Heuristics.LinesDecZero | wasm-lib/src/ai.rs:73-98 | A decreasing total is at most 0, and 0 exactly when no line goes down. |
| Heuristics.LinesIncZero | wasm-lib/src/ai.rs:73-98 | An increasing total is at most 0, and 0 exactly when no line goes up. |
| Heuristics.MonotonicityZero | wasm-lib/src/ai.rs:73-98 | Monotonicity is at most 0, and it is 0 exactly when all columns run the same way and all rows run the same way. |
| Heuristics.SmoothnessZero | wasm-lib/src/ai.rs:100-120 | Smoothness is at most 0, and it is 0 exactly when every two adjacent nonzero tiles are equal. |
| Heuristics.MaxTileIsMax | wasm-lib/src/ai.rs:100-120 | The largest exponent is at least every tile, and it is one of the tiles. |
| Heuristics.EvaluateBoard | wasm-lib/src/ai.rs:57-65 | The value is 4.0·monotonicity + 0.1·smoothness + 2.7·ln_1p(empty) + 1.0·max tile. |
| Heuristics.EvaluationBound | wasm-lib/src/ai.rs:51-65 | The value is at most the empty-cell term plus the largest exponent, and equals it exactly when the board is monotone and smooth. |
| Search.FindEmptyCellMasks | wasm-lib/src/ai.rs:174-183 | The loop returns the shifts 4k of the zero nibbles. |
| Search.EmptyShiftsSpec | wasm-lib/src/ai.rs:174-183 | The shifts are exactly 4k for the empty cells k, each once and in ascending order, and there are `count_empty` of them. |
| Search.Expectimax | wasm-lib/src/ai.rs:130-172 | The recursion returns the value and the table of the reference search. |
| Search.PlayerMoves | wasm-lib/src/ai.rs:139-150 | The player loop searches each direction that moves the board as a chance node, tracking whether anything moved. |
| Search.ChanceTiles | wasm-lib/src/ai.rs:159-166 | The chance loop adds 0.9 times each child with a 2 and 0.1 times each child with a 4. |
| Search.SearchTable | wasm-lib/src/ai.rs:130-172 | The table only grows and no entry is overwritten. A board in the table is answered from it. Depth 0 returns the heuristic and stores nothing. Every value computed at depth > 0 is stored under its board. |
| Search.PlayerTable | wasm-lib/src/ai.rs:139-150 | The player loop only adds entries to the table. |
| Search.ChanceTable | wasm-lib/src/ai.rs:159-166 | The chance loop only adds entries to the table. |
| Search.SearchBlocked | wasm-lib/src/ai.rs:150 | A player node where no direction moves the board is worth 0.0, and that is stored. |
| Search.PlayerBlocked | wasm-lib/src/ai.rs:139-150 | When no direction moves the board, the loop finds nothing and leaves the table alone. |
| Search.SearchFullBoard | wasm-lib/src/ai.rs:155-157 | A chance node with no empty cell is the player node at the same depth. |
| Search.SearchInRange | wasm-lib/src/ai.rs:130-172 | When the heuristic and the table lie in an interval holding 0, so do the value and every stored value. |
| Search.AverageInRange | wasm-lib/src/ai.rs:167 | A total of n terms in [lo, hi], divided by n, lies in [lo, hi]. |
| Search.FindBestMove | wasm-lib/src/ai.rs:187-204 | The result is the root loop's choice, and it is below 4. |
| Search.FindBestMoveWith | wasm-lib/src/ai.rs:187-204 | The same, with the heuristic and the moves of ai.rs. |
| Search.RootChoice | wasm-lib/src/ai.rs:187-204 | A score exists exactly when some direction moves the board, and then the chosen direction moves it; otherwise the answer is 0. |
| Search.RootBest | wasm-lib/src/ai.rs:192-202 | The choice scores at least every moving direction and strictly more than every earlier moving one (strict `>`: the first best wins). |
| Bitboard.UnpackRow | wasm-lib/src/bitboard.rs:50-56 | Nibble i of the row becomes tile i. |
| Bitboard.SlideLeftRow | wasm-lib/src/bitboard.rs:68-99 | The single pass computes the same slide and score as `slide_and_merge` of tables.rs, on every row. |
| Bitboard.SlideMerge | wasm-lib/src/bitboard.rs:80-86 | A tile equal to the pending one is written as one tile one higher and scored, and nothing stays pending. |
| Bitboard.SlideWrite | wasm-lib/src/bitboard.rs:87-91 | A different tile writes out the pending one and waits in its place. |
| Bitboard.SlideEnd | wasm-lib/src/bitboard.rs:94-97 | At the end, the written tiles followed by the pending one are the reference merge pass. |
| Bitboard.PassComplete | wasm-lib/src/bitboard.rs:68-99 | The pass over the whole row gives the reference merge and its score. |
| Bitboard.CompactFromSuffix | wasm-lib/src/bitboard.rs:68-99 | The nonzero tiles from index i on are the compaction of the suffix. |
| Bitboard.ReverseTiles | wasm-lib/src/bitboard.rs:102-108 | Tile i becomes tile 3 - i. |
| Bitboard.ReverseRowPacked | wasm-lib/src/bitboard.rs:111-118 | The packed reversal is `reverse_row` of board.rs. |
| Bitboard.ReverseRowPackedTiles | wasm-lib/src/bitboard.rs:111-118 | Reversing the packed row is packing the reversed tiles. |
| Bitboard.TablesOfRow | wasm-lib/src/bitboard.rs:31-44 | One iteration of the fill loop writes the left slide, the right slide (reverse, slide, reverse) and the score of the row. |
| Bitboard.FillTables | wasm-lib/src/bitboard.rs:26-47 | After the fill loop, every index of the three tables holds its row's entries. |
| Bitboard.LeftByRow | wasm-lib/src/bitboard.rs:39-43 | The filled left table answers every row with its left move. |
| Bitboard.RightByRow | wasm-lib/src/bitboard.rs:39-43 | The filled right table answers every row with its right move. |
| Bitboard.ScoreByRow | wasm-lib/src/bitboard.rs:39-43 | The filled score table answers every row with its left-move score. |
| Bitboard.LookupRows | wasm-lib/src/bitboard.rs:155-182 | The row loop ORs each table entry in at its row and adds the score entries. |
| Bitboard.OrRowsAreSetRows4 | wasm-lib/src/bitboard.rs:155-167 | ORing the four rows into an empty board is writing them with `set_row`. |
| Bitboard.RightRowsAreMovedRight | wasm-lib/src/bitboard.rs:170-182 | A right move of each row in place is the right move of ai.rs, and the unreversed rows' score is its score. |
| Bitboard.BitboardTables.constructor | wasm-lib/src/bitboard.rs:18-23 | Before the first call the tables are zero and the flag is down. |
| Bitboard.BitboardTables.InitTables | wasm-lib/src/bitboard.rs:26-47 | With the flag down, fills all three tables and raises the flag; with the flag up, changes nothing. |
| Bitboard.BitboardTables.MoveLeftInternal | wasm-lib/src/bitboard.rs:155-167 | Initialises the tables on demand and returns the left move of ai.rs and its score. |
| Bitboard.BitboardTables.MoveRightInternal | wasm-lib/src/bitboard.rs:170-182 | Returns the right move of ai.rs. The reported score is the score-table entry of the unreversed row, which equals the right move's score. |
| Bitboard.BitboardTables.MoveBoard | wasm-lib/src/bitboard.rs:136-152 | Uses the direction codes of ai.rs and returns `execute_move`'s board and score; an invalid code gives (board, 0) and leaves the tables alone. |
| BitboardHeuristics.MaxTileBitboard | wasm-lib/src/bitboard.rs:300-309 | Returns the largest exponent: at least every nibble, and one of them. |
| BitboardHeuristics.SmoothnessBitboard | wasm-lib/src/bitboard.rs:224-248 | Returns the smoothness of ai.rs on the exponent grid. |
| BitboardHeuristics.NextNonzero | wasm-lib/src/bitboard.rs:259-262 | The inner `while` stops at the first nonzero tile from j on, or at 4, skipping only zeros. |
| BitboardHeuristics.WalkLine | wasm-lib/src/bitboard.rs:255-272 | The walk over one row accumulates the two totals of the reference walk. |
| BitboardHeuristics.MonotonicityBitboard | wasm-lib/src/bitboard.rs:250-296 | Rows go into totals 2 and 3, columns into totals 0 and 1. The result is the better row total plus the better column total. |
| BitboardHeuristics.WalkAscending | wasm-lib/src/bitboard.rs:255-272 | The decreasing total of a walk is at most 0, and 0 exactly when the nonzero tiles never go down. |
| BitboardHeuristics.WalkDescending | wasm-lib/src/bitboard.rs:255-272 | The increasing total of a walk is at most 0, and 0 exactly when the nonzero tiles never go up. |
| BitboardHeuristics.WalkMonotonicityZero | wasm-lib/src/bitboard.rs:250-296 | Monotonicity is at most 0, and it is 0 exactly when, ignoring empty cells, all columns run the same way and all rows run the same way. |
| BitboardHeuristics.EvaluateBitboard | wasm-lib/src/bitboard.rs:196-218 | The weighted sum 0.1·smoothness + 1.0·monotonicity + 2.7·bonus + 1.0·max tile, where the bonus is ln(empty) with 0 for a full board. |
| BitboardHeuristics.BitEvaluationBound | wasm-lib/src/bitboard.rs:196-218 | The value is at most the bonus term plus the largest exponent, and equals it exactly when the board is smooth and monotone. |
| BitboardSearch.FindEmptyCells | wasm-lib/src/bitboard.rs:383-390 | The loop returns the indices of the zero nibbles. |
| BitboardSearch.EmptyIndicesSpec | wasm-lib/src/bitboard.rs:383-390 | The indices are exactly the empty cells, each once and ascending, and there are `count_empty` of them. |
| BitboardSearch.EmptyIndicesShifts | wasm-lib/src/bitboard.rs:368-372 | The cell at index k is at the shift 4k that ai.rs uses for it. |
| BitboardSearch.BitExpectimax | wasm-lib/src/bitboard.rs:334-380 | The recursion returns the value and the table of the reference search. |
| BitboardSearch.BitPlayerMoves | wasm-lib/src/bitboard.rs:347-353 | The player loop takes `max_score.max(child)` over each moving direction, starting from -1.0. |
| BitboardSearch.BitChanceTiles | wasm-lib/src/bitboard.rs:365-374 | The chance loop adds 0.9 times each child with a 2 and 0.1 times each child with a 4. |
| BitboardSearch.ValueTable | wasm-lib/src/bitboard.rs:334-380 | The table only grows and no entry is overwritten. A board in the table is answered from it. Depth 0 stores and returns the heuristic. What a call returns is stored under its board. |
| BitboardSearch.PlayerBestIsMax | wasm-lib/src/bitboard.rs:347-353 | `max_score` is at least -1.0 and at least every moving child, and it is -1.0 or one of the children. |
| BitboardSearch.PlayerValue | wasm-lib/src/bitboard.rs:345-355 | A player node is worth its best moving child when some child is above -1.0. Otherwise, including when nothing moves, it is worth the heuristic of the board itself. |
| BitboardSearch.ValueFullBoard | wasm-lib/src/bitboard.rs:360-363 | A chance node with no empty cell is the player node at the same depth. |
| BitboardSearch.ValueInRange | wasm-lib/src/bitboard.rs:334-380 | When the heuristic and the table lie in [lo, hi], so do the value and every stored value. The interval need not hold 0 or -1.0. |
| BitboardSearch.ExpectimaxSearch | wasm-lib/src/bitboard.rs:315-332 | The result is the root loop's move and score, and the move is below 4. |
| BitboardSearch.ExpectimaxSearchWith | wasm-lib/src/bitboard.rs:315-332 | The same, with `evaluate_bitboard` and `move_board`. |
| BitboardSearch.RootSearchChoice | wasm-lib/src/bitboard.rs:315-332 | The score is at least -1.0 and at least each moving direction's score, each searched with a fresh table. Above -1.0, the move is the first moving direction with that score; at -1.0 the move is 0. |
| BitboardSearch.RootSearchNone | wasm-lib/src/bitboard.rs:315-332 | The root reports (0, -1.0) exactly when no moving direction scores above -1.0. |
| FaceRow.OperateRow | wasm-lib/src/lib.rs:16-38 | The push loop over the nonzero cells, plus the padding, computes the reference row operation and its score. |
| FaceRow.PadWithZeros | wasm-lib/src/lib.rs:34-36 | Pushes zeros until the row has four cells. |
| FaceRow.RunMerge | wasm-lib/src/lib.rs:22-29 | Two equal cells below the limit are pushed as one cell of twice the value, which is scored, and both are consumed. |
| FaceRow.RunCopy | wasm-lib/src/lib.rs:29-32 | Any other cell is pushed unchanged. |
| FaceRow.OperateRowSplice | ai-worker.js:33-49 | The splice loop, whose index moves past a merged cell, computes the same row and score as `operate_row`. The same loop is in dist/main.js and dist/ai-worker.js, and without a limit in script.js. |
| FaceRow.SpliceMerge | ai-worker.js:38-42 | Doubling a cell and splicing out its partner keeps the loop state, with the doubled value scored. |
| FaceRow.OperatedShape | wasm-lib/src/lib.rs:16-38 | A row comes out with four cells: the merged nonzero cells first, then zeros. The total face value is kept. |
| FaceRow.OperatedScoreNonNegative | wasm-lib/src/lib.rs:16-38 | On non-negative cells the score is non-negative. |
| FaceRow.MergedScoreAtMostSum | wasm-lib/src/lib.rs:20-32 | On non-negative cells the merge pass scores between 0 and the sum of its cells. |
| FaceRow.OperatedScoreBound | wasm-lib/src/lib.rs:16-38 | On non-negative cells a row's score is between 0 and the row's total face value. |
| FaceRow.MergedAtLimit | wasm-lib/src/lib.rs:22-23 | When no cell is below the limit, nothing merges and the score is 0. |
| FaceRow.NonZero | wasm-lib/src/lib.rs:17 | The filter keeps only nonzero cells and is never longer than the row. |
| FaceRow.Padded | wasm-lib/src/lib.rs:34-36 | The row followed by zeros up to length 4. |
| FaceRow.FaceMerged | wasm-lib/src/lib.rs:22-32 | On powers of two below the limit, the face-value pass is the exponent merge pass seen through 2^e, with the same score. |
| FaceRow.OperatedIsSlideLeft | wasm-lib/src/lib.rs:16-38 | On a row of powers of two below the limit, `operate_row` is `slide_and_merge` of tables.rs seen through 2^e: the same row and score. |
| FaceBoard.EmptyBoard | dist/main.js:69-71 | `initializeBoard` (also game.ts): a 4×4 board of zeros. |
| FaceBoard.TransposeBoard | wasm-lib/src/lib.rs:40-48 | The loop fills a zero board so that (r, c) moves to (c, r). |
| FaceBoard.Transposed | dist/main.js:20-22 | `transpose` of the JavaScript copies moves cell (r, c) to (c, r). |
| FaceBoard.TransposedTwice | wasm-lib/src/lib.rs:40-48 | Transposing twice gives the board back. |
| FaceBoard.ReversedTwice | wasm-lib/src/lib.rs:63-65 | Reversing a row twice gives it back. |
| FaceBoard.BoardJsToRust | wasm-lib/src/lib.rs:271-278 | The first 16 cells of the buffer become the board, row-major. |
| FaceBoard.ReshapeFlatten | wasm-lib/src/lib.rs:271-278 | Reshaping the flattened board gives it back. |
| FaceBoard.FlattenReshape | wasm-lib/src/lib.rs:82-86 | Flattening the reshaped buffer gives its first 16 cells. |
| FaceBoard.CountZerosCells | wasm-lib/src/lib.rs:268-270 | `get_empty_cells_count` of a 16-cell buffer is the number of empty cells of its board. |
| FaceBoard.GetEmptyCells | src/game/game.ts:55-65 | The nested loops list the empty cells in row-major order. The same loops are in ai-worker.js, script.js, dist/main.js and dist/ai-worker.js. |
| FaceBoard.EmptyCellsSpec | src/game/game.ts:55-65 | Each listed cell is in range and empty, every empty cell is listed, and the list strictly increases in row-major order, so each cell appears once. |
| FaceBoard.Placed | dist/main.js:59-68 | The copy holds v in the chosen cell and keeps every other cell. |
| FaceBoard.MoveRows | wasm-lib/src/lib.rs:56-80 | Transposes for codes 0 and 2 and reverses rows for codes 1 and 2. Each row is operated on and reversed back, then the board is transposed back; any other code acts as left. |
| FaceBoard.SimulateMove | wasm-lib/src/lib.rs:51-90 | `board_out` receives the whole moved board, and `board_in` is not written. The result is score·10 + moved, where `moved` compares the flattened result with the input. |
| FaceBoard.MovedOtherCode | wasm-lib/src/lib.rs:56-80 | Every code other than 0, 1 and 2 moves left, as 3 does. |
| FaceBoard.MovedRight | wasm-lib/src/lib.rs:61-79 | Right is mirror, then left, then mirror, with the same score. |
| FaceBoard.MovedUp | wasm-lib/src/lib.rs:57-80 | Up is transpose, then left, then transpose, with the same score. |
| FaceBoard.MovedDown | wasm-lib/src/lib.rs:56-80 | Down is transpose, then right, then transpose, with the same score. |
| FaceBoard.MovedSum | wasm-lib/src/lib.rs:51-90 | A move keeps the total face value of the board. |
| FaceBoard.MovedLeftIsSlideLeft | wasm-lib/src/lib.rs:66-77 | On a board of powers of two below the limit, the face-value left move is the exponent slide of tables.rs on every row, scoring the sum of the row scores. |
| FaceBoard.Code | src/game/game.ts:21-26 | The direction map is up 0, right 1, down 2, left 3, matching the codes of `simulate_move`. |
| FaceBoard.DecodeEncode | src/game/game.ts:35-36 | `floor(enc / 10)` and `enc % 10 === 1` invert score·10 + moved when the score is non-negative. |
| FaceBoard.DecodeNegative | src/game/game.ts:35-36 | With JavaScript's `%`, a negative score loses the flag: (-1, moved) encodes as -9 and decodes as (-1, false). |
| FaceBoard.MovedScoreBound | wasm-lib/src/lib.rs:51-90 | On a board of non-negative cells a move scores between 0 and the board's total face value. |
| FaceBoard.MovedFitsI32 | wasm-lib/src/lib.rs:16-90 | When every cell is in [0, 2^23], the score is at most 16·2^23 and `score * 10 + moved` is at most `i32::MAX`, so no `merged_val as i32` saturates and no `i32` operation overflows. |
| FaceBoard.MovedScoreDecodes | wasm-lib/src/lib.rs:88-90 | On a board of non-negative cells the score is non-negative, so the encoded result decodes to the score and the flag. |
| FaceBoard.SafeLimit | src/game/game.ts:30 | The limit passed on is always finite: `Number.MAX_SAFE_INTEGER` replaces an infinite limit. |
| FaceBoard.SafeLimitAgrees | src/game/game.ts:30 | Below 2^53 - 1, the substituted limit lets the same pairs merge as no limit. |
| FaceBoard.SimulateMoveTs | src/game/game.ts:13-48 | Gives the move of `simulate_move` with the substituted limit, with score and flag decoded from the encoded result. A board of fewer than 16 cells makes the call fail, which gives (currentBoard, 0, false). On a 4×4 board of non-negative cells the score is the move's score and the flag says whether the board changed. |
| FaceBoard.CutRows | src/game/game.ts:38-41 | Row k of the result is the output buffer's cells 4k .. 4k+3. |
| FaceBoard.TsDecoded | src/game/game.ts:38-43 | The rows cut from the output buffer are the moved board, and the buffers differ exactly when the boards do. |
| FaceBoard.SimulateMoveJs | ai-worker.js:55-83 | Copies the board, transposes for up and down, and reverses each row for right and down, so the input is never changed; `moved` holds exactly when the result differs from the input. The same function is in script.js, dist/main.js and dist/ai-worker.js. |
| FaceEvaluation.Log2OfFace | wasm-lib/src/lib.rs:261-267 | With an exact logarithm, `log2` of an empty cell is 0, and that of the tile 2^e is e. The same holds for `getLog2`. |
| FaceEvaluation.Log2Cache.GetLog2 | src/ai/evaluation.ts:7-14 | Returns 0 for 0 and log2 v otherwise. The cache keeps only logarithms of their keys, and gains at most the entry for v. |
| FaceEvaluation.CalculateSmoothness | src/ai/evaluation.ts:33-51 | The nested loop subtracts each distance to a nonzero right or lower neighbour. |
| FaceEvaluation.SmoothnessZero | src/ai/evaluation.ts:33-51 | Smoothness is at most 0, and it is 0 exactly when every two adjacent nonzero tiles have equal logarithms. |
| FaceEvaluation.SmoothnessAgrees | dist/ai-worker.js:78-94 | On powers of two with an exact logarithm, it is the integer smoothness of ai.rs on the exponents. |
| FaceEvaluation.PositiveLogs | src/ai/evaluation.ts:61-62 | Only positive logarithms are kept, in order. |
| FaceEvaluation.AddLineTotals | src/ai/evaluation.ts:63-69 | The inner loop adds one line's falls and rises to two totals and leaves the others alone. |
| FaceEvaluation.CalculateMonotonicity | src/ai/evaluation.ts:56-87 | Rows fill totals 2 and 3, columns totals 0 and 1. The result is the better column total plus the better row total. |
| FaceEvaluation.LineTotalsZero | src/ai/evaluation.ts:63-69 | A line adds no falls exactly when its logarithms ascend, and no rises exactly when they descend. |
| FaceEvaluation.MonotonicityZero | src/ai/evaluation.ts:56-87 | Monotonicity is at most 0, and it is 0 exactly when all rows and all columns are each ordered one way. |
| FaceEvaluation.MaxTile | src/ai/evaluation.ts:21 | `Math.max(...flat)` is at least every cell, and it is one of them. |
| FaceEvaluation.MaxTileInCorner | dist/ai-worker.js:122-125 | Asked with the largest tile, `isMaxTileInCorner` holds exactly when some corner is at least every cell. |
| FaceEvaluation.EvaluateBoard | src/ai/evaluation.ts:19-28 | Computes the weighted sum of smoothness, monotonicity, log2(empty + 1) and the corner bonus. |
| FaceEvaluation.MaxTileBonusBound | src/ai/evaluation.ts:25 | The corner bonus is between 0 and the largest tile. |
| FaceEvaluation.EvaluationBound | src/ai/evaluation.ts:19-28 | With nonnegative weights on the penalties and the bonus, and no negative cell, the value is at most the value with no smoothness or monotonicity penalty and the largest tile paid as the bonus. |
| FaceEvaluation.Rotated | src/ai/evaluation.ts:106-115 | Rotation moves entry (r, c) to (c, N-1-r). |
| FaceEvaluation.RotateMatrix | src/ai/evaluation.ts:106-115 | The loop fills a zero matrix with the rotation. The same function is in lib.rs, ai-worker.js and dist/ai-worker.js. |
| FaceEvaluation.RotatedTwice | dist/ai-worker.js:132-141 | Two rotations move (r, c) to (N-1-r, N-1-c). |
| FaceEvaluation.RotatedFourTimes | wasm-lib/src/lib.rs:135-143 | Four rotations give the matrix back. |
| FaceEvaluation.PatternCycle | src/ai/evaluation.ts:129-140 | After the four turns of the loop, the pattern is the snake pattern again. |
| FaceEvaluation.GetPatternScore | src/ai/evaluation.ts:117-127 | Only nonzero cells add their logarithm times the pattern weight. |
| FaceEvaluation.BestPattern | src/ai/evaluation.ts:129-140 | The best score is at least 0 and at least every rotation's score, and it is 0 or one of them. |
| FaceEvaluation.BestRotation | src/ai/evaluation.ts:133-136 | The loop returns the best of 0 and the four rotations' scores. |
| FaceEvaluation.EvaluatePattern | src/ai/evaluation.ts:129-140 | The value is the best pattern plus the empty-cell term, so it is never below the empty-cell term. |
| FaceEvaluation.EvaluateSnakePattern | src/ai/evaluation.ts:149-158 | The loop computes the fixed linear form Σ W[i][j]·board[i][j] with the single snake weights. |
| FaceEvaluation.WeightedSum | src/ai/evaluation.ts:151-156 | The double loop gives the sum of w[i][j]·g[i][j]. |
| FaceEvaluation.EvaluateSnakePatternFlat | wasm-lib/src/lib.rs:245-260 | `evaluate_snake_pattern` reads cell (i, j) at i·4 + j and gives the same form on the reshaped buffer. |
| FaceEvaluation.SnakeScoreAdditive | src/ai/evaluation.ts:149-158 | The snake score is linear: the score of a cellwise sum is the sum of the scores. |
| FaceEvaluation.SnakeScoreEmpty | src/ai/evaluation.ts:149-158 | The empty board scores 0. |
| FaceSearch.Mover | src/ai/ai-worker.ts:67 | The search's move is the board half of `simulateMove` with direction code `Code(d)`. |
| FaceSearch.Moves | src/ai/ai-worker.ts:65 | The four moves are tried in the order up, down, left, right, each once. |
| FaceSearch.Expectimax | src/ai/ai-worker.ts:51-97 | The recursion returns the value and the memo of the reference search. The same function is in dist/ai-worker.js and ai-worker.js. |
| FaceSearch.PlayerMoves | src/ai/ai-worker.ts:62-72 | The player loop searches each move that changes the board as a chance node. |
| FaceSearch.ChanceTiles | src/ai/ai-worker.ts:80-91 | The chance loop adds 0.9 times each child with a 2 and 0.1 times each child with a 4. |
| FaceSearch.ValueMemo | ai-worker.js:96-151 | The memo only grows and no entry is overwritten. A board in the memo is answered from it. Depth 0 returns the evaluation and stores nothing. Every other value is stored under its board, except a full board's chance node at depth 1. |
| FaceSearch.PlayerMemo | src/ai/ai-worker.ts:62-72 | The player loop only adds entries to the memo. |
| FaceSearch.ChanceMemo | src/ai/ai-worker.ts:80-91 | The chance loop only adds entries to the memo. |
| FaceSearch.ValueBlocked | dist/ai-worker.js:205-214 | A player node where no move changes the board is worth 0, and that is stored. |
| FaceSearch.PlayerBlocked | src/ai/ai-worker.ts:62-72 | When no move changes the board, the loop finds nothing and leaves the memo alone. |
| FaceSearch.ValueFullBoard | dist/ai-worker.js:215-218 | A chance node on a full board is the player node one level down; at depth 1 that is the evaluation, and nothing is stored. |
| FaceSearch.ValueInRange | src/ai/ai-worker.ts:51-97 | When the evaluation and the memo lie in an interval holding 0, so do the value and every stored value. |
| FaceSearch.ParseAlgorithmName | ai-worker.js:16-25 | A name is known exactly when it is `===` to one of the three algorithm names, and then it names that one. These are also the own keys of `evaluationFunctions` (src/ai/ai-worker.ts:13-26). |
| FaceSearch.LookupEvaluatorSpec | src/ai/ai-worker.ts:13-41 | Indexing `evaluationFunctions` finds the evaluator of an algorithm exactly for its name, a member inherited from `Object.prototype` exactly for the inherited keys (`toString`, `constructor`, `__proto__`, …), and nothing, which throws, for every other name. |
| FaceSearch.OnMessageJs | ai-worker.js:10-29 | The move is always posted. The score is defined exactly when the name is known, and then it is the search from a fresh memo, one level below `searchDepth`, at a chance node. |
| FaceSearch.OnMessageTs | src/ai/ai-worker.ts:31-46 | It throws "Unknown algorithm: " + name, before any search, exactly when the name is neither an algorithm nor an inherited key. An inherited key passes the check and gives the `Foreign` outcome. An algorithm's name posts the move and the search score. The same handler is in dist/ai-worker.js:185-194. |
| FaceSearch.PlainExpectimax | script.js:185-226 | The recursion, without a memo, returns the reference value of script.js's search. |
| FaceSearch.PlainMoves | script.js:190-201 | The player loop returns the best moving child, or nothing, which stands for `-Infinity`. |
| FaceSearch.PlainTiles | script.js:210-222 | The total is 0.9 times all the children with a 2, followed by 0.1 times all the children with a 4. |
| FaceSearch.PlainFullBoard | script.js:206-208 | A chance node on a full board is worth 0. |
| FaceSearch.PlainInRange | script.js:185-226 | When the evaluation lies in an interval holding 0, so does every value of the search. |
| FaceSearch.FindBestMove | script.js:159-176 | The result is the root loop's move and score. The root searches at the full `SEARCH_DEPTH`. |
| FaceSearch.ChoiceBest | script.js:159-176 | The result is "none" exactly when no move changes the board. Otherwise it is a moving move whose value is at least every moving move's, and strictly above every earlier one's. |
| FaceGame.Chosen | src/game/game.ts:75 | `Math.floor(random * n)` lies in [0, n) for random in [0, 1). |
| FaceGame.AddRandomTileTwo | dist/main.js:59-68 | A full board is returned unchanged. Otherwise the chosen empty cell gets a 2 and no other cell changes, leaving one empty cell fewer. |
| FaceGame.AddRandomTile | src/game/game.ts:72-82 | The same, with a 2 when the second random number is below 0.9 and a 4 otherwise. |
| FaceGame.PlacedEmpty | src/game/game.ts:75-78 | The k-th listed empty cell is empty and in range, and a nonzero tile there removes exactly one empty cell. |
| FaceGame.AllEmpty | src/game/game.ts:88-90 | A board of zeros, which `initializeBoard` returns, has 16 empty cells. |
| FaceGame.GameState.constructor | dist/main.js:74-87 | The initial state has an empty board, score 0, no AI running, no interval, depth 5 and the default weights. |
| FaceGame.GameState.ResetState | dist/main.js:88-91 | `resetState` gives a new empty board and score 0, and leaves every other field as it was. |

## Left out

- Floating point. Heuristic values are `real`, so f32/f64 rounding, NaN, infinities and -0 are not
  modelled. f64's `ln_1p`, f32's `ln` and `Math.log2` are function parameters. Properties that need
  the logarithm to be exact on powers of two say so in their hypotheses.
- f32 and f64 numbers on boards. Face values are integers, so the `v == 0.0` tests, the truthiness
  of `row.filter(val => val)` and `=== 0` are all "equals 0".
- `log2Cache`'s truthiness. `if (!log2Cache[val])` recomputes the cached 0 of the value 1; that
  does not change the returned value.
- Randomness. The two `Math.random()` results of `addRandomTile` are parameters in [0, 1).
- Memo and table keys. `toString()` and `JSON.stringify` keys, the `u64` key of the `HashMap`, and
  the memo or table itself are all modelled as a map keyed by the board, passed in and returned
  as a value. The two string forms are equal exactly when the boards are equal, for boards of
  integers.
- `from_js` on values that are not powers of two. It truncates a float `log2`, and that is modelled
  by the conversion `Board.Exponent`. Exponents of 16 or more spill into the next nibble; the
  tile lemmas assume every exponent fits.
- Merging two exponent-15 tiles gives 16, which does not fit a nibble. The table lemmas assume no
  tile of 15 where they need the result to be nibbles (`Tables.LeftRowTiles`).
- The u32 subtraction `depth - 1`. `Search.FindBestMove`, `BitboardSearch.ExpectimaxSearch` and
  the worker handlers require a search depth of at least 1; at depth 0 the Rust code would
  underflow.
- `MoveTables::new` fills both tables in one loop. The model fills them in two passes
  (`Tables.BuildLeftTable`, `Tables.BuildScoreTable`) with the same entries.
- Ai uses the move table of tables.rs as the pure function `LeftRow`/`LeftScore` of the row. The
  `Lazy` static `TABLES` and the thread safety of `static mut` are not modelled.
- bitboard.rs's `transpose` and `count_empty` are the same loops as those of board.rs, so the model
  uses `Board.Transpose` and `Board.CountEmpty`.
- bitboard.rs's `pack_row` is the packing loop `Tables.PackTiles`, and `get_tile` is `Board.Tile`.
- The search of bitboard.rs is stated with ai.rs's `Move` as `move_board`.
  `Bitboard.BitboardTables.MoveBoard` proves that the two are the same.
- `test_find_best_move_simple` (wasm-lib/src/ai.rs:279-291) needs the float heuristic run three
  levels deep, so it is not restated.
- The float evaluators `evaluate_board`, `evaluate_pattern` and `get_pattern_score` of lib.rs. On
  boards of non-negative cells they are the algorithms of evaluation.ts with `f64` arithmetic,
  modelled once as `FaceEvaluation.EvaluateBoard`, `FaceEvaluation.EvaluatePattern` and
  `FaceEvaluation.GetPatternScore`. `evaluate_board` takes its largest tile as
  `fold(0.0, f64::max)` (wasm-lib/src/lib.rs:156), which is 0 on a board with no positive cell,
  where `Math.max(...flat)` (src/ai/evaluation.ts:21) is the largest, negative, cell. The `Math.pow(4, w)` snake weights are exact powers of 4.
- The heuristic closures of src/ai/ai-worker.ts call those lib.rs functions through WASM. The model
  uses the evaluation.ts versions, `FaceSearch.Evaluator`.
- ai-worker.js copies. Its heuristics are the evaluation.ts algorithms with global
  weights, and its `evaluatePattern` calls `Math.log2` directly rather than `getLog2`; with an exact
  logarithm both give the same value.
- script.js's `evaluateBoard` and its helpers are the search's `eval` parameter.
- UI, DOM, timers, workers and WASM glue, including:
  - `runAI` and the message posting;
  - the auto-play interval;
  - the `await wasmReady` of the worker;
  - `console.error`.

  The `catch` of game.ts is modelled only for a board too short for `simulate_move`.
- FaceSearch.OnMessageTs: a name inherited from `Object.prototype` passes the lookup check at
  src/ai/ai-worker.ts:37-41. The model returns `Foreign` for it and does not model the search run
  with that member as the heuristic.
- FaceSearch.OnMessageTs: the player loop of the TypeScript worker tests game.ts's decoded moved
  flag, while the model tests whether the board changed. The two agree when the move's score is
  non-negative, which holds on boards of non-negative cells (`FaceBoard.SimulateMoveTs`,
  `FaceBoard.MovedScoreDecodes`). On boards with negative cells they can differ.
- FaceRow.OperateRow, FaceBoard.SimulateMove, FaceBoard.SimulateMoveTs: scores are unbounded
  integers. lib.rs saturates `merged_val as i32` (wasm-lib/src/lib.rs:26) and computes
  `score * 10 + moved_flag` in `i32` (wasm-lib/src/lib.rs:89), which wraps in a release build.
  `FaceBoard.MovedFitsI32` shows that neither happens when every cell is in [0, 2^23]; above that
  bound the model's score is not the one the source returns.
- FaceEvaluation.RotateMatrix: stated only for square matrices, as the snake patterns are.
- FaceBoard.SimulateMove: requires the direction to fit a `u8`, as the WASM signature does. It also
  requires the two buffers to be distinct objects, as Rust's borrow rules guarantee.

## Notes on the source

- `reverse` of board.rs is a 180-degree rotation, not a mirror: row i goes to row 3 - i with its
  nibbles reversed (`Board.ReversedTile`). `ai.rs` still gets right moves right, because each
  row's right move is independent of where the row sits (`Ai.MovedRightRow`).
- In bitboard.rs, -1.0 stands both for "no move" and for a real value:
  - A player node whose moving children all score at most -1.0 is valued by its own heuristic, not
    by its best child (`BitboardSearch.PlayerValue`). The comment at
    wasm-lib/src/bitboard.rs:354 intends this only for a board with no legal move.
  - `expectimax_search` reports (0, -1.0) in the same situation, even when direction 0 does not
    move the board (`BitboardSearch.RootSearchNone`).
- The encoding `score * 10 + moved` is inverted by game.ts only for non-negative scores
  (`FaceBoard.DecodeNegative`). Scores of boards with non-negative cells are never negative
  (`FaceBoard.MovedScoreDecodes`).
- The chance node of ai.rs and bitboard.rs on a full board recurses as a player node at the same
  depth. The JavaScript and TypeScript workers recurse at depth - 1, and script.js returns 0.
