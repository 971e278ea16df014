/**
 * The expectimax searches over boards of face values: the memoised `expectimax` of ai-worker.js,
 * src/ai/ai-worker.ts and its bundle dist/ai-worker.js, the unknown-algorithm check of the two worker
 * entry points, and the memo-free `expectimax` and `findBestMove` of script.js.
 *
 * The memo, a `Map` keyed by the board's string (ai-worker.js) or JSON (TypeScript) form, is a
 * `map<Grid, real>` passed in and handed back; both forms name a 4x4 board exactly, so the board is
 * the key. The evaluation function and the move are parameters, as in the module Search; `Mover`
 * and `Evaluator` are the ones the workers use.
 */
module FaceSearch {
  import opened FaceRow
  import opened FaceBoard
  import opened FaceEvaluation
  import Search

  type Memo = map<Grid, real>

  /** `["up", "down", "left", "right"]`, the order in which every player loop tries the moves. */
  function Moves(): (m: seq<Direction>)
    ensures |m| == 4 && forall i, j | 0 <= i < j < 4 :: m[i] != m[j]
  {
    [Up, Down, Left, Right]
  }

  /** A move that takes boards to boards. */
  ghost predicate Keeps(move: (Grid, Direction) -> Grid)
  {
    forall g: Grid, d: Direction | IsBoard(g) :: IsBoard(move(g, d))
  }

  /** The board half of `simulateMove` with merge limit `limit`. */
  function Mover(limit: Limit): (move: (Grid, Direction) -> Grid)
    ensures Keeps(move)
    ensures forall g: Grid, d: Direction | IsBoard(g) :: move(g, d) == Moved(g, Code(d), limit).0
  {
    (g: Grid, d: Direction) => if IsBoard(g) then Moved(g, Code(d), limit).0 else g
  }

  /** The board with a tile v in the k-th empty cell. */
  function Spawned(board: Grid, k: int, v: int): (h: Grid)
    requires IsBoard(board) && 0 <= k < |EmptyCells(board)|
    ensures IsBoard(h)
  {
    EmptyCellInRange(board, k);
    var cell := EmptyCells(board)[k];
    board[cell.r := board[cell.r][cell.c := v]]
  }

  lemma EmptyCellInRange(board: Grid, k: int)
    requires IsBoard(board) && 0 <= k < |EmptyCells(board)|
    ensures 0 <= EmptyCells(board)[k].r < 4 && 0 <= EmptyCells(board)[k].c < 4
  {
    EmptyCellsSpec(board);
  }

  // ---------------------------------------------------------------- the memoised expectimax

  /**
   * The value of `expectimax(board, depth, isPlayer, memo, eval)` and the memo it leaves. The memo is
   * probed before anything else; depth 0 is the evaluation, not stored; a player node takes the best
   * child that moved (0 when none did); a chance node with no empty cell is the player node one level
   * down, returned without storing; otherwise it averages 0.9 times the child with a 2 and 0.1 times
   * the child with a 4 over the empty cells, and stores that under the board.
   */
  function Value(board: Grid, depth: nat, isPlayer: bool, memo: Memo, eval: Grid -> real, move: (Grid, Direction) -> Grid): (real, Memo)
    requires IsBoard(board) && Keeps(move)
    decreases depth, 1, 0
  {
    if board in memo then (memo[board], memo)
    else if depth == 0 then (eval(board), memo)
    else if isPlayer then
      var state := PlayerUpTo(board, depth, 4, memo, eval, move);
      var score := if !state.moved then 0.0 else state.best;
      (score, state.memo[board := score])
    else if |EmptyCells(board)| == 0 then Value(board, depth - 1, true, memo, eval, move)
    else
      var n := |EmptyCells(board)|;
      var (total, t) := ChanceUpTo(board, depth, n, memo, eval, move);
      var score := total / n as real;
      (score, t[board := score])
  }

  /** What the player loop has after the first n moves: whether any moved, the best child so far, the memo. */
  datatype PlayerState = PlayerState(moved: bool, best: real, memo: Memo)

  /** The player loop over the first n moves; `best` stands for `-Infinity` while nothing moved. */
  function PlayerUpTo(board: Grid, depth: nat, n: nat, memo: Memo, eval: Grid -> real, move: (Grid, Direction) -> Grid): PlayerState
    requires IsBoard(board) && Keeps(move) && 1 <= depth && n <= 4
    decreases depth, 0, n
  {
    if n == 0 then PlayerState(false, 0.0, memo)
    else
      var state := PlayerUpTo(board, depth, n - 1, memo, eval, move);
      var newBoard := move(board, Moves()[n - 1]);
      if newBoard != board then
        var (v, t) := Value(newBoard, depth - 1, false, state.memo, eval, move);
        PlayerState(true, if state.moved then Search.MaxReal(state.best, v) else v, t)
      else state
  }

  /** The chance loop over the first n empty cells: the weighted total and the memo. */
  function ChanceUpTo(board: Grid, depth: nat, n: nat, memo: Memo, eval: Grid -> real, move: (Grid, Direction) -> Grid): (real, Memo)
    requires IsBoard(board) && Keeps(move) && 1 <= depth && n <= |EmptyCells(board)|
    decreases depth, 0, n
  {
    if n == 0 then (0.0, memo)
    else
      var (total, t) := ChanceUpTo(board, depth, n - 1, memo, eval, move);
      var (v2, t2) := Value(Spawned(board, n - 1, 2), depth - 1, true, t, eval, move);
      var (v4, t4) := Value(Spawned(board, n - 1, 4), depth - 1, true, t2, eval, move);
      (total + 0.9 * v2 + 0.1 * v4, t4)
  }

  /** `expectimax` of the workers, recursing as the source does, with the memo passed in and handed back. */
  method Expectimax(currentBoard: Grid, depth: nat, isPlayerTurn: bool, memo: Memo, eval: Grid -> real, move: (Grid, Direction) -> Grid)
    returns (score: real, newMemo: Memo)
    requires IsBoard(currentBoard) && Keeps(move)
    ensures (score, newMemo) == Value(currentBoard, depth, isPlayerTurn, memo, eval, move)
    decreases depth, 1, 0
  {
    if currentBoard in memo {
      return memo[currentBoard], memo;
    }
    if depth == 0 {
      return eval(currentBoard), memo;
    }
    if isPlayerTurn {
      var moved, maxScore;
      moved, maxScore, newMemo := PlayerMoves(currentBoard, depth, memo, eval, move);
      score := if !moved then 0.0 else maxScore;
    } else {
      var emptyCells := GetEmptyCells(currentBoard);
      if |emptyCells| == 0 {
        score, newMemo := Expectimax(currentBoard, depth - 1, true, memo, eval, move);
        return;
      }
      var totalScore;
      totalScore, newMemo := ChanceTiles(currentBoard, depth, emptyCells, memo, eval, move);
      score := totalScore / |emptyCells| as real;
    }
    newMemo := newMemo[currentBoard := score];
  }

  /** The player loop of `expectimax`: every move that changes the board is searched as a chance node. */
  method PlayerMoves(currentBoard: Grid, depth: nat, memo: Memo, eval: Grid -> real, move: (Grid, Direction) -> Grid)
    returns (moved: bool, maxScore: real, newMemo: Memo)
    requires IsBoard(currentBoard) && Keeps(move) && 1 <= depth
    ensures PlayerState(moved, maxScore, newMemo) == PlayerUpTo(currentBoard, depth, 4, memo, eval, move)
    decreases depth, 0, 4
  {
    maxScore := 0.0;  // stands for -Infinity while `moved` is false
    moved := false;
    newMemo := memo;
    var moves := Moves();
    for i := 0 to 4
      invariant PlayerState(moved, maxScore, newMemo) == PlayerUpTo(currentBoard, depth, i, memo, eval, move)
    {
      var board := move(currentBoard, moves[i]);
      if board != currentBoard {
        var v;
        v, newMemo := Expectimax(board, depth - 1, false, newMemo, eval, move);
        maxScore := if moved then Search.MaxReal(maxScore, v) else v;
        moved := true;
      }
    }
  }

  /** The chance loop of `expectimax`: a copy with a 2 (weight 0.9) and one with a 4 (weight 0.1) in every empty cell. */
  method ChanceTiles(currentBoard: Grid, depth: nat, emptyCells: seq<Cell>, memo: Memo, eval: Grid -> real, move: (Grid, Direction) -> Grid)
    returns (totalScore: real, newMemo: Memo)
    requires IsBoard(currentBoard) && Keeps(move) && 1 <= depth && emptyCells == EmptyCells(currentBoard)
    ensures (totalScore, newMemo) == ChanceUpTo(currentBoard, depth, |emptyCells|, memo, eval, move)
    decreases depth, 0, |emptyCells|
  {
    totalScore := 0.0;
    newMemo := memo;
    for j := 0 to |emptyCells|
      invariant (totalScore, newMemo) == ChanceUpTo(currentBoard, depth, j, memo, eval, move)
    {
      var boardWith2 := Spawned(currentBoard, j, 2);
      var v2;
      v2, newMemo := Expectimax(boardWith2, depth - 1, true, newMemo, eval, move);
      totalScore := totalScore + 0.9 * v2;
      var boardWith4 := Spawned(currentBoard, j, 4);
      var v4;
      v4, newMemo := Expectimax(boardWith4, depth - 1, true, newMemo, eval, move);
      totalScore := totalScore + 0.1 * v4;
    }
  }

  // ---------------------------------------------------------------- properties of the memoised search

  /** Every entry of `m` is in `m'` with the same value. */
  predicate Extends(m': Memo, m: Memo)
  {
    forall k | k in m :: k in m' && m'[k] == m[k]
  }

  /**
   * The memo only grows and no entry is overwritten; a board found in the memo is answered from it
   * and leaves the memo as it was; at depth 0 the evaluation is returned and nothing is stored; every
   * other value is stored under its board, except that of a chance node on a full board at depth 1,
   * which is the evaluation of the same board one level down.
   */
  lemma {:induction false} ValueMemo(board: Grid, depth: nat, isPlayer: bool, memo: Memo, eval: Grid -> real, move: (Grid, Direction) -> Grid)
    requires IsBoard(board) && Keeps(move)
    ensures Extends(Value(board, depth, isPlayer, memo, eval, move).1, memo)
    ensures board in memo ==> Value(board, depth, isPlayer, memo, eval, move) == (memo[board], memo)
    ensures board !in memo && depth == 0 ==> Value(board, depth, isPlayer, memo, eval, move) == (eval(board), memo)
    ensures board !in memo && depth > 0 && (isPlayer || |EmptyCells(board)| > 0 || depth > 1) ==>
      var (score, t) := Value(board, depth, isPlayer, memo, eval, move);
      board in t && t[board] == score
    decreases depth, 1, 0
  {
    if board in memo || depth == 0 {
    } else if isPlayer {
      var state := PlayerUpTo(board, depth, 4, memo, eval, move);
      PlayerMemo(board, depth, 4, memo, eval, move);
      var score := if !state.moved then 0.0 else state.best;
      assert Value(board, depth, isPlayer, memo, eval, move) == (score, state.memo[board := score]);
    } else if |EmptyCells(board)| == 0 {
      ValueMemo(board, depth - 1, true, memo, eval, move);
    } else {
      var n := |EmptyCells(board)|;
      var (total, t) := ChanceUpTo(board, depth, n, memo, eval, move);
      ChanceMemo(board, depth, n, memo, eval, move);
      var score := total / n as real;
      assert Value(board, depth, isPlayer, memo, eval, move) == (score, t[board := score]);
    }
  }

  lemma {:induction false} PlayerMemo(board: Grid, depth: nat, n: nat, memo: Memo, eval: Grid -> real, move: (Grid, Direction) -> Grid)
    requires IsBoard(board) && Keeps(move) && 1 <= depth && n <= 4
    ensures Extends(PlayerUpTo(board, depth, n, memo, eval, move).memo, memo)
    decreases depth, 0, n
  {
    if n > 0 {
      var state := PlayerUpTo(board, depth, n - 1, memo, eval, move);
      PlayerMemo(board, depth, n - 1, memo, eval, move);
      var newBoard := move(board, Moves()[n - 1]);
      if newBoard != board {
        ValueMemo(newBoard, depth - 1, false, state.memo, eval, move);
      }
    }
  }

  lemma {:induction false} ChanceMemo(board: Grid, depth: nat, n: nat, memo: Memo, eval: Grid -> real, move: (Grid, Direction) -> Grid)
    requires IsBoard(board) && Keeps(move) && 1 <= depth && n <= |EmptyCells(board)|
    ensures Extends(ChanceUpTo(board, depth, n, memo, eval, move).1, memo)
    decreases depth, 0, n
  {
    if n > 0 {
      var (total, t) := ChanceUpTo(board, depth, n - 1, memo, eval, move);
      ChanceMemo(board, depth, n - 1, memo, eval, move);
      var (v2, t2) := Value(Spawned(board, n - 1, 2), depth - 1, true, t, eval, move);
      ValueMemo(Spawned(board, n - 1, 2), depth - 1, true, t, eval, move);
      ValueMemo(Spawned(board, n - 1, 4), depth - 1, true, t2, eval, move);
    }
  }

  /** When no move changes the board, the player loop finds nothing and leaves the memo alone. */
  lemma {:induction false} PlayerBlocked(board: Grid, depth: nat, n: nat, memo: Memo, eval: Grid -> real, move: (Grid, Direction) -> Grid)
    requires IsBoard(board) && Keeps(move) && 1 <= depth && n <= 4
    requires forall d: Direction :: move(board, d) == board
    ensures PlayerUpTo(board, depth, n, memo, eval, move) == PlayerState(false, 0.0, memo)
  {
    if n > 0 {
      PlayerBlocked(board, depth, n - 1, memo, eval, move);
    }
  }

  /** A player node where no move changes the board is worth 0, and that is stored. */
  lemma ValueBlocked(board: Grid, depth: nat, memo: Memo, eval: Grid -> real, move: (Grid, Direction) -> Grid)
    requires IsBoard(board) && Keeps(move) && board !in memo && 1 <= depth
    requires forall d: Direction :: move(board, d) == board
    ensures Value(board, depth, true, memo, eval, move) == (0.0, memo[board := 0.0])
  {
    PlayerBlocked(board, depth, 4, memo, eval, move);
  }

  /**
   * A chance node on a board with no zero cell is the player node one level down on the same board;
   * at depth 1 that is the evaluation of the board, and nothing is stored.
   */
  lemma ValueFullBoard(board: Grid, depth: nat, memo: Memo, eval: Grid -> real, move: (Grid, Direction) -> Grid)
    requires IsBoard(board) && Keeps(move) && board !in memo && 1 <= depth
    requires forall r, c | 0 <= r < 4 && 0 <= c < 4 :: board[r][c] != 0
    ensures Value(board, depth, false, memo, eval, move) == Value(board, depth - 1, true, memo, eval, move)
    ensures depth == 1 ==> Value(board, depth, false, memo, eval, move) == (eval(board), memo)
  {
    EmptyCellsSpec(board);
  }

  /** Every value of the memo lies in [lo, hi]. */
  predicate InRange(m: Memo, lo: real, hi: real)
  {
    forall k | k in m :: lo <= m[k] <= hi
  }

  /** The evaluation lies in [lo, hi] on every board. */
  ghost predicate EvalInRange(eval: Grid -> real, lo: real, hi: real)
  {
    forall b: Grid | IsBoard(b) :: lo <= eval(b) <= hi
  }

  /**
   * When the evaluation and every stored value lie in an interval holding 0, so do the value of the
   * search and every value it stores: a node is a maximum of children, 0, the evaluation, a stored
   * value, or an average of children weighted 0.9 and 0.1.
   */
  lemma {:induction false} ValueInRange(board: Grid, depth: nat, isPlayer: bool, memo: Memo, eval: Grid -> real, move: (Grid, Direction) -> Grid, lo: real, hi: real)
    requires IsBoard(board) && Keeps(move)
    requires lo <= 0.0 <= hi && EvalInRange(eval, lo, hi) && InRange(memo, lo, hi)
    ensures lo <= Value(board, depth, isPlayer, memo, eval, move).0 <= hi
    ensures InRange(Value(board, depth, isPlayer, memo, eval, move).1, lo, hi)
    decreases depth, 1, 0
  {
    if board in memo || depth == 0 {
    } else if isPlayer {
      PlayerNodeInRange(board, depth, memo, eval, move, lo, hi);
    } else if |EmptyCells(board)| == 0 {
      ValueInRange(board, depth - 1, true, memo, eval, move, lo, hi);
    } else {
      ChanceNodeInRange(board, depth, memo, eval, move, lo, hi);
    }
  }

  lemma PlayerNodeInRange(board: Grid, depth: nat, memo: Memo, eval: Grid -> real, move: (Grid, Direction) -> Grid, lo: real, hi: real)
    requires IsBoard(board) && Keeps(move) && board !in memo && 1 <= depth
    requires lo <= 0.0 <= hi && EvalInRange(eval, lo, hi) && InRange(memo, lo, hi)
    ensures var (score, t) := Value(board, depth, true, memo, eval, move);
      lo <= score <= hi && InRange(t, lo, hi)
    decreases depth, 0, 5
  {
    var state := PlayerUpTo(board, depth, 4, memo, eval, move);
    PlayerInRange(board, depth, 4, memo, eval, move, lo, hi);
    var score := if !state.moved then 0.0 else state.best;
    assert Value(board, depth, true, memo, eval, move) == (score, state.memo[board := score]);
  }

  lemma ChanceNodeInRange(board: Grid, depth: nat, memo: Memo, eval: Grid -> real, move: (Grid, Direction) -> Grid, lo: real, hi: real)
    requires IsBoard(board) && Keeps(move) && board !in memo && 1 <= depth && |EmptyCells(board)| > 0
    requires lo <= 0.0 <= hi && EvalInRange(eval, lo, hi) && InRange(memo, lo, hi)
    ensures var (score, t) := Value(board, depth, false, memo, eval, move);
      lo <= score <= hi && InRange(t, lo, hi)
    decreases depth, 0, |EmptyCells(board)| + 1
  {
    var n := |EmptyCells(board)|;
    ChanceInRange(board, depth, n, memo, eval, move, lo, hi);
    var (total, t) := ChanceUpTo(board, depth, n, memo, eval, move);
    Search.AverageInRange(total, n, lo, hi);
    var score := total / n as real;
    assert Value(board, depth, false, memo, eval, move) == (score, t[board := score]);
  }

  lemma {:induction false} PlayerInRange(board: Grid, depth: nat, n: nat, memo: Memo, eval: Grid -> real, move: (Grid, Direction) -> Grid, lo: real, hi: real)
    requires IsBoard(board) && Keeps(move) && 1 <= depth && n <= 4
    requires lo <= 0.0 <= hi && EvalInRange(eval, lo, hi) && InRange(memo, lo, hi)
    ensures var state := PlayerUpTo(board, depth, n, memo, eval, move);
      (state.moved ==> lo <= state.best <= hi) && InRange(state.memo, lo, hi)
    decreases depth, 0, n
  {
    if n > 0 {
      var state := PlayerUpTo(board, depth, n - 1, memo, eval, move);
      PlayerInRange(board, depth, n - 1, memo, eval, move, lo, hi);
      var newBoard := move(board, Moves()[n - 1]);
      if newBoard != board {
        ValueInRange(newBoard, depth - 1, false, state.memo, eval, move, lo, hi);
      }
    }
  }

  lemma {:induction false} ChanceInRange(board: Grid, depth: nat, n: nat, memo: Memo, eval: Grid -> real, move: (Grid, Direction) -> Grid, lo: real, hi: real)
    requires IsBoard(board) && Keeps(move) && 1 <= depth && n <= |EmptyCells(board)|
    requires lo <= 0.0 <= hi && EvalInRange(eval, lo, hi) && InRange(memo, lo, hi)
    ensures var (total, t) := ChanceUpTo(board, depth, n, memo, eval, move);
      Search.Times(n, lo) <= total <= Search.Times(n, hi) && InRange(t, lo, hi)
    decreases depth, 0, n
  {
    if n > 0 {
      var (total, t) := ChanceUpTo(board, depth, n - 1, memo, eval, move);
      ChanceInRange(board, depth, n - 1, memo, eval, move, lo, hi);
      var (v2, t2) := Value(Spawned(board, n - 1, 2), depth - 1, true, t, eval, move);
      ValueInRange(Spawned(board, n - 1, 2), depth - 1, true, t, eval, move, lo, hi);
      var (v4, t4) := Value(Spawned(board, n - 1, 4), depth - 1, true, t2, eval, move);
      ValueInRange(Spawned(board, n - 1, 4), depth - 1, true, t2, eval, move, lo, hi);
      Search.WeightedStep(total, n, v2, v4, lo, hi);
    }
  }

  // ---------------------------------------------------------------- the worker entry points

  /** The evaluation functions a message can name. */
  datatype Algorithm = HeuristicAlgorithm | PatternAlgorithm | SnakeAlgorithm

  function AlgorithmName(a: Algorithm): string
  {
    match a
    case HeuristicAlgorithm => "heuristic"
    case PatternAlgorithm => "pattern"
    case SnakeAlgorithm => "snake"
  }

  /** The lookup `evaluationFunctions[algorithm]` (or the `if` chain of ai-worker.js); None for any other name. */
  function ParseAlgorithm(name: string): Search.Option<Algorithm>
  {
    if name == "heuristic" then Search.Some(HeuristicAlgorithm)
    else if name == "pattern" then Search.Some(PatternAlgorithm)
    else if name == "snake" then Search.Some(SnakeAlgorithm)
    else Search.None
  }

  /** A name is known exactly when it is the name of an algorithm, and then it names that one. */
  lemma ParseAlgorithmName(name: string, a: Algorithm)
    ensures ParseAlgorithm(name) == Search.Some(a) <==> name == AlgorithmName(a)
  {
  }

  /**
   * The keys an object literal inherits from `Object.prototype`. Indexing `evaluationFunctions` with
   * one of them finds a truthy value: a function, or the prototype object itself for `__proto__`.
   */
  function InheritedKeys(): set<string>
  {
    {"constructor", "__defineGetter__", "__defineSetter__", "hasOwnProperty", "__lookupGetter__",
     "__lookupSetter__", "isPrototypeOf", "propertyIsEnumerable", "toString", "valueOf",
     "__proto__", "toLocaleString"}
  }

  /** What `evaluationFunctions[algorithm]` finds: one of its own three evaluators, an inherited member, or `undefined`. */
  datatype Lookup = Own(algorithm: Algorithm) | Inherited(key: string) | Absent

  /** The lookup of src/ai/ai-worker.ts and dist/ai-worker.js: own keys first, then `Object.prototype`. */
  function LookupEvaluator(name: string): Lookup
  {
    match ParseAlgorithm(name)
    case Some(a) => Own(a)
    case None => if name in InheritedKeys() then Inherited(name) else Absent
  }

  /**
   * The lookup finds the evaluator of a exactly for a's name, an inherited member exactly for an
   * inherited key, and nothing for every other name; no name of an algorithm is an inherited key.
   */
  lemma LookupEvaluatorSpec(name: string, a: Algorithm)
    ensures LookupEvaluator(name) == Own(a) <==> name == AlgorithmName(a)
    ensures LookupEvaluator(name).Inherited? <==> name in InheritedKeys()
    ensures LookupEvaluator(name).Absent? <==> ParseAlgorithm(name).None? && name !in InheritedKeys()
  {
    ParseAlgorithmName(name, a);
    if name in InheritedKeys() {
      assert ParseAlgorithm(name).None?;
    }
  }

  /** The evaluation function of each algorithm: `evaluateBoard`, `evaluatePattern`, `evaluateSnakePattern`. */
  function Evaluator(a: Algorithm, w: Weights, log2: int -> real): Grid -> real
  {
    match a
    case HeuristicAlgorithm => (g: Grid) => if IsBoard(g) then Evaluation(g, w, log2) else 0.0
    case PatternAlgorithm => (g: Grid) => if IsBoard(g) then PatternEvaluation(g, w, log2) else 0.0
    case SnakeAlgorithm => (g: Grid) => if IsBoard(g) then SnakeScore(g) else 0.0
  }

  /**
   * What a worker does with a message: post the move with a score (None for `undefined`), or throw.
   * `Foreign` is a search whose heuristic is an inherited `Object.prototype` member; what that search
   * yields is not modelled.
   */
  datatype Outcome = Posted(move: Direction, score: Search.Option<real>) | Thrown(message: string) | Foreign(key: string)

  /**
   * The search of ai-worker.js's `onmessage`: a fresh memo, the root as a chance node one level below
   * `searchDepth`, the move with merge limit `mergeLimit`; an unknown name leaves the score undefined,
   * and the move is posted either way.
   */
  method OnMessageJs(algorithm: string, move: Direction, board: Grid, searchDepth: nat, heuristicWeights: Weights, mergeLimit: Limit, log2: int -> real)
    returns (outcome: Outcome)
    requires IsBoard(board) && 1 <= searchDepth
    ensures outcome.Posted? && outcome.move == move
    ensures outcome.score.Some? <==> ParseAlgorithm(algorithm).Some?
    ensures ParseAlgorithm(algorithm).Some? ==> outcome.score == Search.Some(
      Value(board, searchDepth - 1, false, map[], Evaluator(ParseAlgorithm(algorithm).value, heuristicWeights, log2), Mover(mergeLimit)).0)
  {
    var score: Search.Option<real> := Search.None;
    var memo: Memo := map[];
    var a := ParseAlgorithm(algorithm);
    if a.Some? {
      var s, _ := Expectimax(board, searchDepth - 1, false, memo, Evaluator(a.value, heuristicWeights, log2), Mover(mergeLimit));
      score := Search.Some(s);
    }
    outcome := Posted(move, score);
  }

  /**
   * The `onmessage` of src/ai/ai-worker.ts and dist/ai-worker.js. A name the lookup does not find
   * throws before any search; a name it finds on `Object.prototype` passes the check and starts a
   * search with that member as the heuristic (`Foreign`); a name of an algorithm starts the search as
   * in ai-worker.js, with the move `simulateMove` of the worker (`Mover(SafeLimit(mergeLimit))` for
   * the game.ts one, `Mover(mergeLimit)` for the bundled one).
   */
  method OnMessageTs(algorithm: string, move: Direction, board: Grid, searchDepth: nat, heuristicWeights: Weights, simulate: (Grid, Direction) -> Grid, log2: int -> real)
    returns (outcome: Outcome)
    requires IsBoard(board) && Keeps(simulate) && 1 <= searchDepth
    ensures outcome.Thrown? <==> ParseAlgorithm(algorithm).None? && algorithm !in InheritedKeys()
    ensures outcome.Thrown? ==> outcome.message == "Unknown algorithm: " + algorithm
    ensures outcome.Foreign? <==> algorithm in InheritedKeys()
    ensures outcome.Foreign? ==> outcome.key == algorithm
    ensures outcome.Posted? <==> ParseAlgorithm(algorithm).Some?
    ensures outcome.Posted? ==> outcome.move == move && outcome.score == Search.Some(
      Value(board, searchDepth - 1, false, map[], Evaluator(ParseAlgorithm(algorithm).value, heuristicWeights, log2), simulate).0)
  {
    var memo: Memo := map[];
    var evaluationFunction := LookupEvaluator(algorithm);
    match evaluationFunction
    case Absent =>
      return Thrown("Unknown algorithm: " + algorithm);
    case Inherited(key) =>
      return Foreign(key);
    case Own(a) =>
      var score, _ := Expectimax(board, searchDepth - 1, false, memo, Evaluator(a, heuristicWeights, log2), simulate);
      outcome := Posted(move, Search.Some(score));
  }

  // ---------------------------------------------------------------- script.js

  /** `SEARCH_DEPTH` of script.js. */
  const SearchDepth: nat := 5

  /**
   * `expectimax(currentBoard, depth, isPlayerTurn)` of script.js: no memo; depth 0 is the evaluation;
   * a player node takes the best child that moved (0 when none did); a chance node with no empty cell
   * is 0; otherwise the total of 0.9 times every child with a 2, then 0.1 times every child with a 4,
   * divided by the number of empty cells.
   */
  function PlainValue(board: Grid, depth: nat, isPlayer: bool, eval: Grid -> real, move: (Grid, Direction) -> Grid): real
    requires IsBoard(board) && Keeps(move)
    decreases depth, 1, 0
  {
    if depth == 0 then eval(board)
    else if isPlayer then
      var best := PlainPlayer(board, depth, 4, eval, move);
      if best.None? then 0.0 else best.value
    else if |EmptyCells(board)| == 0 then 0.0
    else
      var n := |EmptyCells(board)|;
      (0.9 * SpawnSum(board, depth, n, 2, eval, move) + 0.1 * SpawnSum(board, depth, n, 4, eval, move)) / n as real
  }

  /** The best child over the first n moves that change the board; None for `-Infinity`. */
  function PlainPlayer(board: Grid, depth: nat, n: nat, eval: Grid -> real, move: (Grid, Direction) -> Grid): Search.Option<real>
    requires IsBoard(board) && Keeps(move) && 1 <= depth && n <= 4
    decreases depth, 0, n
  {
    if n == 0 then Search.None
    else
      var best := PlainPlayer(board, depth, n - 1, eval, move);
      var newBoard := move(board, Moves()[n - 1]);
      if newBoard != board then
        var v := PlainValue(newBoard, depth - 1, false, eval, move);
        Search.Some(if best.Some? then Search.MaxReal(best.value, v) else v)
      else best
  }

  /** The total of the children with a tile v in each of the first n empty cells. */
  function SpawnSum(board: Grid, depth: nat, n: nat, v: int, eval: Grid -> real, move: (Grid, Direction) -> Grid): real
    requires IsBoard(board) && Keeps(move) && 1 <= depth && n <= |EmptyCells(board)|
    decreases depth, 0, n
  {
    if n == 0 then 0.0
    else SpawnSum(board, depth, n - 1, v, eval, move) + PlainValue(Spawned(board, n - 1, v), depth - 1, true, eval, move)
  }

  /** `expectimax` of script.js. */
  method PlainExpectimax(currentBoard: Grid, depth: nat, isPlayerTurn: bool, eval: Grid -> real, move: (Grid, Direction) -> Grid)
    returns (score: real)
    requires IsBoard(currentBoard) && Keeps(move)
    ensures score == PlainValue(currentBoard, depth, isPlayerTurn, eval, move)
    decreases depth, 1, 0
  {
    if depth == 0 {
      return eval(currentBoard);
    }
    if isPlayerTurn {
      var maxScore := PlainMoves(currentBoard, depth, eval, move);
      score := if maxScore.None? then 0.0 else maxScore.value;
    } else {
      var emptyCells := GetEmptyCells(currentBoard);
      if |emptyCells| == 0 {
        return 0.0;
      }
      var totalScore := PlainTiles(currentBoard, depth, emptyCells, eval, move);
      score := totalScore / |emptyCells| as real;
    }
  }

  /** The player loop of script.js's `expectimax`. */
  method PlainMoves(currentBoard: Grid, depth: nat, eval: Grid -> real, move: (Grid, Direction) -> Grid)
    returns (maxScore: Search.Option<real>)
    requires IsBoard(currentBoard) && Keeps(move) && 1 <= depth
    ensures maxScore == PlainPlayer(currentBoard, depth, 4, eval, move)
    decreases depth, 0, 4
  {
    maxScore := Search.None;
    var moves := Moves();
    for i := 0 to 4
      invariant maxScore == PlainPlayer(currentBoard, depth, i, eval, move)
    {
      var board := move(currentBoard, moves[i]);
      if board != currentBoard {
        var v := PlainExpectimax(board, depth - 1, false, eval, move);
        maxScore := Search.Some(if maxScore.Some? then Search.MaxReal(maxScore.value, v) else v);
      }
    }
  }

  /**
   * The two chance loops of script.js's `expectimax`: 0.9 times the child with a 2 in every empty
   * cell, then 0.1 times the child with a 4 in every empty cell, added up in that order.
   */
  method PlainTiles(currentBoard: Grid, depth: nat, emptyCells: seq<Cell>, eval: Grid -> real, move: (Grid, Direction) -> Grid)
    returns (totalScore: real)
    requires IsBoard(currentBoard) && Keeps(move) && 1 <= depth && emptyCells == EmptyCells(currentBoard)
    ensures totalScore == 0.9 * SpawnSum(currentBoard, depth, |emptyCells|, 2, eval, move) + 0.1 * SpawnSum(currentBoard, depth, |emptyCells|, 4, eval, move)
    decreases depth, 0, |emptyCells|
  {
    totalScore := 0.0;
    for j := 0 to |emptyCells|
      invariant totalScore == 0.9 * SpawnSum(currentBoard, depth, j, 2, eval, move)
    {
      var newBoard := Spawned(currentBoard, j, 2);
      var v := PlainExpectimax(newBoard, depth - 1, true, eval, move);
      totalScore := totalScore + 0.9 * v;
    }
    ghost var twos := totalScore;
    for j := 0 to |emptyCells|
      invariant totalScore == twos + 0.1 * SpawnSum(currentBoard, depth, j, 4, eval, move)
    {
      var newBoard := Spawned(currentBoard, j, 4);
      var v := PlainExpectimax(newBoard, depth - 1, true, eval, move);
      totalScore := totalScore + 0.1 * v;
    }
  }

  /** What the loop of `findBestMove` has after the first n moves: the best move (None for "none") and score. */
  datatype Choice = Choice(bestMove: Search.Option<Direction>, bestScore: Search.Option<real>)

  /** The value `findBestMove` finds for the i-th move: a chance node at the full `SEARCH_DEPTH`. */
  function ChildValue(board: Grid, i: int, eval: Grid -> real, move: (Grid, Direction) -> Grid): real
    requires IsBoard(board) && Keeps(move) && 0 <= i < 4
  {
    PlainValue(move(board, Moves()[i]), SearchDepth, false, eval, move)
  }

  /** The loop of `findBestMove` over the first n moves: a move is taken only when it beats the best so far. */
  function ChoiceUpTo(board: Grid, n: nat, eval: Grid -> real, move: (Grid, Direction) -> Grid): Choice
    requires IsBoard(board) && Keeps(move) && n <= 4
  {
    if n == 0 then Choice(Search.None, Search.None)
    else
      var state := ChoiceUpTo(board, n - 1, eval, move);
      if move(board, Moves()[n - 1]) != board then
        var score := ChildValue(board, n - 1, eval, move);
        if Search.Beats(score, state.bestScore) then Choice(Search.Some(Moves()[n - 1]), Search.Some(score)) else state
      else state
  }

  /** `findBestMove` of script.js: the move the search rates best, or None ("none") when no move is legal. */
  method FindBestMove(board: Grid, eval: Grid -> real, move: (Grid, Direction) -> Grid)
    returns (bestMove: Search.Option<Direction>, bestScore: Search.Option<real>)
    requires IsBoard(board) && Keeps(move)
    ensures Choice(bestMove, bestScore) == ChoiceUpTo(board, 4, eval, move)
  {
    bestScore := Search.None;  // None stands for -Infinity
    bestMove := Search.None;
    var moves := Moves();
    for i := 0 to 4
      invariant Choice(bestMove, bestScore) == ChoiceUpTo(board, i, eval, move)
    {
      var simBoard := move(board, moves[i]);
      if simBoard != board {
        var score := PlainExpectimax(simBoard, SearchDepth, false, eval, move);
        if Search.Beats(score, bestScore) {
          bestScore := Search.Some(score);
          bestMove := Search.Some(moves[i]);
        }
      }
    }
  }

  /**
   * The choice of `findBestMove` over the first n moves: "none" exactly when none of them changes the
   * board; otherwise a move that does, whose value is at least that of every move that does and
   * strictly above that of every such move tried before it (the first best wins).
   */
  lemma {:induction false} ChoiceBest(board: Grid, n: nat, eval: Grid -> real, move: (Grid, Direction) -> Grid)
    requires IsBoard(board) && Keeps(move) && n <= 4
    ensures var s := ChoiceUpTo(board, n, eval, move);
      && (s.bestMove.Some? <==> s.bestScore.Some?)
      && (s.bestScore.Some? <==> exists i | 0 <= i < n :: move(board, Moves()[i]) != board)
      && (forall i | 0 <= i < n && move(board, Moves()[i]) != board ::
            s.bestScore.Some? && ChildValue(board, i, eval, move) <= s.bestScore.value)
      && (s.bestMove.Some? ==> exists i | 0 <= i < n ::
            && s.bestMove.value == Moves()[i] && move(board, Moves()[i]) != board
            && s.bestScore.value == ChildValue(board, i, eval, move)
            && forall j | 0 <= j < i && move(board, Moves()[j]) != board :: ChildValue(board, j, eval, move) < s.bestScore.value)
  {
    if n > 0 {
      ChoiceBest(board, n - 1, eval, move);
      var s := ChoiceUpTo(board, n - 1, eval, move);
      var k := n - 1;
      if move(board, Moves()[k]) != board && Search.Beats(ChildValue(board, k, eval, move), s.bestScore) {
        assert ChoiceUpTo(board, n, eval, move).bestMove.value == Moves()[k];
      }
    }
  }

  /** A chance node of script.js on a board with no zero cell is worth 0. */
  lemma PlainFullBoard(board: Grid, depth: nat, eval: Grid -> real, move: (Grid, Direction) -> Grid)
    requires IsBoard(board) && Keeps(move) && 1 <= depth
    requires forall r, c | 0 <= r < 4 && 0 <= c < 4 :: board[r][c] != 0
    ensures PlainValue(board, depth, false, eval, move) == 0.0
  {
    EmptyCellsSpec(board);
  }

  /** When the evaluation lies in an interval holding 0, so does every value of script.js's search. */
  lemma {:induction false} PlainInRange(board: Grid, depth: nat, isPlayer: bool, eval: Grid -> real, move: (Grid, Direction) -> Grid, lo: real, hi: real)
    requires IsBoard(board) && Keeps(move)
    requires lo <= 0.0 <= hi && EvalInRange(eval, lo, hi)
    ensures lo <= PlainValue(board, depth, isPlayer, eval, move) <= hi
    decreases depth, 1, 0
  {
    if depth == 0 {
    } else if isPlayer {
      PlainPlayerInRange(board, depth, 4, eval, move, lo, hi);
    } else if |EmptyCells(board)| > 0 {
      var n := |EmptyCells(board)|;
      SpawnInRange(board, depth, n, 2, eval, move, lo, hi);
      SpawnInRange(board, depth, n, 4, eval, move, lo, hi);
      var total := 0.9 * SpawnSum(board, depth, n, 2, eval, move) + 0.1 * SpawnSum(board, depth, n, 4, eval, move);
      Search.AverageInRange(total, n, lo, hi);
    }
  }

  lemma {:induction false} PlainPlayerInRange(board: Grid, depth: nat, n: nat, eval: Grid -> real, move: (Grid, Direction) -> Grid, lo: real, hi: real)
    requires IsBoard(board) && Keeps(move) && 1 <= depth && n <= 4
    requires lo <= 0.0 <= hi && EvalInRange(eval, lo, hi)
    ensures var best := PlainPlayer(board, depth, n, eval, move); best.Some? ==> lo <= best.value <= hi
    decreases depth, 0, n
  {
    if n > 0 {
      PlainPlayerInRange(board, depth, n - 1, eval, move, lo, hi);
      var newBoard := move(board, Moves()[n - 1]);
      if newBoard != board {
        PlainInRange(newBoard, depth - 1, false, eval, move, lo, hi);
      }
    }
  }

  lemma {:induction false} SpawnInRange(board: Grid, depth: nat, n: nat, v: int, eval: Grid -> real, move: (Grid, Direction) -> Grid, lo: real, hi: real)
    requires IsBoard(board) && Keeps(move) && 1 <= depth && n <= |EmptyCells(board)|
    requires lo <= 0.0 <= hi && EvalInRange(eval, lo, hi)
    ensures Search.Times(n, lo) <= SpawnSum(board, depth, n, v, eval, move) <= Search.Times(n, hi)
    decreases depth, 0, n
  {
    if n > 0 {
      SpawnInRange(board, depth, n - 1, v, eval, move, lo, hi);
      PlainInRange(Spawned(board, n - 1, v), depth - 1, true, eval, move, lo, hi);
    }
  }
}
