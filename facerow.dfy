/**
 * The row operation of the face-value simulators: `operate_row` of wasm-lib/src/lib.rs and the
 * `operateRow` copies of ai-worker.js, script.js, dist/main.js and dist/ai-worker.js.
 *
 * Cells hold face values (2, 4, 8, ...; 0 for an empty cell), modelled as integers: every value the
 * game produces is an integer far below 2^53, where `f64` arithmetic is exact. A pair merges only
 * while it is below the merge limit, an `f64` that may be `Infinity`; script.js has no limit at all.
 * The reference definition is `Operated`; the Rust loop and the JavaScript splice loop are both
 * proved to compute it, and on powers of two below the limit it is the exponent slide of tables.rs.
 */
module FaceRow {
  import opened Tables

  /** The merge limit: a finite `f64`, or none (`Infinity`, or script.js, which has no limit). */
  datatype Limit = Finite(bound: real) | Unlimited

  /** `tiles[i] < merge_limit` */
  predicate BelowLimit(x: int, limit: Limit)
  {
    limit.Unlimited? || (x as real) < limit.bound
  }

  // ---------------------------------------------------------------- reference definition

  /** `filter(|&v| v != 0.0)`: the nonzero cells of s, in their order. */
  function NonZero(s: seq<int>): (t: seq<int>)
    ensures |t| <= |s|
    ensures forall k | 0 <= k < |t| :: t[k] != 0
  {
    if |s| == 0 then []
    else NonZero(s[..|s| - 1]) + (if s[|s| - 1] != 0 then [s[|s| - 1]] else [])
  }

  /** One left-to-right pass: two equal neighbours below the limit become one cell of twice the value, once. */
  function Merged(t: seq<int>, limit: Limit): (m: seq<int>)
    ensures |m| <= |t|
  {
    if |t| <= 1 then t
    else if t[0] == t[1] && BelowLimit(t[0], limit) then [2 * t[0]] + Merged(t[2..], limit)
    else [t[0]] + Merged(t[1..], limit)
  }

  /** The score of that pass: the value of every merged cell. */
  function MergedScore(t: seq<int>, limit: Limit): int
  {
    if |t| <= 1 then 0
    else if t[0] == t[1] && BelowLimit(t[0], limit) then 2 * t[0] + MergedScore(t[2..], limit)
    else MergedScore(t[1..], limit)
  }

  /** s followed by zeros up to length 4 (s itself when it is already that long). */
  function Padded(s: seq<int>): (p: seq<int>)
    ensures |p| == if |s| < 4 then 4 else |s|
    ensures p[..|s|] == s && forall k | |s| <= k < |p| :: p[k] == 0
  {
    s + Zeros(if |s| < 4 then 4 - |s| else 0)
  }

  /** The row operation: the nonzero cells merged once from the left, then padded with zeros, and its score. */
  function Operated(row: seq<int>, limit: Limit): (r: (seq<int>, int))
    ensures |row| <= 4 ==> |r.0| == 4
  {
    var tiles := NonZero(row);
    (Padded(Merged(tiles, limit)), MergedScore(tiles, limit))
  }

  // ---------------------------------------------------------------- the two loops

  /** n zeros. */
  function Zeros(n: nat): (z: seq<int>)
    ensures |z| == n && forall k | 0 <= k < n :: z[k] == 0
  {
    seq(n, _ => 0)
  }

  /**
   * What a loop over the nonzero cells t has at position i: `out` holds the pass over t[..i] and
   * `score` its score, so that the pass over t[i..] completes both.
   */
  predicate RunState(t: seq<int>, i: int, out: seq<int>, score: int, limit: Limit)
  {
    0 <= i <= |t|
    && out + Merged(t[i..], limit) == Merged(t, limit)
    && score + MergedScore(t[i..], limit) == MergedScore(t, limit)
  }

  lemma RunStart(t: seq<int>, limit: Limit)
    ensures RunState(t, 0, [], 0, limit)
  {
    assert t[0..] == t;
  }

  /** Two equal cells below the limit at i and i + 1 merge: one cell of twice the value is written. */
  lemma RunMerge(t: seq<int>, i: int, out: seq<int>, score: int, limit: Limit)
    requires RunState(t, i, out, score, limit)
    requires i + 1 < |t| && t[i] == t[i + 1] && BelowLimit(t[i], limit)
    ensures RunState(t, i + 2, out + [2 * t[i]], score + 2 * t[i], limit)
  {
    assert t[i..][1..][1..] == t[i + 2..];
  }

  /** Any other cell is written as it is. */
  lemma RunCopy(t: seq<int>, i: int, out: seq<int>, score: int, limit: Limit)
    requires RunState(t, i, out, score, limit)
    requires i < |t| && !(i + 1 < |t| && t[i] == t[i + 1] && BelowLimit(t[i], limit))
    ensures RunState(t, i + 1, out + [t[i]], score, limit)
  {
    if i + 1 < |t| {
      assert t[i..][1..] == t[i + 1..];
    } else {
      assert t[i..] == [t[i]];
      assert t[i + 1..] == [];
    }
  }

  /** At the end the pass is complete. */
  lemma RunEnd(t: seq<int>, out: seq<int>, score: int, limit: Limit)
    requires RunState(t, |t|, out, score, limit)
    ensures out == Merged(t, limit) && score == MergedScore(t, limit)
  {
    assert t[|t|..] == [];
  }

  /**
   * `operate_row` of lib.rs: the nonzero cells are read left to right, a pair that merges is pushed
   * as one cell and both are consumed, and the result is padded with zeros.
   */
  method OperateRow(row: seq<int>, mergeLimit: Limit) returns (resultRow: seq<int>, score: int)
    ensures (resultRow, score) == Operated(row, mergeLimit)
  {
    var tiles := NonZero(row);
    resultRow := [];
    score := 0;
    RunStart(tiles, mergeLimit);
    var i := 0;
    while i < |tiles|
      invariant RunState(tiles, i, resultRow, score, mergeLimit)
      decreases |tiles| - i
    {
      if i + 1 < |tiles| && tiles[i] == tiles[i + 1] && BelowLimit(tiles[i], mergeLimit) {
        RunMerge(tiles, i, resultRow, score, mergeLimit);
        var mergedVal := tiles[i] * 2;
        resultRow := resultRow + [mergedVal];
        score := score + mergedVal;
        i := i + 2;
      } else {
        RunCopy(tiles, i, resultRow, score, mergeLimit);
        resultRow := resultRow + [tiles[i]];
        i := i + 1;
      }
    }
    RunEnd(tiles, resultRow, score, mergeLimit);
    resultRow := PadWithZeros(resultRow);
  }

  /** `while row.len() < SIZE { row.push(0) }` */
  method PadWithZeros(s: seq<int>) returns (p: seq<int>)
    ensures p == Padded(s)
  {
    p := s;
    while |p| < 4
      invariant |s| <= |p| && p == s + Zeros(|p| - |s|)
      invariant |s| < 4 ==> |p| <= 4
      invariant |s| >= 4 ==> p == s
      decreases 4 - |p|
    {
      p := p + [0];
    }
  }

  /**
   * What the splice loop has at index i: the row is the pass over the first i cells followed by the
   * nonzero cells not yet read, so the pass over the rest completes it.
   */
  predicate SpliceState(t: seq<int>, row: seq<int>, i: int, score: int, limit: Limit)
  {
    0 <= i <= |row|
    && row[..i] + Merged(row[i..], limit) == Merged(t, limit)
    && score + MergedScore(row[i..], limit) == MergedScore(t, limit)
  }

  lemma SpliceStart(t: seq<int>, limit: Limit)
    ensures SpliceState(t, t, 0, 0, limit)
  {
    assert t[0..] == t;
  }

  /** `newRow[i] *= 2; newRow.splice(i + 1, 1)`, then the index moves past the merged cell. */
  lemma SpliceMerge(t: seq<int>, row: seq<int>, i: int, score: int, limit: Limit)
    requires SpliceState(t, row, i, score, limit)
    requires i + 1 < |row| && row[i] == row[i + 1] && BelowLimit(row[i], limit)
    ensures SpliceState(t, row[..i] + [2 * row[i]] + row[i + 2..], i + 1, score + 2 * row[i], limit)
  {
    var row' := row[..i] + [2 * row[i]] + row[i + 2..];
    assert row'[..i + 1] == row[..i] + [2 * row[i]];
    assert row'[i + 1..] == row[i + 2..];
    assert row[i..][1..][1..] == row[i + 2..];
  }

  /** A cell that does not merge stays, and the index moves on. */
  lemma SpliceSkip(t: seq<int>, row: seq<int>, i: int, score: int, limit: Limit)
    requires SpliceState(t, row, i, score, limit)
    requires i + 1 < |row| && !(row[i] == row[i + 1] && BelowLimit(row[i], limit))
    ensures SpliceState(t, row, i + 1, score, limit)
  {
    assert row[..i + 1] == row[..i] + [row[i]];
    assert row[i..][1..] == row[i + 1..];
  }

  /** With at most one cell left the pass is complete. */
  lemma SpliceEnd(t: seq<int>, row: seq<int>, i: int, score: int, limit: Limit)
    requires SpliceState(t, row, i, score, limit) && i >= |row| - 1
    ensures row == Merged(t, limit) && score == MergedScore(t, limit)
  {
    assert row[..i] + row[i..] == row;
  }

  /**
   * `operateRow` of the JavaScript copies: the nonzero cells are merged in place, each merge doubling
   * a cell and splicing out its partner, the index then moving past the merged cell, and the row is
   * padded with zeros. It computes the same row and score as `operate_row`.
   */
  method OperateRowSplice(row: seq<int>, mergeLimit: Limit) returns (newRow: seq<int>, score: int)
    ensures (newRow, score) == Operated(row, mergeLimit)
  {
    newRow := NonZero(row);
    ghost var tiles := newRow;
    score := 0;
    SpliceStart(tiles, mergeLimit);
    var i := 0;
    while i < |newRow| - 1
      invariant SpliceState(tiles, newRow, i, score, mergeLimit)
      decreases |newRow| - i
    {
      if newRow[i] == newRow[i + 1] && BelowLimit(newRow[i], mergeLimit) {
        SpliceMerge(tiles, newRow, i, score, mergeLimit);
        ghost var before := newRow;
        newRow := newRow[i := newRow[i] * 2];
        score := score + newRow[i];
        assert newRow[..i + 1] == before[..i] + [2 * before[i]];
        assert newRow[i + 2..] == before[i + 2..];
        newRow := newRow[..i + 1] + newRow[i + 2..];
      } else {
        SpliceSkip(tiles, newRow, i, score, mergeLimit);
      }
      i := i + 1;
    }
    SpliceEnd(tiles, newRow, i, score, mergeLimit);
    newRow := PadWithZeros(newRow);
  }

  // ---------------------------------------------------------------- properties

  /** The sum of the cells. */
  function Sum(s: seq<int>): int
  {
    if |s| == 0 then 0 else s[0] + Sum(s[1..])
  }

  lemma {:induction false} SumAppend(x: seq<int>, y: seq<int>)
    ensures Sum(x + y) == Sum(x) + Sum(y)
  {
    if |x| > 0 {
      assert (x + y)[1..] == x[1..] + y;
      SumAppend(x[1..], y);
    } else {
      assert x + y == y;
    }
  }

  lemma {:induction false} NonZeroSum(s: seq<int>)
    ensures Sum(NonZero(s)) == Sum(s)
  {
    if |s| > 0 {
      var last := s[|s| - 1];
      NonZeroSum(s[..|s| - 1]);
      SumAppend(NonZero(s[..|s| - 1]), if last != 0 then [last] else []);
      SumAppend(s[..|s| - 1], [last]);
      assert s[..|s| - 1] + [last] == s;
    }
  }

  lemma {:induction false} MergedSum(t: seq<int>, limit: Limit)
    ensures Sum(Merged(t, limit)) == Sum(t)
  {
    if |t| > 1 {
      if t[0] == t[1] && BelowLimit(t[0], limit) {
        MergedSum(t[2..], limit);
        assert t[1..][1..] == t[2..];
        assert ([2 * t[0]] + Merged(t[2..], limit))[1..] == Merged(t[2..], limit);
      } else {
        MergedSum(t[1..], limit);
        assert ([t[0]] + Merged(t[1..], limit))[1..] == Merged(t[1..], limit);
      }
    }
  }

  lemma {:induction false} ZerosSum(n: nat)
    ensures Sum(Zeros(n)) == 0
  {
    if n > 0 {
      assert Zeros(n)[1..] == Zeros(n - 1);
      ZerosSum(n - 1);
    }
  }

  /**
   * The row operation returns at least four cells, the merged nonzero cells first and zeros after,
   * and it keeps the total face value: a merge of x and x gives 2x.
   */
  lemma OperatedShape(row: seq<int>, limit: Limit)
    requires |row| == 4
    ensures var (r, _) := Operated(row, limit);
      && |r| == 4
      && r[..|Merged(NonZero(row), limit)|] == Merged(NonZero(row), limit)
      && (forall k | |Merged(NonZero(row), limit)| <= k < 4 :: r[k] == 0)
      && Sum(r) == Sum(row)
  {
    var m := Merged(NonZero(row), limit);
    NonZeroSum(row);
    MergedSum(NonZero(row), limit);
    SumAppend(m, Zeros(4 - |m|));
    ZerosSum(4 - |m|);
  }

  lemma {:induction false} MergedScoreNonNegative(t: seq<int>, limit: Limit)
    requires forall k | 0 <= k < |t| :: t[k] >= 0
    ensures MergedScore(t, limit) >= 0
  {
    if |t| > 1 {
      if t[0] == t[1] && BelowLimit(t[0], limit) {
        MergedScoreNonNegative(t[2..], limit);
      } else {
        MergedScoreNonNegative(t[1..], limit);
      }
    }
  }

  lemma {:induction false} NonZeroOf(s: seq<int>)
    ensures forall k | 0 <= k < |NonZero(s)| :: NonZero(s)[k] in s
  {
    if |s| > 0 {
      NonZeroOf(s[..|s| - 1]);
    }
  }

  /** With non-negative cells the score is non-negative. */
  lemma OperatedScoreNonNegative(row: seq<int>, limit: Limit)
    requires forall k | 0 <= k < |row| :: row[k] >= 0
    ensures Operated(row, limit).1 >= 0
  {
    NonZeroOf(row);
    MergedScoreNonNegative(NonZero(row), limit);
  }

  /** On non-negative cells the pass scores at most the total of its cells: each merge of x and x scores 2x. */
  lemma {:induction false} MergedScoreAtMostSum(t: seq<int>, limit: Limit)
    requires forall k | 0 <= k < |t| :: t[k] >= 0
    ensures 0 <= MergedScore(t, limit) <= Sum(t)
  {
    if |t| > 1 {
      assert Sum(t) == t[0] + Sum(t[1..]);
      if t[0] == t[1] && BelowLimit(t[0], limit) {
        MergedScoreAtMostSum(t[2..], limit);
        assert t[1..][1..] == t[2..];
        assert Sum(t[1..]) == t[1] + Sum(t[2..]);
      } else {
        MergedScoreAtMostSum(t[1..], limit);
      }
    } else if |t| == 1 {
      assert Sum(t) == t[0] + Sum(t[1..]);
    }
  }

  /**
   * With non-negative cells, the score of the row operation lies between 0 and the total of the row,
   * so every merged value and every partial score of the loop lies there too.
   */
  lemma OperatedScoreBound(row: seq<int>, limit: Limit)
    requires forall k | 0 <= k < |row| :: row[k] >= 0
    ensures 0 <= Operated(row, limit).1 <= Sum(row)
  {
    NonZeroOf(row);
    NonZeroSum(row);
    MergedScoreAtMostSum(NonZero(row), limit);
  }

  /** When no cell is below the limit nothing merges: the row is only compacted, and scores 0. */
  lemma {:induction false} MergedAtLimit(t: seq<int>, limit: Limit)
    requires forall k | 0 <= k < |t| :: !BelowLimit(t[k], limit)
    ensures Merged(t, limit) == t && MergedScore(t, limit) == 0
  {
    if |t| > 1 {
      MergedAtLimit(t[1..], limit);
      assert [t[0]] + t[1..] == t;
    }
  }

  // ---------------------------------------------------------------- agreement with the exponent slide

  /** The face value of a tile with exponent e: 2^e, and 0 for an empty cell. */
  function Face(e: nat): int
  {
    if e == 0 then 0 else Pow2(e)
  }

  /** A row of exponents as the face values the simulators work on. */
  function Faces(s: seq<nat>): (f: seq<int>)
    ensures |f| == |s| && forall k | 0 <= k < |s| :: f[k] == Face(s[k])
  {
    seq(|s|, k requires 0 <= k < |s| => Face(s[k]))
  }

  lemma {:induction false} Pow2Injective(x: nat, y: nat)
    requires Pow2(x) == Pow2(y)
    ensures x == y
  {
    if x > 0 && y > 0 {
      Pow2Injective(x - 1, y - 1);
    }
  }

  lemma {:induction false} FaceNonZero(s: seq<nat>)
    ensures NonZero(Faces(s)) == Faces(Compact(s))
  {
    if |s| > 0 {
      var n := |s| - 1;
      FaceNonZero(s[..n]);
      assert Faces(s)[..n] == Faces(s[..n]);
      assert Faces(s)[n] == Face(s[n]);
      assert Faces(Compact(s[..n]) + (if s[n] != 0 then [s[n]] else []))
        == Faces(Compact(s[..n])) + (if s[n] != 0 then [Face(s[n])] else []);
    }
  }

  lemma {:induction false} FaceMerged(c: seq<nat>, limit: Limit)
    requires forall k | 0 <= k < |c| :: c[k] != 0 && BelowLimit(Face(c[k]), limit)
    ensures Merged(Faces(c), limit) == Faces(Merge(c))
    ensures MergedScore(Faces(c), limit) == MergeScore(c) as int
  {
    if |c| > 1 {
      var f := Faces(c);
      assert f[0] == Face(c[0]) && f[1] == Face(c[1]);
      if c[0] == c[1] {
        FaceMerged(c[2..], limit);
        FaceRowDrop(c, 2);
        FaceRowCons(c[0] + 1, Merge(c[2..]));
        assert Merged(f, limit) == [2 * f[0]] + Merged(f[2..], limit);
      } else {
        assert f[0] != f[1] by {
          if f[0] == f[1] {
            Pow2Injective(c[0], c[1]);
          }
        }
        FaceMerged(c[1..], limit);
        FaceRowDrop(c, 1);
        FaceRowCons(c[0], Merge(c[1..]));
        assert Merged(f, limit) == [f[0]] + Merged(f[1..], limit);
      }
    }
  }

  lemma FaceRowDrop(c: seq<nat>, k: nat)
    requires k <= |c|
    ensures Faces(c)[k..] == Faces(c[k..])
  {
  }

  lemma FaceRowCons(x: nat, c: seq<nat>)
    ensures Faces([x] + c) == [Face(x)] + Faces(c)
  {
  }

  /**
   * On a row of powers of two whose cells are all below the merge limit, the face-value operation is
   * the exponent slide of tables.rs seen through 2^e: the same row and the same score.
   */
  lemma OperatedIsSlideLeft(e: seq<nat>, limit: Limit)
    requires |e| == 4 && forall k | 0 <= k < 4 :: BelowLimit(Face(e[k]), limit)
    ensures Operated(Faces(e), limit) == (Faces(SlideLeft(e)), SlideScore(e) as int)
  {
    var c := Compact(e);
    FaceNonZero(e);
    CompactTiles(e);
    CompactOf(e);
    FaceMerged(c, limit);
    var m := Merge(c);
    assert Faces(Pad(m)) == Padded(Faces(m));
  }

  lemma {:induction false} CompactOf(s: seq<nat>)
    ensures forall k | 0 <= k < |Compact(s)| :: Compact(s)[k] in s
  {
    if |s| > 0 {
      CompactOf(s[..|s| - 1]);
    }
  }
}
