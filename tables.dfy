/**
 * The row tables of wasm-lib/src/tables.rs: the left slide of one row of four exponents and the
 * score it earns, tabulated for all 65536 packed rows, and the right move derived by reversal.
 *
 * Tiles are exponents, kept as natural numbers; a row packs four of them into the nibbles of a
 * 16-bit `Row`. The reference definition of a left slide is `SlideLeft`: drop the empty cells (`Compact`), merge
 * equal neighbours once from the left (`Merge`), pad with empty cells.
 */
module Tables {
  import opened Board

  // ---------------------------------------------------------------- tile values

  /** 2^e, the value of a tile with exponent e, as `1 << e` computes it in a `u32`. */
  function Pow2(e: nat): (p: nat)
    ensures p >= 1
  {
    if e == 0 then 1 else 2 * Pow2(e - 1)
  }

  /** Every tile fits in a nibble, as the tiles unpacked from a row do. */
  predicate NibbleTiles(s: seq<nat>)
  {
    forall k | 0 <= k < |s| :: s[k] < 16
  }

  /** Every tile is below 15, so that no merge leaves the nibble range. */
  predicate MergeableTiles(s: seq<nat>)
  {
    forall k | 0 <= k < |s| :: s[k] < 15
  }

  // ---------------------------------------------------------------- reference definition

  /** The non-empty tiles of s, in their order. */
  function Compact(s: seq<nat>): (c: seq<nat>)
    ensures |c| <= |s|
  {
    if |s| == 0 then []
    else Compact(s[..|s| - 1]) + (if s[|s| - 1] != 0 then [s[|s| - 1]] else [])
  }

  /** One left-to-right merge pass over compacted tiles: equal neighbours merge once. */
  function Merge(c: seq<nat>): (m: seq<nat>)
    ensures |m| <= |c|
  {
    if |c| <= 1 then c
    else if c[0] == c[1] then [c[0] + 1] + Merge(c[2..])
    else [c[0]] + Merge(c[1..])
  }

  /** The score of that pass: 2^(new exponent) for every merge. */
  function MergeScore(c: seq<nat>): nat
  {
    if |c| <= 1 then 0
    else if c[0] == c[1] then Pow2(c[0] + 1) + MergeScore(c[2..])
    else MergeScore(c[1..])
  }

  /** s followed by empty cells up to length 4. */
  function Pad(s: seq<nat>): (p: seq<nat>)
    requires |s| <= 4
    ensures |p| == 4 && p[..|s|] == s
  {
    s + seq(4 - |s|, _ => 0)
  }

  /** The left slide of a row of four tiles. */
  function SlideLeft(tiles: seq<nat>): seq<nat>
    requires |tiles| == 4
  {
    Pad(Merge(Compact(tiles)))
  }

  /** The score of the left slide of a row of four tiles. */
  function SlideScore(tiles: seq<nat>): nat
    requires |tiles| == 4
  {
    MergeScore(Compact(tiles))
  }

  lemma {:induction false} CompactTiles(s: seq<nat>)
    ensures forall k | 0 <= k < |Compact(s)| :: Compact(s)[k] != 0
    ensures NibbleTiles(s) ==> NibbleTiles(Compact(s))
    ensures MergeableTiles(s) ==> MergeableTiles(Compact(s))
  {
    if |s| > 0 {
      CompactTiles(s[..|s| - 1]);
    }
  }

  // ---------------------------------------------------------------- slide_and_merge

  lemma PadIntro(a: seq<nat>, x: seq<nat>)
    requires |a| == 4 && |x| <= 4 && a[..|x|] == x
    requires forall j | |x| <= j < 4 :: a[j] == 0
    ensures a == Pad(x)
  {
  }

  lemma PadIndex(x: seq<nat>, i: int)
    requires |x| <= 4 && 0 <= i < 4
    ensures Pad(x)[i] == if i < |x| then x[i] else 0
  {
  }

  lemma CompactStep(s: seq<nat>, k: int)
    requires 0 <= k < |s|
    ensures Compact(s[..k + 1]) == Compact(s[..k]) + (if s[k] != 0 then [s[k]] else [])
  {
    assert s[..k + 1][..k] == s[..k];
  }

  /**
   * The merge loop of `slide_and_merge` from position i of the compacted row p, with `out` the
   * tiles written so far: a non-empty tile equal to its right neighbour merges with it and the
   * loop skips both, any other non-empty tile is copied, an empty cell is passed over.
   */
  function MergeRun(p: seq<nat>, i: nat, out: seq<nat>): seq<nat>
    requires |p| == 4
    decreases 4 - i
  {
    if i >= 4 then out
    else if p[i] != 0 && i + 1 < 4 && p[i] == p[i + 1] then MergeRun(p, i + 2, out + [p[i] + 1])
    else if p[i] != 0 then MergeRun(p, i + 1, out + [p[i]])
    else MergeRun(p, i + 1, out)
  }

  /** The score that loop adds to `score` from position i. */
  function RunScore(p: seq<nat>, i: nat, score: nat): nat
    requires |p| == 4
    decreases 4 - i
  {
    if i >= 4 then score
    else if p[i] != 0 && i + 1 < 4 && p[i] == p[i + 1] then RunScore(p, i + 2, score + Pow2(p[i] + 1))
    else RunScore(p, i + 1, score)
  }

  lemma {:induction false} RunZeros(p: seq<nat>, i: nat, out: seq<nat>, score: nat)
    requires |p| == 4
    requires forall j | i <= j < 4 :: p[j] == 0
    ensures MergeRun(p, i, out) == out && RunScore(p, i, score) == score
    decreases 4 - i
  {
    if i < 4 {
      RunZeros(p, i + 1, out, score);
    }
  }

  /** Over a padded compacted row, the loop from position i appends the merge pass of c[i..]. */
  lemma {:induction false} RunPad(c: seq<nat>, i: nat, out: seq<nat>, score: nat)
    requires |c| <= 4 && i <= |c|
    requires forall k | 0 <= k < |c| :: c[k] != 0
    ensures MergeRun(Pad(c), i, out) == out + Merge(c[i..])
    ensures RunScore(Pad(c), i, score) == score + MergeScore(c[i..])
    decreases 4 - i
  {
    var p := Pad(c);
    if i == |c| {
      assert forall j | i <= j < 4 :: p[j] == 0;
      RunZeros(p, i, out, score);
    } else {
      PadIndex(c, i);
      if i + 1 < 4 {
        PadIndex(c, i + 1);
      }
      if i + 1 < |c| && c[i] == c[i + 1] {
        RunPad(c, i + 2, out + [c[i] + 1], score + Pow2(c[i] + 1));
        assert c[i..][2..] == c[i + 2..];
      } else {
        RunPad(c, i + 1, out + [c[i]], score);
        assert c[i..][1..] == c[i + 1..];
      }
    }
  }

  /**
   * Step 1 of `slide_and_merge`: the non-empty tiles moved to the left of a fresh buffer of four
   * cells, in their order.
   */
  method SlideTiles(tiles: seq<nat>) returns (slided: array<nat>)
    requires |tiles| == 4
    ensures fresh(slided) && slided[..] == Pad(Compact(tiles))
  {
    slided := new nat[4](_ => 0);
    var slidedIdx := 0;
    var k := 0;
    while k < 4
      modifies slided
      invariant 0 <= k <= 4
      invariant slidedIdx == |Compact(tiles[..k])| <= k
      invariant slided[..slidedIdx] == Compact(tiles[..k])
      invariant forall j | slidedIdx <= j < 4 :: slided[j] == 0
    {
      CompactStep(tiles, k);
      var tile := tiles[k];
      if tile != 0 {
        slided[slidedIdx] := tile;
        slidedIdx := slidedIdx + 1;
      }
      k := k + 1;
    }
    assert tiles[..4] == tiles;
    PadIntro(slided[..], Compact(tiles));
  }

  /**
   * Step 2 of `slide_and_merge`: merges equal neighbours of the slided buffer into a new row from
   * the left, adding 2^(new exponent) to the score for every merge.
   */
  method MergeTiles(slided: array<nat>) returns (newTiles: seq<nat>, score: nat)
    requires slided.Length == 4
    ensures newTiles == Pad(MergeRun(slided[..], 0, [])) && score == RunScore(slided[..], 0, 0)
  {
    var merged := new nat[4](_ => 0);
    score := 0;
    var currentPos := 0;
    ghost var p := slided[..];
    ghost var out: seq<nat> := [];
    var i := 0;
    MergeLoopStart(p, merged[..]);
    while i < 4
      invariant slided[..] == p && MergeLoop(p, i, currentPos, out, merged[..], score)
    {
      var tile := slided[i];
      ghost var buf := merged[..];
      assert tile == p[i] && (i + 1 < 4 ==> slided[i + 1] == p[i + 1]);
      if tile != 0 && i + 1 < 4 && tile == slided[i + 1] {
        var newTileVal := tile + 1;
        MergeLoopMerge(p, i, currentPos, out, buf, score);
        merged[currentPos] := newTileVal;
        assert merged[..] == buf[currentPos := newTileVal];
        out := out + [newTileVal];
        score := score + Pow2(newTileVal);
        currentPos := currentPos + 1;
        i := i + 2;
      } else {
        MergeLoopCopy(p, i, currentPos, out, buf, score);
        merged[currentPos] := tile;
        assert merged[..] == buf[currentPos := tile];
        if tile != 0 {
          out := out + [tile];
          currentPos := currentPos + 1;
        }
        i := i + 1;
      }
    }
    newTiles := merged[..];
    MergeLoopEnd(p, i, currentPos, out, newTiles, score);
  }


  /** What the merge loop has after position i: the tiles written so far, zeros after them, and the score. */
  ghost predicate MergeLoop(p: seq<nat>, i: nat, currentPos: nat, out: seq<nat>, buf: seq<nat>, score: nat)
    requires |p| == 4
  {
    && currentPos <= i <= 4 && |out| == currentPos && |buf| == 4
    && buf[..currentPos] == out && (forall j | currentPos <= j < 4 :: buf[j] == 0)
    && MergeRun(p, i, out) == MergeRun(p, 0, []) && RunScore(p, i, score) == RunScore(p, 0, 0)
  }

  lemma MergeLoopStart(p: seq<nat>, buf: seq<nat>)
    requires |p| == 4 && |buf| == 4 && forall j | 0 <= j < 4 :: buf[j] == 0
    ensures MergeLoop(p, 0, 0, [], buf, 0)
  {
  }

  /** Two equal tiles merge into the next cell of the buffer. */
  lemma MergeLoopMerge(p: seq<nat>, i: nat, currentPos: nat, out: seq<nat>, buf: seq<nat>, score: nat)
    requires |p| == 4 && MergeLoop(p, i, currentPos, out, buf, score)
    requires i + 1 < 4 && p[i] != 0 && p[i] == p[i + 1]
    ensures MergeLoop(p, i + 2, currentPos + 1, out + [p[i] + 1], buf[currentPos := p[i] + 1], score + Pow2(p[i] + 1))
  {
    assert buf[currentPos := p[i] + 1][..currentPos + 1] == out + [p[i] + 1];
  }

  /** Any other tile is copied into the next cell; only a nonzero one advances the write position. */
  lemma MergeLoopCopy(p: seq<nat>, i: nat, currentPos: nat, out: seq<nat>, buf: seq<nat>, score: nat)
    requires |p| == 4 && MergeLoop(p, i, currentPos, out, buf, score)
    requires i < 4 && !(p[i] != 0 && i + 1 < 4 && p[i] == p[i + 1])
    ensures p[i] != 0 ==> MergeLoop(p, i + 1, currentPos + 1, out + [p[i]], buf[currentPos := p[i]], score)
    ensures p[i] == 0 ==> MergeLoop(p, i + 1, currentPos, out, buf[currentPos := p[i]], score)
  {
    assert buf[currentPos := p[i]][..currentPos + 1] == out + [p[i]];
  }

  lemma MergeLoopEnd(p: seq<nat>, i: nat, currentPos: nat, out: seq<nat>, buf: seq<nat>, score: nat)
    requires |p| == 4 && MergeLoop(p, i, currentPos, out, buf, score) && i >= 4
    ensures buf == Pad(MergeRun(p, 0, [])) && score == RunScore(p, 0, 0)
  {
    PadIntro(buf, out);
  }

  /** `slide_and_merge`: step 1 then step 2; the result is the reference left slide. */
  method SlideAndMerge(tiles: seq<nat>) returns (newTiles: seq<nat>, score: nat)
    requires |tiles| == 4
    ensures newTiles == SlideLeft(tiles) && score == SlideScore(tiles)
  {
    var slided := SlideTiles(tiles);
    newTiles, score := MergeTiles(slided);
    CompactTiles(tiles);
    RunPad(Compact(tiles), 0, [], 0);
    assert Compact(tiles)[0..] == Compact(tiles);
  }

  // ---------------------------------------------------------------- unpack and pack

  /** The number held in the low four bits of x. */
  function NibbleValue(x: Row): (v: nat)
    ensures v < 16
  {
    (x & 0xF) as nat
  }

  /** A tile as a u16, for the tiles that fit one. */
  function TileBits(t: nat): Row
    requires t < 0x1_0000
  {
    t as Row
  }

  lemma TileBitsValue(t: nat)
    requires t < 16
    ensures TileBits(t) < 16 && NibbleValue(TileBits(t)) == t
  {
  }

  /** The tiles of a row, nibble 0 first: the array `new` builds for every row. */
  function Unpack(row: Row): (tiles: seq<nat>)
    ensures |tiles| == 4 && NibbleTiles(tiles)
  {
    [NibbleValue(RowNibble(row, 0)), NibbleValue(RowNibble(row, 1)),
     NibbleValue(RowNibble(row, 2)), NibbleValue(RowNibble(row, 3))]
  }

  lemma NibbleValueBits(x: Row)
    requires x & 0xF == x
    ensures TileBits(NibbleValue(x)) == x
  {
  }

  /** Tiles that fit in a u16, as the tiles of `slide_and_merge` do. */
  predicate U16Tiles(s: seq<nat>)
  {
    forall k | 0 <= k < |s| :: s[k] < 0x1_0000
  }

  /** `x << 4i` in a u16: bits shifted past bit 15 are lost. */
  function ShiftToNibble(x: Row, i: int): Row
    requires 0 <= i < 4
  {
    if i == 0 then x else if i == 1 then x << 4 else if i == 2 then x << 8 else x << 12
  }

  /** The row packed from tiles 0..n-1, as the packing loop of `new` has it after n steps. */
  function PackUpTo(tiles: seq<nat>, n: int): Row
    requires |tiles| == 4 && U16Tiles(tiles) && 0 <= n <= 4
  {
    if n == 0 then 0 else PackUpTo(tiles, n - 1) | ShiftToNibble(TileBits(tiles[n - 1]), n - 1)
  }

  /** The packed row of four tiles: tile i ORed in at nibble i. */
  function Pack(tiles: seq<nat>): Row
    requires |tiles| == 4 && U16Tiles(tiles)
  {
    PackUpTo(tiles, 4)
  }

  /** The packing loop of `new`: ORs every tile into its nibble of the result row. */
  method PackTiles(tiles: seq<nat>) returns (resultRow: Row)
    requires |tiles| == 4 && U16Tiles(tiles)
    ensures resultRow == Pack(tiles)
  {
    resultRow := 0;
    var i := 0;
    while i < 4
      invariant 0 <= i <= 4
      invariant resultRow == PackUpTo(tiles, i)
    {
      resultRow := resultRow | ShiftToNibble(TileBits(tiles[i]), i);
      i := i + 1;
    }
  }

  /** The nibbles 0..n-1 of a row, the others cleared. */
  function LowNibbles(row: Row, n: int): Row
    requires 0 <= n <= 4
  {
    if n == 0 then 0 else if n == 1 then row & 0xF else if n == 2 then row & 0xFF else if n == 3 then row & 0xFFF else row
  }

  lemma LowStep0(row: Row)
    ensures LowNibbles(row, 0) | ShiftToNibble(RowNibble(row, 0), 0) == LowNibbles(row, 1)
  {
  }

  lemma LowStep1(row: Row)
    ensures LowNibbles(row, 1) | ShiftToNibble(RowNibble(row, 1), 1) == LowNibbles(row, 2)
  {
  }

  lemma LowStep2(row: Row)
    ensures LowNibbles(row, 2) | ShiftToNibble(RowNibble(row, 2), 2) == LowNibbles(row, 3)
  {
  }

  lemma LowStep3(row: Row)
    ensures LowNibbles(row, 3) | ShiftToNibble(RowNibble(row, 3), 3) == LowNibbles(row, 4)
  {
  }

  lemma UnpackTileBits(row: Row, c: int)
    requires 0 <= c < 4
    ensures TileBits(Unpack(row)[c]) == RowNibble(row, c)
  {
    if c == 0 {
      NibbleValueBits(RowNibble(row, 0));
    } else if c == 1 {
      NibbleValueBits(RowNibble(row, 1));
    } else if c == 2 {
      NibbleValueBits(RowNibble(row, 2));
    } else {
      NibbleValueBits(RowNibble(row, 3));
    }
  }

  lemma LowStep(row: Row, n: int)
    requires 0 <= n < 4
    ensures LowNibbles(row, n) | ShiftToNibble(RowNibble(row, n), n) == LowNibbles(row, n + 1)
  {
    if n == 0 { LowStep0(row); } else if n == 1 { LowStep1(row); } else if n == 2 { LowStep2(row); } else { LowStep3(row); }
  }

  lemma {:induction false} UnpackPackUpTo(row: Row, n: int)
    requires 0 <= n <= 4
    ensures U16Tiles(Unpack(row)) && PackUpTo(Unpack(row), n) == LowNibbles(row, n)
  {
    if n > 0 {
      UnpackPackUpTo(row, n - 1);
      UnpackTileBits(row, n - 1);
      LowStep(row, n - 1);
    }
  }

  /** Packing the tiles of any row gives the row back. */
  lemma UnpackPack(row: Row)
    ensures U16Tiles(Unpack(row)) && Pack(Unpack(row)) == row
  {
    UnpackPackUpTo(row, 4);
  }

  lemma NibbleStep0Low(a: Row, x: Row)
    requires x < 16 && LowNibbles(a, 0) == a
    ensures LowNibbles(a | ShiftToNibble(x, 0), 1) == a | ShiftToNibble(x, 0)
  {
  }

  lemma NibbleStep0Nibble0(a: Row, x: Row)
    requires x < 16 && LowNibbles(a, 0) == a
    ensures RowNibble(a | ShiftToNibble(x, 0), 0) == x
  {
  }

  lemma NibbleStep0Nibble1(a: Row, x: Row)
    requires x < 16 && LowNibbles(a, 0) == a
    ensures RowNibble(a | ShiftToNibble(x, 0), 1) == 0
  {
  }

  lemma NibbleStep0Nibble2(a: Row, x: Row)
    requires x < 16 && LowNibbles(a, 0) == a
    ensures RowNibble(a | ShiftToNibble(x, 0), 2) == 0
  {
  }

  lemma NibbleStep0Nibble3(a: Row, x: Row)
    requires x < 16 && LowNibbles(a, 0) == a
    ensures RowNibble(a | ShiftToNibble(x, 0), 3) == 0
  {
  }

  lemma NibbleStep1Low(a: Row, x: Row)
    requires x < 16 && LowNibbles(a, 1) == a
    ensures LowNibbles(a | ShiftToNibble(x, 1), 2) == a | ShiftToNibble(x, 1)
  {
  }

  lemma NibbleStep1Nibble0(a: Row, x: Row)
    requires x < 16 && LowNibbles(a, 1) == a
    ensures RowNibble(a | ShiftToNibble(x, 1), 0) == RowNibble(a, 0)
  {
  }

  lemma NibbleStep1Nibble1(a: Row, x: Row)
    requires x < 16 && LowNibbles(a, 1) == a
    ensures RowNibble(a | ShiftToNibble(x, 1), 1) == x
  {
  }

  lemma NibbleStep1Nibble2(a: Row, x: Row)
    requires x < 16 && LowNibbles(a, 1) == a
    ensures RowNibble(a | ShiftToNibble(x, 1), 2) == 0
  {
  }

  lemma NibbleStep1Nibble3(a: Row, x: Row)
    requires x < 16 && LowNibbles(a, 1) == a
    ensures RowNibble(a | ShiftToNibble(x, 1), 3) == 0
  {
  }

  lemma NibbleStep2Low(a: Row, x: Row)
    requires x < 16 && LowNibbles(a, 2) == a
    ensures LowNibbles(a | ShiftToNibble(x, 2), 3) == a | ShiftToNibble(x, 2)
  {
  }

  lemma NibbleStep2Nibble0(a: Row, x: Row)
    requires x < 16 && LowNibbles(a, 2) == a
    ensures RowNibble(a | ShiftToNibble(x, 2), 0) == RowNibble(a, 0)
  {
  }

  lemma NibbleStep2Nibble1(a: Row, x: Row)
    requires x < 16 && LowNibbles(a, 2) == a
    ensures RowNibble(a | ShiftToNibble(x, 2), 1) == RowNibble(a, 1)
  {
  }

  lemma NibbleStep2Nibble2(a: Row, x: Row)
    requires x < 16 && LowNibbles(a, 2) == a
    ensures RowNibble(a | ShiftToNibble(x, 2), 2) == x
  {
  }

  lemma NibbleStep2Nibble3(a: Row, x: Row)
    requires x < 16 && LowNibbles(a, 2) == a
    ensures RowNibble(a | ShiftToNibble(x, 2), 3) == 0
  {
  }

  lemma NibbleStep3Low(a: Row, x: Row)
    requires x < 16 && LowNibbles(a, 3) == a
    ensures LowNibbles(a | ShiftToNibble(x, 3), 4) == a | ShiftToNibble(x, 3)
  {
  }

  lemma NibbleStep3Nibble0(a: Row, x: Row)
    requires x < 16 && LowNibbles(a, 3) == a
    ensures RowNibble(a | ShiftToNibble(x, 3), 0) == RowNibble(a, 0)
  {
  }

  lemma NibbleStep3Nibble1(a: Row, x: Row)
    requires x < 16 && LowNibbles(a, 3) == a
    ensures RowNibble(a | ShiftToNibble(x, 3), 1) == RowNibble(a, 1)
  {
  }

  lemma NibbleStep3Nibble2(a: Row, x: Row)
    requires x < 16 && LowNibbles(a, 3) == a
    ensures RowNibble(a | ShiftToNibble(x, 3), 2) == RowNibble(a, 2)
  {
  }

  lemma NibbleStep3Nibble3(a: Row, x: Row)
    requires x < 16 && LowNibbles(a, 3) == a
    ensures RowNibble(a | ShiftToNibble(x, 3), 3) == x
  {
  }

  lemma PackLow0(tiles: seq<nat>)
    requires |tiles| == 4 && NibbleTiles(tiles)
    ensures U16Tiles(tiles) && LowNibbles(PackUpTo(tiles, 0), 0) == PackUpTo(tiles, 0)
  {
  }

  lemma PackLow1(tiles: seq<nat>)
    requires |tiles| == 4 && NibbleTiles(tiles)
    ensures U16Tiles(tiles) && LowNibbles(PackUpTo(tiles, 1), 1) == PackUpTo(tiles, 1)
  {
    PackLow0(tiles);
    TileBitsValue(tiles[0]);
    NibbleStep0Low(PackUpTo(tiles, 0), TileBits(tiles[0]));
  }

  lemma PackLow2(tiles: seq<nat>)
    requires |tiles| == 4 && NibbleTiles(tiles)
    ensures U16Tiles(tiles) && LowNibbles(PackUpTo(tiles, 2), 2) == PackUpTo(tiles, 2)
  {
    PackLow1(tiles);
    TileBitsValue(tiles[1]);
    NibbleStep1Low(PackUpTo(tiles, 1), TileBits(tiles[1]));
  }

  lemma PackLow3(tiles: seq<nat>)
    requires |tiles| == 4 && NibbleTiles(tiles)
    ensures U16Tiles(tiles) && LowNibbles(PackUpTo(tiles, 3), 3) == PackUpTo(tiles, 3)
  {
    PackLow2(tiles);
    TileBitsValue(tiles[2]);
    NibbleStep2Low(PackUpTo(tiles, 2), TileBits(tiles[2]));
  }

  lemma PackLow4(tiles: seq<nat>)
    requires |tiles| == 4 && NibbleTiles(tiles)
    ensures U16Tiles(tiles) && LowNibbles(PackUpTo(tiles, 4), 4) == PackUpTo(tiles, 4)
  {
    PackLow3(tiles);
    TileBitsValue(tiles[3]);
    NibbleStep3Low(PackUpTo(tiles, 3), TileBits(tiles[3]));
  }

  lemma PackNibble1At0(tiles: seq<nat>)
    requires |tiles| == 4 && NibbleTiles(tiles)
    ensures U16Tiles(tiles) && RowNibble(PackUpTo(tiles, 1), 0) == TileBits(tiles[0])
  {
    PackLow0(tiles);
    TileBitsValue(tiles[0]);
    NibbleStep0Nibble0(PackUpTo(tiles, 0), TileBits(tiles[0]));
  }

  lemma PackNibble1At1(tiles: seq<nat>)
    requires |tiles| == 4 && NibbleTiles(tiles)
    ensures U16Tiles(tiles) && RowNibble(PackUpTo(tiles, 1), 1) == 0
  {
    PackLow0(tiles);
    TileBitsValue(tiles[0]);
    NibbleStep0Nibble1(PackUpTo(tiles, 0), TileBits(tiles[0]));
  }

  lemma PackNibble1At2(tiles: seq<nat>)
    requires |tiles| == 4 && NibbleTiles(tiles)
    ensures U16Tiles(tiles) && RowNibble(PackUpTo(tiles, 1), 2) == 0
  {
    PackLow0(tiles);
    TileBitsValue(tiles[0]);
    NibbleStep0Nibble2(PackUpTo(tiles, 0), TileBits(tiles[0]));
  }

  lemma PackNibble1At3(tiles: seq<nat>)
    requires |tiles| == 4 && NibbleTiles(tiles)
    ensures U16Tiles(tiles) && RowNibble(PackUpTo(tiles, 1), 3) == 0
  {
    PackLow0(tiles);
    TileBitsValue(tiles[0]);
    NibbleStep0Nibble3(PackUpTo(tiles, 0), TileBits(tiles[0]));
  }

  lemma PackNibble2At0(tiles: seq<nat>)
    requires |tiles| == 4 && NibbleTiles(tiles)
    ensures U16Tiles(tiles) && RowNibble(PackUpTo(tiles, 2), 0) == TileBits(tiles[0])
  {
    PackLow1(tiles);
    PackNibble1At0(tiles);
    TileBitsValue(tiles[1]);
    NibbleStep1Nibble0(PackUpTo(tiles, 1), TileBits(tiles[1]));
  }

  lemma PackNibble2At1(tiles: seq<nat>)
    requires |tiles| == 4 && NibbleTiles(tiles)
    ensures U16Tiles(tiles) && RowNibble(PackUpTo(tiles, 2), 1) == TileBits(tiles[1])
  {
    PackLow1(tiles);
    TileBitsValue(tiles[1]);
    NibbleStep1Nibble1(PackUpTo(tiles, 1), TileBits(tiles[1]));
  }

  lemma PackNibble2At2(tiles: seq<nat>)
    requires |tiles| == 4 && NibbleTiles(tiles)
    ensures U16Tiles(tiles) && RowNibble(PackUpTo(tiles, 2), 2) == 0
  {
    PackLow1(tiles);
    TileBitsValue(tiles[1]);
    NibbleStep1Nibble2(PackUpTo(tiles, 1), TileBits(tiles[1]));
  }

  lemma PackNibble2At3(tiles: seq<nat>)
    requires |tiles| == 4 && NibbleTiles(tiles)
    ensures U16Tiles(tiles) && RowNibble(PackUpTo(tiles, 2), 3) == 0
  {
    PackLow1(tiles);
    TileBitsValue(tiles[1]);
    NibbleStep1Nibble3(PackUpTo(tiles, 1), TileBits(tiles[1]));
  }

  lemma PackNibble3At0(tiles: seq<nat>)
    requires |tiles| == 4 && NibbleTiles(tiles)
    ensures U16Tiles(tiles) && RowNibble(PackUpTo(tiles, 3), 0) == TileBits(tiles[0])
  {
    PackLow2(tiles);
    PackNibble2At0(tiles);
    TileBitsValue(tiles[2]);
    NibbleStep2Nibble0(PackUpTo(tiles, 2), TileBits(tiles[2]));
  }

  lemma PackNibble3At1(tiles: seq<nat>)
    requires |tiles| == 4 && NibbleTiles(tiles)
    ensures U16Tiles(tiles) && RowNibble(PackUpTo(tiles, 3), 1) == TileBits(tiles[1])
  {
    PackLow2(tiles);
    PackNibble2At1(tiles);
    TileBitsValue(tiles[2]);
    NibbleStep2Nibble1(PackUpTo(tiles, 2), TileBits(tiles[2]));
  }

  lemma PackNibble3At2(tiles: seq<nat>)
    requires |tiles| == 4 && NibbleTiles(tiles)
    ensures U16Tiles(tiles) && RowNibble(PackUpTo(tiles, 3), 2) == TileBits(tiles[2])
  {
    PackLow2(tiles);
    TileBitsValue(tiles[2]);
    NibbleStep2Nibble2(PackUpTo(tiles, 2), TileBits(tiles[2]));
  }

  lemma PackNibble3At3(tiles: seq<nat>)
    requires |tiles| == 4 && NibbleTiles(tiles)
    ensures U16Tiles(tiles) && RowNibble(PackUpTo(tiles, 3), 3) == 0
  {
    PackLow2(tiles);
    TileBitsValue(tiles[2]);
    NibbleStep2Nibble3(PackUpTo(tiles, 2), TileBits(tiles[2]));
  }

  lemma PackNibble4At0(tiles: seq<nat>)
    requires |tiles| == 4 && NibbleTiles(tiles)
    ensures U16Tiles(tiles) && RowNibble(PackUpTo(tiles, 4), 0) == TileBits(tiles[0])
  {
    PackLow3(tiles);
    PackNibble3At0(tiles);
    TileBitsValue(tiles[3]);
    NibbleStep3Nibble0(PackUpTo(tiles, 3), TileBits(tiles[3]));
  }

  lemma PackNibble4At1(tiles: seq<nat>)
    requires |tiles| == 4 && NibbleTiles(tiles)
    ensures U16Tiles(tiles) && RowNibble(PackUpTo(tiles, 4), 1) == TileBits(tiles[1])
  {
    PackLow3(tiles);
    PackNibble3At1(tiles);
    TileBitsValue(tiles[3]);
    NibbleStep3Nibble1(PackUpTo(tiles, 3), TileBits(tiles[3]));
  }

  lemma PackNibble4At2(tiles: seq<nat>)
    requires |tiles| == 4 && NibbleTiles(tiles)
    ensures U16Tiles(tiles) && RowNibble(PackUpTo(tiles, 4), 2) == TileBits(tiles[2])
  {
    PackLow3(tiles);
    PackNibble3At2(tiles);
    TileBitsValue(tiles[3]);
    NibbleStep3Nibble2(PackUpTo(tiles, 3), TileBits(tiles[3]));
  }

  lemma PackNibble4At3(tiles: seq<nat>)
    requires |tiles| == 4 && NibbleTiles(tiles)
    ensures U16Tiles(tiles) && RowNibble(PackUpTo(tiles, 4), 3) == TileBits(tiles[3])
  {
    PackLow3(tiles);
    TileBitsValue(tiles[3]);
    NibbleStep3Nibble3(PackUpTo(tiles, 3), TileBits(tiles[3]));
  }

  /** Unpacking the packed row of four nibble tiles gives the tiles back. */
  lemma PackUnpack(tiles: seq<nat>)
    requires |tiles| == 4 && NibbleTiles(tiles)
    ensures U16Tiles(tiles) && Unpack(Pack(tiles)) == tiles
  {
    PackNibble4At0(tiles);
    PackNibble4At1(tiles);
    PackNibble4At2(tiles);
    PackNibble4At3(tiles);
    TileBitsValue(tiles[0]);
    TileBitsValue(tiles[1]);
    TileBitsValue(tiles[2]);
    TileBitsValue(tiles[3]);
  }


  // ---------------------------------------------------------------- properties of the left slide

  /** Merging never raises a tile past one more than the largest input tile. */
  lemma {:induction false} MergeBounded(c: seq<nat>, m: nat)
    requires forall k | 0 <= k < |c| :: c[k] < m
    ensures forall k | 0 <= k < |Merge(c)| :: Merge(c)[k] <= m
  {
    if |c| > 1 {
      if c[0] == c[1] {
        MergeBounded(c[2..], m);
      } else {
        MergeBounded(c[1..], m);
      }
    }
  }

  /** The left slide of nibble tiles holds tiles of at most 16, and nibbles when no tile is 15. */
  lemma SlideLeftBounded(tiles: seq<nat>)
    requires |tiles| == 4 && NibbleTiles(tiles)
    ensures U16Tiles(SlideLeft(tiles)) && forall k | 0 <= k < 4 :: SlideLeft(tiles)[k] <= 16
    ensures MergeableTiles(tiles) ==> NibbleTiles(SlideLeft(tiles))
  {
    CompactTiles(tiles);
    var c := Compact(tiles);
    MergeBounded(c, 16);
    if MergeableTiles(tiles) {
      MergeBounded(c, 15);
    }
    forall k | 0 <= k < 4
      ensures SlideLeft(tiles)[k] <= 16
      ensures MergeableTiles(tiles) ==> SlideLeft(tiles)[k] < 16
    {
      PadIndex(Merge(c), k);
    }
  }

  /** The sum of the face values 2^e of the non-empty tiles. */
  function TileMass(s: seq<nat>): nat
  {
    if |s| == 0 then 0 else (if s[0] != 0 then Pow2(s[0]) else 0) + TileMass(s[1..])
  }

  lemma {:induction false} TileMassAppend(x: seq<nat>, y: seq<nat>)
    ensures TileMass(x + y) == TileMass(x) + TileMass(y)
  {
    if |x| > 0 {
      assert (x + y)[1..] == x[1..] + y;
      TileMassAppend(x[1..], y);
    } else {
      assert x + y == y;
    }
  }

  lemma {:induction false} CompactMass(s: seq<nat>)
    ensures TileMass(Compact(s)) == TileMass(s)
  {
    if |s| > 0 {
      var last := s[|s| - 1];
      CompactMass(s[..|s| - 1]);
      TileMassAppend(Compact(s[..|s| - 1]), if last != 0 then [last] else []);
      TileMassAppend(s[..|s| - 1], [last]);
      assert s[..|s| - 1] + [last] == s;
    }
  }

  lemma {:induction false} MergeMass(c: seq<nat>)
    requires forall k | 0 <= k < |c| :: c[k] != 0
    ensures TileMass(Merge(c)) == TileMass(c)
  {
    if |c| > 1 {
      if c[0] == c[1] {
        MergeMass(c[2..]);
        assert c[1..][1..] == c[2..];
        assert ([c[0] + 1] + Merge(c[2..]))[1..] == Merge(c[2..]);
      } else {
        MergeMass(c[1..]);
        assert ([c[0]] + Merge(c[1..]))[1..] == Merge(c[1..]);
      }
    }
  }

  lemma {:induction false} ZerosMass(n: nat)
    ensures TileMass(seq(n, _ => 0)) == 0
  {
    if n > 0 {
      assert seq(n, _ => 0)[1..] == seq(n - 1, _ => 0);
      ZerosMass(n - 1);
    }
  }

  /** A left slide neither creates nor destroys face value: merging 2^e and 2^e gives 2^(e+1). */
  lemma SlideLeftMass(tiles: seq<nat>)
    requires |tiles| == 4
    ensures TileMass(SlideLeft(tiles)) == TileMass(tiles)
  {
    var c := Compact(tiles);
    CompactTiles(tiles);
    CompactMass(tiles);
    MergeMass(c);
    TileMassAppend(Merge(c), seq(4 - |Merge(c)|, _ => 0));
    ZerosMass(4 - |Merge(c)|);
  }

  /** No two neighbours are equal, so the merge pass has nothing to merge. */
  predicate NoEqualNeighbours(c: seq<nat>)
  {
    forall k | 0 <= k < |c| - 1 :: c[k] != c[k + 1]
  }

  /** The merge pass scores nothing exactly when no two neighbours are equal, and then keeps its input. */
  lemma {:induction false} MergeScoreZero(c: seq<nat>)
    ensures MergeScore(c) == 0 <==> NoEqualNeighbours(c)
    ensures NoEqualNeighbours(c) ==> Merge(c) == c
  {
    if |c| > 1 {
      MergeScoreZero(c[1..]);
      if c[0] == c[1] {
        assert !NoEqualNeighbours(c) by {
          assert c[0] == c[0 + 1];
        }
      } else {
        assert NoEqualNeighbours(c) <==> NoEqualNeighbours(c[1..]) by {
          if NoEqualNeighbours(c[1..]) {
            forall k | 0 <= k < |c| - 1
              ensures c[k] != c[k + 1]
            {
              if k > 0 {
                assert c[1..][k - 1] == c[k];
              }
            }
          }
          if NoEqualNeighbours(c) {
            forall k | 0 <= k < |c[1..]| - 1
              ensures c[1..][k] != c[1..][k + 1]
            {
              assert c[k + 1] != c[k + 2];
            }
          }
        }
        assert [c[0]] + c[1..] == c;
      }
    }
  }

  lemma {:induction false} CompactFull(s: seq<nat>)
    requires forall k | 0 <= k < |s| :: s[k] != 0
    ensures Compact(s) == s
  {
    if |s| > 0 {
      CompactFull(s[..|s| - 1]);
      assert s[..|s| - 1] + [s[|s| - 1]] == s;
    }
  }

  /** A full row with no equal neighbours does not move and scores nothing. */
  lemma FullRowStays(tiles: seq<nat>)
    requires |tiles| == 4 && forall k | 0 <= k < 4 :: tiles[k] != 0
    requires NoEqualNeighbours(tiles)
    ensures SlideLeft(tiles) == tiles && SlideScore(tiles) == 0
  {
    CompactFull(tiles);
    MergeScoreZero(tiles);
  }

  // ---------------------------------------------------------------- reversal

  /** s in the opposite order. */
  function Rev(s: seq<nat>): (r: seq<nat>)
    ensures |r| == |s| && forall k | 0 <= k < |s| :: r[k] == s[|s| - 1 - k]
  {
    if |s| == 0 then [] else [s[|s| - 1]] + Rev(s[..|s| - 1])
  }

  lemma {:induction false} CompactRev(s: seq<nat>)
    ensures Compact(Rev(s)) == Rev(Compact(s))
  {
    if |s| > 0 {
      var last := s[|s| - 1];
      var init := s[..|s| - 1];
      var opt := if last != 0 then [last] else [];
      CompactRev(init);
      CompactAppend([last], Rev(init));
      assert Compact([last]) == opt by {
        assert [last][..0] == [];
      }
      assert Rev(s) == [last] + Rev(init);
      if last != 0 {
        assert (Compact(init) + [last])[..|Compact(init)|] == Compact(init);
      } else {
        assert Compact(init) + opt == Compact(init);
      }
    }
  }

  lemma {:induction false} CompactAppend(x: seq<nat>, y: seq<nat>)
    ensures Compact(x + y) == Compact(x) + Compact(y)
  {
    if |y| > 0 {
      var last := y[|y| - 1];
      CompactAppend(x, y[..|y| - 1]);
      assert (x + y)[..|x + y| - 1] == x + y[..|y| - 1];
    } else {
      assert x + y == x;
    }
  }

  lemma MergeScore2(c: seq<nat>)
    requires |c| == 2
    ensures MergeScore(c) == if c[0] == c[1] then Pow2(c[0] + 1) else 0
  {
    assert c[2..] == [] && |c[1..]| == 1;
  }

  lemma MergeScore3(c: seq<nat>)
    requires |c| == 3
    ensures MergeScore(c) ==
      if c[0] == c[1] then Pow2(c[0] + 1) else if c[1] == c[2] then Pow2(c[1] + 1) else 0
  {
    assert |c[2..]| == 1;
    MergeScore2(c[1..]);
  }

  /** The merge pass of four tiles scores the first pair and the last pair, or the middle pair. */
  lemma MergeScore4(c: seq<nat>)
    requires |c| == 4
    ensures MergeScore(c) ==
      if c[0] == c[1] then Pow2(c[0] + 1) + (if c[2] == c[3] then Pow2(c[2] + 1) else 0)
      else if c[1] == c[2] then Pow2(c[1] + 1)
      else if c[2] == c[3] then Pow2(c[2] + 1) else 0
  {
    MergeScore2(c[2..]);
    MergeScore3(c[1..]);
  }

  /** For at most four tiles the merge pass scores the same in both directions. */
  lemma MergeScoreRev(c: seq<nat>)
    requires |c| <= 4
    ensures MergeScore(Rev(c)) == MergeScore(c)
  {
    if |c| == 4 {
      MergeScore4(c);
      MergeScore4(Rev(c));
    } else if |c| == 3 {
      MergeScore3(c);
      MergeScore3(Rev(c));
    } else if |c| == 2 {
      assert c[2..] == [] && Rev(c)[2..] == [];
    }
  }

  /** Sliding the reversed row scores the same as sliding the row. */
  lemma SlideScoreRev(tiles: seq<nat>)
    requires |tiles| == 4
    ensures SlideScore(Rev(tiles)) == SlideScore(tiles)
  {
    CompactRev(tiles);
    MergeScoreRev(Compact(tiles));
  }

  /** The tiles of a reversed row are the row's tiles in the opposite order. */
  lemma UnpackReverse(row: Row)
    ensures Unpack(ReverseRow(row)) == Rev(Unpack(row))
  {
    ReverseRowNibbles(row);
  }

  // ---------------------------------------------------------------- the tables

  /** The row a left move turns `row` into, by the reference slide. */
  function LeftRow(row: Row): Row
  {
    SlideLeftBounded(Unpack(row));
    Pack(SlideLeft(Unpack(row)))
  }

  /** The score of a left move of `row`, by the reference slide. */
  function LeftScore(row: Row): nat
  {
    SlideScore(Unpack(row))
  }

  /** When no tile of the row is 15, the packed result holds exactly the slid tiles. */
  lemma LeftRowTiles(row: Row)
    requires MergeableTiles(Unpack(row))
    ensures Unpack(LeftRow(row)) == SlideLeft(Unpack(row))
  {
    SlideLeftBounded(Unpack(row));
    PackUnpack(SlideLeft(Unpack(row)));
  }

  /** A left move and a right move of the same row score the same. */
  lemma LeftScoreReverse(row: Row)
    ensures LeftScore(ReverseRow(row)) == LeftScore(row)
  {
    UnpackReverse(row);
    SlideScoreRev(Unpack(row));
  }

  /** The body of the fill loop for one row: unpack it, slide and merge, pack the result. */
  method LeftOfRow(row: Row) returns (resultRow: Row, score: nat)
    ensures resultRow == LeftRow(row) && score == LeftScore(row)
  {
    var tiles := Unpack(row);
    var newTiles;
    newTiles, score := SlideAndMerge(tiles);
    SlideLeftBounded(tiles);
    resultRow := PackTiles(newTiles);
  }

  /** The move half of the fill loop. */
  method BuildLeftTable() returns (left: array<Row>)
    ensures fresh(left) && left.Length == 0x1_0000
    ensures forall j | 0 <= j < 0x1_0000 :: left[j] == LeftRow(j as Row)
  {
    left := new Row[0x1_0000];
    var i := 0;
    while i < 0x1_0000
      invariant 0 <= i <= 0x1_0000
      invariant forall j | 0 <= j < i :: left[j] == LeftRow(j as Row)
    {
      var resultRow, _ := LeftOfRow(i as Row);
      left[i] := resultRow;
      assert forall j | 0 <= j <= i :: left[j] == LeftRow(j as Row);
      i := i + 1;
    }
  }

  /** The score half of the fill loop. */
  method BuildScoreTable() returns (scores: array<nat>)
    ensures fresh(scores) && scores.Length == 0x1_0000
    ensures forall j | 0 <= j < 0x1_0000 :: scores[j] == LeftScore(j as Row)
  {
    scores := new nat[0x1_0000];
    var i := 0;
    while i < 0x1_0000
      invariant 0 <= i <= 0x1_0000
      invariant forall j | 0 <= j < i :: scores[j] == LeftScore(j as Row)
    {
      var _, score := LeftOfRow(i as Row);
      scores[i] := score;
      assert forall j | 0 <= j <= i :: scores[j] == LeftScore(j as Row);
      i := i + 1;
    }
  }

  /** A table filled by index is a table indexed by row. */
  lemma RowIndexed<T>(a: array<T>, f: Row -> T)
    requires a.Length == 0x1_0000 && forall j | 0 <= j < 0x1_0000 :: a[j] == f(j as Row)
    ensures forall row: Row :: a[row as int] == f(row)
  {
    forall row: Row
      ensures a[row as int] == f(row)
    {
      assert (row as int) as Row == row;
    }
  }

  /** The tables of `MoveTables`: the left move and its score for every one of the 65536 rows. */
  class MoveTables {
    var moveLeftTable: array<Row>
    var scoreTable: array<nat>

    ghost predicate Valid()
      reads this, moveLeftTable, scoreTable
    {
      moveLeftTable.Length == 0x1_0000 && scoreTable.Length == 0x1_0000
      && (forall row: Row :: moveLeftTable[row as int] == LeftRow(row))
      && (forall row: Row :: scoreTable[row as int] == LeftScore(row))
    }

    /** `MoveTables::new`: fills the move table and the score table for every row. */
    constructor ()
      ensures Valid() && fresh(moveLeftTable) && fresh(scoreTable)
    {
      var left := BuildLeftTable();
      var scores := BuildScoreTable();
      RowIndexed(left, LeftRow);
      RowIndexed(scores, LeftScore);
      moveLeftTable := left;
      scoreTable := scores;
    }

    /** `move_left`: the table entries for the row. */
    function MoveLeft(row: Row): (r: (Row, nat))
      requires Valid()
      reads this, moveLeftTable, scoreTable
      ensures r.0 == LeftRow(row) && r.1 == LeftScore(row)
    {
      (moveLeftTable[row as int], scoreTable[row as int])
    }

    /** `move_right`: the left move of the reversed row, reversed back, with the same score as a left move. */
    function MoveRight(row: Row): (r: (Row, nat))
      requires Valid()
      reads this, moveLeftTable, scoreTable
      ensures r.0 == ReverseRow(LeftRow(ReverseRow(row))) && r.1 == LeftScore(row)
    {
      LeftScoreReverse(row);
      var (newRow, score) := MoveLeft(ReverseRow(row));
      (ReverseRow(newRow), score)
    }
  }

  // ---------------------------------------------------------------- the tests of tables.rs

  /** The cells of x that are not empty: nothing or x itself. */
  function Kept(x: nat): (k: seq<nat>)
    ensures |k| <= 1
  {
    if x != 0 then [x] else []
  }

  lemma Compact4(t: seq<nat>)
    requires |t| == 4
    ensures Compact(t) == Kept(t[0]) + Kept(t[1]) + Kept(t[2]) + Kept(t[3])
  {
    assert t[..3][..2] == t[..2] && t[..2][..1] == t[..1] && t[..1][..0] == [];
    assert Compact(t[..1]) == Kept(t[0]);
    assert Compact(t[..2]) == Kept(t[0]) + Kept(t[1]);
  }

  lemma Merge2(c: seq<nat>)
    requires |c| == 2
    ensures Merge(c) == if c[0] == c[1] then [c[0] + 1] else c
  {
    assert c[2..] == [] && c[1..] == [c[1]];
  }

  lemma Merge3(c: seq<nat>)
    requires |c| == 3
    ensures Merge(c) == if c[0] == c[1] then [c[0] + 1, c[2]] else [c[0]] + Merge(c[1..])
  {
    assert c[2..] == [c[2]];
  }

  lemma Merge4(c: seq<nat>)
    requires |c| == 4
    ensures Merge(c) == if c[0] == c[1] then [c[0] + 1] + Merge(c[2..]) else [c[0]] + Merge(c[1..])
  {
  }

  // Each row of the tests: its tiles slide to the expected tiles, so the row moves to the expected row.

  lemma SlideExample1234()
    ensures SlideLeft([1, 2, 3, 4]) == [1, 2, 3, 4] && SlideScore([1, 2, 3, 4]) == 0
  {
    Compact4([1, 2, 3, 4]);
    Merge4([1, 2, 3, 4]);
    Merge3([2, 3, 4]);
    Merge2([3, 4]);
    MergeScore4([1, 2, 3, 4]);
  }
  lemma LeftRowExample4321()
    ensures LeftRow(0x4321) == 0x4321 && LeftScore(0x4321) == 0
  {
    PackUnpack([1, 2, 3, 4]);
    assert Pack([1, 2, 3, 4]) == 0x4321;
    SlideExample1234();
    assert Pack([1, 2, 3, 4]) == 0x4321;
  }
  lemma SlideExample1002()
    ensures SlideLeft([1, 0, 0, 2]) == [1, 2, 0, 0] && SlideScore([1, 0, 0, 2]) == 0
  {
    Compact4([1, 0, 0, 2]);
    Merge2([1, 2]);
    MergeScore2([1, 2]);
  }
  lemma LeftRowExample2001()
    ensures LeftRow(0x2001) == 0x0021 && LeftScore(0x2001) == 0
  {
    PackUnpack([1, 0, 0, 2]);
    assert Pack([1, 0, 0, 2]) == 0x2001;
    SlideExample1002();
    assert Pack([1, 2, 0, 0]) == 0x0021;
  }
  lemma SlideExample1100()
    ensures SlideLeft([1, 1, 0, 0]) == [2, 0, 0, 0] && SlideScore([1, 1, 0, 0]) == 4
  {
    Compact4([1, 1, 0, 0]);
    Merge2([1, 1]);
    MergeScore2([1, 1]);
  }
  lemma LeftRowExample0011()
    ensures LeftRow(0x0011) == 0x0002 && LeftScore(0x0011) == 4
  {
    PackUnpack([1, 1, 0, 0]);
    assert Pack([1, 1, 0, 0]) == 0x0011;
    SlideExample1100();
    assert Pack([2, 0, 0, 0]) == 0x0002;
  }
  lemma SlideExample2222()
    ensures SlideLeft([2, 2, 2, 2]) == [3, 3, 0, 0] && SlideScore([2, 2, 2, 2]) == 16
  {
    Compact4([2, 2, 2, 2]);
    Merge4([2, 2, 2, 2]);
    Merge2([2, 2]);
    MergeScore4([2, 2, 2, 2]);
  }
  lemma LeftRowExample2222()
    ensures LeftRow(0x2222) == 0x0033 && LeftScore(0x2222) == 16
  {
    PackUnpack([2, 2, 2, 2]);
    assert Pack([2, 2, 2, 2]) == 0x2222;
    SlideExample2222();
    assert Pack([3, 3, 0, 0]) == 0x0033;
  }
  lemma SlideExample0112()
    ensures SlideLeft([0, 1, 1, 2]) == [2, 2, 0, 0] && SlideScore([0, 1, 1, 2]) == 4
  {
    Compact4([0, 1, 1, 2]);
    Merge3([1, 1, 2]);
    MergeScore3([1, 1, 2]);
  }
  lemma LeftRowExample2110()
    ensures LeftRow(0x2110) == 0x0022 && LeftScore(0x2110) == 4
  {
    PackUnpack([0, 1, 1, 2]);
    assert Pack([0, 1, 1, 2]) == 0x2110;
    SlideExample0112();
    assert Pack([2, 2, 0, 0]) == 0x0022;
  }
  lemma SlideExample1122()
    ensures SlideLeft([1, 1, 2, 2]) == [2, 3, 0, 0] && SlideScore([1, 1, 2, 2]) == 12
  {
    Compact4([1, 1, 2, 2]);
    Merge4([1, 1, 2, 2]);
    Merge2([2, 2]);
    MergeScore4([1, 1, 2, 2]);
  }
  lemma LeftRowExample2211()
    ensures LeftRow(0x2211) == 0x0032 && LeftScore(0x2211) == 12
  {
    PackUnpack([1, 1, 2, 2]);
    assert Pack([1, 1, 2, 2]) == 0x2211;
    SlideExample1122();
    assert Pack([2, 3, 0, 0]) == 0x0032;
  }
  lemma SlideExample4321()
    ensures SlideLeft([4, 3, 2, 1]) == [4, 3, 2, 1] && SlideScore([4, 3, 2, 1]) == 0
  {
    Compact4([4, 3, 2, 1]);
    Merge4([4, 3, 2, 1]);
    Merge3([3, 2, 1]);
    Merge2([2, 1]);
    MergeScore4([4, 3, 2, 1]);
  }
  lemma LeftRowExample1234()
    ensures LeftRow(0x1234) == 0x1234 && LeftScore(0x1234) == 0
  {
    PackUnpack([4, 3, 2, 1]);
    assert Pack([4, 3, 2, 1]) == 0x1234;
    SlideExample4321();
    assert Pack([4, 3, 2, 1]) == 0x1234;
  }
  lemma SlideExample2001()
    ensures SlideLeft([2, 0, 0, 1]) == [2, 1, 0, 0] && SlideScore([2, 0, 0, 1]) == 0
  {
    Compact4([2, 0, 0, 1]);
    Merge2([2, 1]);
    MergeScore2([2, 1]);
  }
  lemma LeftRowExample1002()
    ensures LeftRow(0x1002) == 0x0012 && LeftScore(0x1002) == 0
  {
    PackUnpack([2, 0, 0, 1]);
    assert Pack([2, 0, 0, 1]) == 0x1002;
    SlideExample2001();
    assert Pack([2, 1, 0, 0]) == 0x0012;
  }
  lemma SlideExample2211()
    ensures SlideLeft([2, 2, 1, 1]) == [3, 2, 0, 0] && SlideScore([2, 2, 1, 1]) == 12
  {
    Compact4([2, 2, 1, 1]);
    Merge4([2, 2, 1, 1]);
    Merge2([1, 1]);
    MergeScore4([2, 2, 1, 1]);
  }
  lemma LeftRowExample1122()
    ensures LeftRow(0x1122) == 0x0023 && LeftScore(0x1122) == 12
  {
    PackUnpack([2, 2, 1, 1]);
    assert Pack([2, 2, 1, 1]) == 0x1122;
    SlideExample2211();
    assert Pack([3, 2, 0, 0]) == 0x0023;
  }
  lemma SlideExample2200()
    ensures SlideLeft([2, 2, 0, 0]) == [3, 0, 0, 0] && SlideScore([2, 2, 0, 0]) == 8
  {
    Compact4([2, 2, 0, 0]);
    Merge2([2, 2]);
    MergeScore2([2, 2]);
  }
  lemma LeftRowExample0022()
    ensures LeftRow(0x0022) == 0x0003 && LeftScore(0x0022) == 8
  {
    PackUnpack([2, 2, 0, 0]);
    assert Pack([2, 2, 0, 0]) == 0x0022;
    SlideExample2200();
    assert Pack([3, 0, 0, 0]) == 0x0003;
  }
  lemma SlideExample0000()
    ensures SlideLeft([0, 0, 0, 0]) == [0, 0, 0, 0] && SlideScore([0, 0, 0, 0]) == 0
  {
    Compact4([0, 0, 0, 0]);
  }
  lemma LeftRowExample0000()
    ensures LeftRow(0x0000) == 0x0000 && LeftScore(0x0000) == 0
  {
    PackUnpack([0, 0, 0, 0]);
    assert Pack([0, 0, 0, 0]) == 0x0000;
    SlideExample0000();
    assert Pack([0, 0, 0, 0]) == 0x0000;
  }
  lemma SlideExample0022()
    ensures SlideLeft([0, 0, 2, 2]) == [3, 0, 0, 0] && SlideScore([0, 0, 2, 2]) == 8
  {
    Compact4([0, 0, 2, 2]);
    Merge2([2, 2]);
    MergeScore2([2, 2]);
  }
  lemma LeftRowExample2200()
    ensures LeftRow(0x2200) == 0x0003 && LeftScore(0x2200) == 8
  {
    PackUnpack([0, 0, 2, 2]);
    assert Pack([0, 0, 2, 2]) == 0x2200;
    SlideExample0022();
    assert Pack([3, 0, 0, 0]) == 0x0003;
  }
  lemma SlideExample0011()
    ensures SlideLeft([0, 0, 1, 1]) == [2, 0, 0, 0] && SlideScore([0, 0, 1, 1]) == 4
  {
    Compact4([0, 0, 1, 1]);
    Merge2([1, 1]);
    MergeScore2([1, 1]);
  }
  lemma LeftRowExample1100()
    ensures LeftRow(0x1100) == 0x0002 && LeftScore(0x1100) == 4
  {
    PackUnpack([0, 0, 1, 1]);
    assert Pack([0, 0, 1, 1]) == 0x1100;
    SlideExample0011();
    assert Pack([2, 0, 0, 0]) == 0x0002;
  }

  /** The cases of `test_move_left`: for a valid table, `MoveLeft` returns the expected row and score. */
  lemma MoveLeftTests(tables: MoveTables)
    requires tables.Valid()
    ensures
      tables.MoveLeft(0x4321) == (0x4321, 0)
      && tables.MoveLeft(0x2001) == (0x0021, 0)
      && tables.MoveLeft(0x0011) == (0x0002, 4)
      && tables.MoveLeft(0x2222) == (0x0033, 16)
      && tables.MoveLeft(0x2110) == (0x0022, 4)
      && tables.MoveLeft(0x2211) == (0x0032, 12)
  {
    LeftRowExample4321();
    LeftRowExample2001();
    LeftRowExample0011();
    LeftRowExample2222();
    LeftRowExample2110();
    LeftRowExample2211();
  }

  /** The cases of `test_move_right`: the reversed left move of the reversed row, with the left move's score. */
  lemma MoveRightTests(tables: MoveTables)
    requires tables.Valid()
    ensures
      tables.MoveRight(0x4321) == (0x4321, 0)
      && tables.MoveRight(0x2001) == (0x2100, 0)
      && tables.MoveRight(0x1100) == (0x2000, 4)
      && tables.MoveRight(0x2211) == (0x3200, 12)
  {
    assert ReverseRow(0x4321) == 0x1234 && ReverseRow(0x1234) == 0x4321;
    LeftRowExample1234();
    LeftScoreReverse(0x4321);
    assert ReverseRow(0x2001) == 0x1002 && ReverseRow(0x0012) == 0x2100;
    LeftRowExample1002();
    LeftScoreReverse(0x2001);
    assert ReverseRow(0x1100) == 0x0011 && ReverseRow(0x0002) == 0x2000;
    LeftRowExample0011();
    LeftScoreReverse(0x1100);
    assert ReverseRow(0x2211) == 0x1122 && ReverseRow(0x0023) == 0x3200;
    LeftRowExample1122();
    LeftScoreReverse(0x2211);
  }
}
