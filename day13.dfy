/** Day 13: blocks of `.`/`#` cells separated by blank lines; each block has a line of
    reflection between two rows or two columns. Part one wants a perfect mirror, part two a
    mirror with exactly one cell (the smudge) out of place. */
module Day13 {
  import opened Common
  import opened CharGrid

  type Block = seq<seq<char>>

  predicate IsCell(c: char) { c == '.' || c == '#' || c == '?' }

  // ---------------------------------------------------------------------------------------
  // Parsing: `many1(parse_block)`, a block being a grid followed by `many0(newline)`.

  /** `parse_block`: one or more rows of cells, then any blank lines. */
  function ParseBlock(s: seq<char>): (r: Option<(Block, seq<char>)>)
    ensures r.Some? ==> r.value.0 != [] && Rows(r.value.0, IsCell) && |r.value.1| < |s|
  {
    match ParseGrid(s, IsCell)
    case None => None
    case Some((rows, rest)) => Some((rows, SkipNewlines(rest)))
  }

  predicate AllBlocks(bs: seq<Block>)
  {
    forall k | 0 <= k < |bs| :: bs[k] != [] && Rows(bs[k], IsCell)
  }

  lemma ConsBlock(b: Block, bs: seq<Block>)
    requires b != [] && Rows(b, IsCell) && AllBlocks(bs)
    ensures AllBlocks([b] + bs)
  {
    assert forall k | 1 <= k <= |bs| :: ([b] + bs)[k] == bs[k - 1];
  }

  function ParseBlocks(s: seq<char>): (r: seq<Block>)
    ensures AllBlocks(r)
    decreases |s|
  {
    var p := ParseBlock(s);
    if p.None? then []
    else
      var tail := ParseBlocks(p.value.1);
      ConsBlock(p.value.0, tail);
      [p.value.0] + tail
  }

  /** `parse`: at least one block; what follows the last block is ignored. */
  function Parse(s: seq<char>): (r: Option<seq<Block>>)
    ensures r.Some? ==> r.value != [] && AllBlocks(r.value)
  {
    var bs := ParseBlocks(s);
    if bs == [] then None else Some(bs)
  }

  /** Blocks printed one after another, each followed by a blank line. */
  function ShowBlocks(bs: seq<Block>): seq<char>
  {
    if bs == [] then [] else ShowRows(bs[0]) + ("\n" + ShowBlocks(bs[1..]))
  }

  lemma ShowBlocksStart(bs: seq<Block>)
    requires AllBlocks(bs)
    ensures ShowBlocks(bs) == [] || IsCell(ShowBlocks(bs)[0])
  {
    if bs != [] {
      assert bs[0] != [] && bs[0][0] != [] && AllOk(bs[0][0], IsCell);
      assert ShowBlocks(bs)[0] == ShowRows(bs[0])[0] == bs[0][0][0];
    }
  }

  lemma ParseBlockOfShow(b: Block, rest: seq<char>)
    requires b != [] && Rows(b, IsCell)
    requires rest == [] || IsCell(rest[0])
    ensures ParseBlock(ShowRows(b) + ("\n" + rest)) == Some((b, rest))
  {
    ParseGridOfShowThen(b, "\n" + rest, IsCell);
    assert SkipNewlines("\n" + rest) == SkipNewlines(rest) == rest;
  }

  /** Printed blocks read back as the same blocks. */
  lemma {:induction false} ParseBlocksOfShow(bs: seq<Block>)
    requires AllBlocks(bs)
    ensures ParseBlocks(ShowBlocks(bs)) == bs
  {
    if bs != [] {
      var tail := bs[1..];
      assert AllBlocks(tail) by {
        assert forall k | 0 <= k < |tail| :: tail[k] == bs[k + 1];
      }
      ShowBlocksStart(tail);
      ParseBlockOfShow(bs[0], ShowBlocks(tail));
      ParseBlocksOfShow(tail);
      assert bs == [bs[0]] + tail;
    }
  }

  lemma ParseOfShow(bs: seq<Block>)
    requires bs != [] && AllBlocks(bs)
    ensures Parse(ShowBlocks(bs)) == Some(bs)
  {
    ParseBlocksOfShow(bs);
  }

  /** Input that does not start with a cell has no block. */
  lemma ParseRejects(s: seq<char>)
    requires s == [] || !IsCell(s[0])
    ensures Parse(s) == None
  {
    ParseGridRejects(s, IsCell);
  }

  // ---------------------------------------------------------------------------------------
  // Shapes and counts. Rows are compared cell by cell up to the width of the first row, so
  // the scans need every row to be at least that long.

  predicate WideTo(data: Block, w: nat) { forall y | 0 <= y < |data| :: w <= |data[y]| }

  predicate Wide(data: Block) { data != [] && WideTo(data, |data[0]|) }

  /** Cell `x` of rows `a` and `b` exists in both and differs. */
  predicate Differs(data: Block, a: int, b: int, x: int)
  {
    0 <= a < |data| && 0 <= b < |data| && 0 <= x && x < |data[a]| && x < |data[b]| && data[a][x] != data[b][x]
  }

  /** The columns `x < q` in which rows `a` and `b` differ. */
  function RowDiff(data: Block, q: nat, a: nat, b: nat): nat
    requires a < |data| && b < |data| && q <= |data[a]| && q <= |data[b]|
  {
    if q == 0 then 0
    else RowDiff(data, q - 1, a, b) + (if data[a][q - 1] != data[b][q - 1] then 1 else 0)
  }

  /** How many pairs of rows are compared for the line below row `i` of `h` rows: the
      pairs run out at whichever edge is nearer. */
  function Reach(i: nat, h: nat): (n: nat)
    requires i + 1 < h
    ensures 1 <= n <= i + 1 && i + n < h
    ensures n == i + 1 || i + n == h - 1
  {
    Min(i + 1, h - 1 - i)
  }

  /** The differences of the first `n` mirrored row pairs `(i, i+1)`, `(i-1, i+2)`, …,
      counted over the first `w` columns. */
  function MirrorSum(data: Block, w: nat, i: nat, n: nat): nat
    requires n <= i + 1 && i + n < |data| && WideTo(data, w)
  {
    if n == 0 then 0 else MirrorSum(data, w, i, n - 1) + RowDiff(data, w, i + 1 - n, i + n)
  }

  /** The differences across the line below row `i`, out to the nearer edge. */
  function HorDiff(data: Block, i: nat): nat
    requires Wide(data) && i + 1 < |data|
  {
    MirrorSum(data, |data[0]|, i, Reach(i, |data|))
  }

  /** `(part_one && diff == 0) || (!part_one && diff == 1)` */
  predicate Reflects(diff: nat, partOne: bool)
  {
    if partOne then diff == 0 else diff == 1
  }

  /** The first line at or below row `i` that reflects. */
  function FirstHor(data: Block, partOne: bool, i: nat): (r: Option<nat>)
    requires Wide(data)
    ensures r.Some? ==> i <= r.value && r.value + 1 < |data| && Reflects(HorDiff(data, r.value), partOne)
    ensures r.Some? ==> forall j | i <= j < r.value :: !Reflects(HorDiff(data, j), partOne)
    ensures r.None? ==> forall j | i <= j && j + 1 < |data| :: !Reflects(HorDiff(data, j), partOne)
    decreases |data| - i
  {
    if i + 1 >= |data| then None
    else if Reflects(HorDiff(data, i), partOne) then Some(i)
    else FirstHor(data, partOne, i + 1)
  }

  function HorLine(data: Block, partOne: bool): Option<nat>
    requires Wide(data)
  {
    FirstHor(data, partOne, 0)
  }

  /** A block of one row has no line between rows. */
  lemma OneRow(data: Block, partOne: bool)
    requires Wide(data) && |data| == 1
    ensures HorLine(data, partOne) == None
  {
  }

  /** `find_hor`: tries every line from the top; for each, compares mirrored row pairs
      outwards until an edge, counting the cells that differ. */
  method FindHor(data: Block, partOne: bool) returns (r: Option<nat>)
    requires Wide(data)
    ensures r == HorLine(data, partOne)
  {
    var width := |data[0]|;
    var height := |data|;
    for i := 0 to height - 1
      invariant FirstHor(data, partOne, i) == HorLine(data, partOne)
    {
      var top := i;
      var bot := i + 1;
      var diff := 0;
      while true
        invariant 0 <= top <= i && bot == 2 * i + 1 - top && bot < height
        invariant diff == MirrorSum(data, width, i, i - top)
        decreases top
      {
        for q := 0 to width
          invariant diff == MirrorSum(data, width, i, i - top) + RowDiff(data, q, top, bot)
        {
          if data[top][q] != data[bot][q] {
            diff := diff + 1;
          }
        }
        assert diff == MirrorSum(data, width, i, i - top + 1);
        if top == 0 || bot == height - 1 {
          assert i - top + 1 == Reach(i, height);
          break;
        }
        top := top - 1;
        bot := bot + 1;
      }
      assert diff == HorDiff(data, i);
      if (partOne && diff == 0) || (!partOne && diff == 1) {
        return Some(i);
      }
    }
    return None;
  }

  // ---------------------------------------------------------------------------------------
  // What the count means: the cells that break the mirror.

  /** Cell `x` of the `t`-th row pair around the line below row `i` breaks the mirror. */
  predicate MirrorDiffers(data: Block, i: int, t: int, x: int)
  {
    Differs(data, i - t, i + 1 + t, x)
  }

  /** The mismatched cells of the first `n` mirrored row pairs, as (pair, column). */
  ghost function Smudges(data: Block, w: nat, i: nat, n: nat): set<(int, int)>
  {
    set t: int, x: int | 0 <= t < n && 0 <= x < w && MirrorDiffers(data, i, t, x) :: (t, x)
  }


  ghost function RowSmudges(data: Block, q: nat, a: nat, b: nat, t: int): set<(int, int)>
  {
    set x: int | 0 <= x < q && Differs(data, a, b, x) :: (t, x)
  }

  lemma {:induction false} RowDiffCount(data: Block, q: nat, a: nat, b: nat, t: int)
    requires a < |data| && b < |data| && q <= |data[a]| && q <= |data[b]|
    ensures RowDiff(data, q, a, b) == |RowSmudges(data, q, a, b, t)|
  {
    if q > 0 {
      RowDiffCount(data, q - 1, a, b, t);
      var s := RowSmudges(data, q - 1, a, b, t);
      if Differs(data, a, b, q - 1) {
        assert RowSmudges(data, q, a, b, t) == s + {(t, q - 1)};
        assert (t, q - 1) !in s;
      } else {
        assert RowSmudges(data, q, a, b, t) == s;
      }
    }
  }

  lemma SmudgesStep(data: Block, w: nat, i: nat, n: nat)
    requires 0 < n <= i + 1 && i + n < |data| && WideTo(data, w)
    ensures Smudges(data, w, i, n) == Smudges(data, w, i, n - 1) + RowSmudges(data, w, i + 1 - n, i + n, n - 1)
    ensures Smudges(data, w, i, n - 1) !! RowSmudges(data, w, i + 1 - n, i + n, n - 1)
  {
    assert i - (n - 1) == i + 1 - n && i + 1 + (n - 1) == i + n;
  }

  /** The count across a line is the number of cells whose mirror image differs. */
  lemma {:induction false} MirrorSumCount(data: Block, w: nat, i: nat, n: nat)
    requires n <= i + 1 && i + n < |data| && WideTo(data, w)
    ensures MirrorSum(data, w, i, n) == |Smudges(data, w, i, n)|
  {
    if n == 0 {
      assert Smudges(data, w, i, n) == {};
    } else {
      var front := Smudges(data, w, i, n - 1);
      var last := RowSmudges(data, w, i + 1 - n, i + n, n - 1);
      assert |front| == MirrorSum(data, w, i, n - 1) by {
        MirrorSumCount(data, w, i, n - 1);
      }
      assert |last| == RowDiff(data, w, i + 1 - n, i + n) by {
        RowDiffCount(data, w, i + 1 - n, i + n, n - 1);
      }
      assert Smudges(data, w, i, n) == front + last && front !! last by {
        SmudgesStep(data, w, i, n);
      }
      DisjointCard(front, last);
    }
  }

  lemma DisjointCard<T>(a: set<T>, b: set<T>)
    requires a !! b
    ensures |a + b| == |a| + |b|
  {
    assert a * b == {};
  }

  /** Part one accepts a line with no mismatched cell, part two one with exactly one. */
  lemma ReflectsMeaning(data: Block, i: nat, partOne: bool)
    requires Wide(data) && i + 1 < |data|
    ensures Reflects(HorDiff(data, i), partOne) <==>
      |Smudges(data, |data[0]|, i, Reach(i, |data|))| == (if partOne then 0 else 1)
  {
    MirrorSumCount(data, |data[0]|, i, Reach(i, |data|));
  }

  /** A perfect mirror: every cell within reach equals its reflection. */
  lemma NoSmudge(data: Block, w: nat, i: nat, n: nat)
    requires n <= i + 1 && i + n < |data| && WideTo(data, w)
    ensures Smudges(data, w, i, n) == {} <==>
      forall t, x | 0 <= t < n && 0 <= x < w :: !MirrorDiffers(data, i, t, x)
  {
    if Smudges(data, w, i, n) == {} {
      forall t, x | 0 <= t < n && 0 <= x < w
        ensures !MirrorDiffers(data, i, t, x)
      {
        assert (t, x) !in Smudges(data, w, i, n);
      }
    } else {
      var p :| p in Smudges(data, w, i, n);
      assert MirrorDiffers(data, i, p.0, p.1);
    }
  }

  // ---------------------------------------------------------------------------------------
  // Columns: the same scan with the roles of rows and columns exchanged.

  /** The rows `y < q` in which columns `a` and `b` differ. */
  function ColDiff(data: Block, q: nat, a: nat, b: nat): nat
    requires Wide(data) && q <= |data| && a < |data[0]| && b < |data[0]|
  {
    if q == 0 then 0
    else ColDiff(data, q - 1, a, b) + (if data[q - 1][a] != data[q - 1][b] then 1 else 0)
  }

  function ColMirrorSum(data: Block, i: nat, n: nat): nat
    requires Wide(data) && n <= i + 1 && i + n < |data[0]|
  {
    if n == 0 then 0 else ColMirrorSum(data, i, n - 1) + ColDiff(data, |data|, i + 1 - n, i + n)
  }

  function VerDiff(data: Block, i: nat): nat
    requires Wide(data) && i + 1 < |data[0]|
  {
    ColMirrorSum(data, i, Reach(i, |data[0]|))
  }

  function FirstVer(data: Block, partOne: bool, i: nat): (r: Option<nat>)
    requires Wide(data)
    ensures r.Some? ==> i <= r.value && r.value + 1 < |data[0]| && Reflects(VerDiff(data, r.value), partOne)
    ensures r.Some? ==> forall j | i <= j < r.value :: !Reflects(VerDiff(data, j), partOne)
    ensures r.None? ==> forall j | i <= j && j + 1 < |data[0]| :: !Reflects(VerDiff(data, j), partOne)
    decreases |data[0]| - i
  {
    if i + 1 >= |data[0]| then None
    else if Reflects(VerDiff(data, i), partOne) then Some(i)
    else FirstVer(data, partOne, i + 1)
  }

  function VerLine(data: Block, partOne: bool): Option<nat>
    requires Wide(data)
  {
    FirstVer(data, partOne, 0)
  }

  /** `find_ver`: the column version of `find_hor`. */
  method FindVer(data: Block, partOne: bool) returns (r: Option<nat>)
    requires Wide(data) && data[0] != []
    ensures r == VerLine(data, partOne)
  {
    var width := |data[0]|;
    var height := |data|;
    for i := 0 to width - 1
      invariant FirstVer(data, partOne, i) == VerLine(data, partOne)
    {
      var left := i;
      var right := i + 1;
      var diff := 0;
      while true
        invariant 0 <= left <= i && right == 2 * i + 1 - left && right < width
        invariant diff == ColMirrorSum(data, i, i - left)
        decreases left
      {
        for q := 0 to height
          invariant diff == ColMirrorSum(data, i, i - left) + ColDiff(data, q, left, right)
        {
          if data[q][left] != data[q][right] {
            diff := diff + 1;
          }
        }
        assert diff == ColMirrorSum(data, i, i - left + 1);
        if left == 0 || right == width - 1 {
          assert i - left + 1 == Reach(i, width);
          break;
        }
        left := left - 1;
        right := right + 1;
      }
      assert diff == VerDiff(data, i);
      if (partOne && diff == 0) || (!partOne && diff == 1) {
        return Some(i);
      }
    }
    return None;
  }

  /** The block with rows and columns exchanged, cut to the width of the first row. */
  function Transpose(data: Block): (t: Block)
    requires Wide(data)
    ensures |t| == |data[0]| && forall x | 0 <= x < |t| :: |t[x]| == |data|
  {
    seq(|data[0]|, x requires 0 <= x < |data[0]| => seq(|data|, y requires 0 <= y < |data| => data[y][x]))
  }

  lemma {:induction false} ColDiffTranspose(data: Block, q: nat, a: nat, b: nat)
    requires Wide(data) && data[0] != [] && q <= |data| && a < |data[0]| && b < |data[0]|
    ensures Wide(Transpose(data))
    ensures ColDiff(data, q, a, b) == RowDiff(Transpose(data), q, a, b)
  {
    if q > 0 {
      ColDiffTranspose(data, q - 1, a, b);
    }
  }

  lemma {:induction false} ColMirrorTranspose(data: Block, i: nat, n: nat)
    requires Wide(data) && data[0] != [] && n <= i + 1 && i + n < |data[0]|
    ensures Wide(Transpose(data)) && |Transpose(data)[0]| == |data|
    ensures ColMirrorSum(data, i, n) == MirrorSum(Transpose(data), |data|, i, n)
  {
    if n > 0 {
      ColMirrorTranspose(data, i, n - 1);
      ColDiffTranspose(data, |data|, i + 1 - n, i + n);
    }
  }

  lemma TransposeShape(data: Block)
    requires Wide(data) && data[0] != []
    ensures Wide(Transpose(data)) && |Transpose(data)| == |data[0]| && |Transpose(data)[0]| == |data|
  {
  }

  lemma VerDiffTranspose(data: Block, i: nat)
    requires Wide(data) && data[0] != [] && i + 1 < |data[0]|
    ensures Wide(Transpose(data)) && VerDiff(data, i) == HorDiff(Transpose(data), i)
  {
    TransposeShape(data);
    ColMirrorTranspose(data, i, Reach(i, |data[0]|));
  }

  lemma {:induction false} FirstVerTranspose(data: Block, partOne: bool, i: nat)
    requires Wide(data) && data[0] != []
    ensures Wide(Transpose(data))
    ensures FirstVer(data, partOne, i) == FirstHor(Transpose(data), partOne, i)
    decreases |data[0]| - i
  {
    TransposeShape(data);
    if i + 1 < |data[0]| {
      VerDiffTranspose(data, i);
      FirstVerTranspose(data, partOne, i + 1);
    }
  }

  /** `find_ver` finds what `find_hor` finds in the transposed block. */
  lemma VerLineTranspose(data: Block, partOne: bool)
    requires Wide(data) && data[0] != []
    ensures Wide(Transpose(data))
    ensures VerLine(data, partOne) == HorLine(Transpose(data), partOne)
  {
    FirstVerTranspose(data, partOne, 0);
  }

  // ---------------------------------------------------------------------------------------
  // Scores.

  /** `process_block`: a line between rows scores a hundred per row above it, otherwise a
      line between columns scores the columns to its left; with neither the program stops. */
  function ProcessBlockSpec(data: Block, partOne: bool): Option<nat>
    requires Wide(data)
  {
    match HorLine(data, partOne)
    case Some(x) => Some((x + 1) * 100)
    case None =>
      match VerLine(data, partOne)
      case Some(x) => Some(x + 1)
      case None => None
  }

  method ProcessBlock(data: Block, partOne: bool) returns (r: Option<nat>)
    requires Wide(data) && data[0] != []
    ensures r == ProcessBlockSpec(data, partOne)
  {
    var hor := FindHor(data, partOne);
    if hor.Some? {
      return Some((hor.value + 1) * 100);
    }
    var ver := FindVer(data, partOne);
    if ver.Some? {
      return Some(ver.value + 1);
    }
    return None;
  }

  /** A block scores exactly when it has a reflecting line; a horizontal one wins. */
  lemma ProcessBlockScore(data: Block, partOne: bool)
    requires Wide(data)
    ensures ProcessBlockSpec(data, partOne).None? <==>
      (forall i: nat | i + 1 < |data| :: !Reflects(HorDiff(data, i), partOne)) &&
      (forall i: nat | i + 1 < |data[0]| :: !Reflects(VerDiff(data, i), partOne))
    ensures forall i: nat | i + 1 < |data| && Reflects(HorDiff(data, i), partOne) ::
      ProcessBlockSpec(data, partOne).Some? && 100 <= ProcessBlockSpec(data, partOne).value <= (i + 1) * 100
  {
  }

  predicate Scorable(b: Block) { Wide(b) && b[0] != [] }

  /** The scores of the blocks added up; nothing if one of them is missing. */
  function Scores(blocks: seq<Block>, partOne: bool): Option<nat>
  {
    if blocks == [] then Some(0)
    else
      var b := blocks[|blocks| - 1];
      var front := Scores(blocks[..|blocks| - 1], partOne);
      if front.None? || !Scorable(b) then None
      else
        match ProcessBlockSpec(b, partOne)
        case None => None
        case Some(v) => Some(front.value + v)
  }

  /** `proc`: the scores of all blocks, or nothing when the input does not parse, a row is
      shorter than the first row of its block, or a block has no line. */
  function ProcSpec(input: seq<char>, partOne: bool): Option<nat>
  {
    match Parse(input)
    case None => None
    case Some(blocks) => Scores(blocks, partOne)
  }

  /** The sum exists exactly when every block has a score. */
  lemma {:induction false} ScoresDefined(blocks: seq<Block>, partOne: bool)
    ensures Scores(blocks, partOne).Some? <==>
      forall k | 0 <= k < |blocks| :: Scorable(blocks[k]) && ProcessBlockSpec(blocks[k], partOne).Some?
  {
    if blocks != [] {
      var front := blocks[..|blocks| - 1];
      ScoresDefined(front, partOne);
      assert forall k | 0 <= k < |front| :: front[k] == blocks[k];
    }
  }

  lemma ScoresStep(blocks: seq<Block>, k: nat, partOne: bool, total: nat, v: nat)
    requires k < |blocks| && Scores(blocks[..k], partOne) == Some(total)
    requires Scorable(blocks[k]) && ProcessBlockSpec(blocks[k], partOne) == Some(v)
    ensures Scores(blocks[..k + 1], partOne) == Some(total + v)
  {
    assert blocks[..k + 1][..k] == blocks[..k];
  }

  lemma ScoresFail(blocks: seq<Block>, k: nat, partOne: bool)
    requires k < |blocks|
    requires !Scorable(blocks[k]) || ProcessBlockSpec(blocks[k], partOne).None?
    ensures Scores(blocks, partOne) == None
  {
    ScoresDefined(blocks, partOne);
  }

  method Proc(input: seq<char>, partOne: bool) returns (r: Option<nat>)
    ensures r == ProcSpec(input, partOne)
  {
    var parsed := Parse(input);
    if parsed.None? {
      return None;
    }
    var blocks := parsed.value;
    var total := 0;
    for k := 0 to |blocks|
      invariant Scores(blocks[..k], partOne) == Some(total)
    {
      var b := blocks[k];
      if !Scorable(b) {
        ScoresFail(blocks, k, partOne);
        return None;
      }
      var v := ProcessBlock(b, partOne);
      if v.None? {
        ScoresFail(blocks, k, partOne);
        return None;
      }
      ScoresStep(blocks, k, partOne, total, v.value);
      total := total + v.value;
    }
    assert blocks[..|blocks|] == blocks;
    return Some(total);
  }
}
