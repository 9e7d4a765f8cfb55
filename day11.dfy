/** Day 11: galaxies ('#') in an image of empty space ('.'). Every row or column without a
    galaxy stands for `expand` rows or columns; the answer is the sum, over every pair of
    galaxies, of their distance in the expanded image. */
module Day11 {
  import opened Common
  import CharGrid

  predicate IsCell(c: char) { c == '.' || c == '#' }

  /** `parse`: rows of '.' and '#', each ended by a newline. */
  function Parse(s: seq<char>): (r: Option<seq<seq<char>>>)
    ensures r.Some? ==> r.value != [] && CharGrid.Rows(r.value, IsCell)
  {
    match CharGrid.ParseGrid(s, IsCell)
    case None => None
    case Some((rows, _)) => Some(rows)
  }

  // What `process_data` records.

  /** A position (x, y): column, then row. */
  type Pos = (nat, nat)

  predicate AllDots(row: seq<char>) { forall i | 0 <= i < |row| :: row[i] == '.' }

  /** `empty_rows`: 1 for a row made only of '.', 0 otherwise. */
  function EmptyRows(data: seq<seq<char>>): (flags: seq<nat>)
    ensures |flags| == |data|
  {
    seq(|data|, y requires 0 <= y < |data| => if AllDots(data[y]) then 1 else 0)
  }

  /** Is there a '#' in column x among the first y rows? */
  predicate HashAbove(data: seq<seq<char>>, y: nat, x: nat)
    requires y <= |data|
  {
    y > 0 && (HashAbove(data, y - 1, x) || (x < |data[y - 1]| && data[y - 1][x] == '#'))
  }

  lemma {:induction false} HashAboveIff(data: seq<seq<char>>, y: nat, x: nat)
    requires y <= |data|
    ensures HashAbove(data, y, x) <==> exists k | 0 <= k < y :: x < |data[k]| && data[k][x] == '#'
  {
    if y > 0 {
      HashAboveIff(data, y - 1, x);
    }
  }

  /** `empty_cols`: as wide as the first row; 1 for a column without '#', 0 otherwise. */
  function EmptyCols(data: seq<seq<char>>): (flags: seq<nat>)
    requires data != []
    ensures |flags| == |data[0]|
  {
    seq(|data[0]|, x requires 0 <= x < |data[0]| => if HashAbove(data, |data|, x) then 0 else 1)
  }

  /** A '#' beyond the first row's width: `empty_cols[x] = 0` indexes out of bounds. */
  predicate Overhang(data: seq<seq<char>>)
    requires data != []
  {
    exists y, x | 0 <= y < |data| && |data[0]| <= x < |data[y]| :: data[y][x] == '#'
  }

  /** The galaxies among the first x cells of a row. */
  function RowGalaxies(row: seq<char>, y: nat, x: nat): seq<Pos>
    requires x <= |row|
  {
    if x == 0 then [] else RowGalaxies(row, y, x - 1) + (if row[x - 1] == '#' then [(x - 1, y)] else [])
  }

  /** The galaxies of the first y rows, in reading order. */
  function Galaxies(data: seq<seq<char>>, y: nat): seq<Pos>
    requires y <= |data|
  {
    if y == 0 then [] else Galaxies(data, y - 1) + RowGalaxies(data[y - 1], y - 1, |data[y - 1]|)
  }

  /** Reading order: earlier row, or same row and earlier column. */
  predicate Less(p: Pos, q: Pos) { p.1 < q.1 || (p.1 == q.1 && p.0 < q.0) }

  predicate Ordered(ps: seq<Pos>) { forall i, j | 0 <= i < j < |ps| :: Less(ps[i], ps[j]) }

  predicate AllLess(ps: seq<Pos>, q: Pos) { forall i | 0 <= i < |ps| :: Less(ps[i], q) }

  lemma {:induction false} RowGalaxiesIff(row: seq<char>, y: nat, x: nat, p: Pos)
    requires x <= |row|
    ensures p in RowGalaxies(row, y, x) <==> p.1 == y && p.0 < x && row[p.0] == '#'
  {
    if x > 0 {
      RowGalaxiesIff(row, y, x - 1, p);
    }
  }

  /** A galaxy is listed exactly when its cell holds '#'. */
  lemma {:induction false} GalaxiesIff(data: seq<seq<char>>, y: nat, p: Pos)
    requires y <= |data|
    ensures p in Galaxies(data, y) <==> p.1 < y && p.0 < |data[p.1]| && data[p.1][p.0] == '#'
  {
    if y > 0 {
      var before, row := Galaxies(data, y - 1), RowGalaxies(data[y - 1], y - 1, |data[y - 1]|);
      GalaxiesIff(data, y - 1, p);
      RowGalaxiesIff(data[y - 1], y - 1, |data[y - 1]|, p);
      assert p in before + row <==> p in before || p in row;
    }
  }

  lemma OrderedAppend(ps: seq<Pos>, q: Pos)
    requires Ordered(ps) && AllLess(ps, q)
    ensures Ordered(ps + [q])
  {
  }

  lemma {:induction false} RowGalaxiesOrdered(row: seq<char>, y: nat, x: nat, q: Pos)
    requires x <= |row|
    requires q.1 > y || (q.1 == y && q.0 >= x)
    ensures Ordered(RowGalaxies(row, y, x)) && AllLess(RowGalaxies(row, y, x), q)
  {
    if x > 0 {
      RowGalaxiesOrdered(row, y, x - 1, q);
      if row[x - 1] == '#' {
        RowGalaxiesOrdered(row, y, x - 1, (x - 1, y));
        OrderedAppend(RowGalaxies(row, y, x - 1), (x - 1, y));
      }
    }
  }

  lemma {:induction false} GalaxiesOrderedBelow(data: seq<seq<char>>, y: nat, q: Pos)
    requires y <= |data| && q.1 >= y
    ensures Ordered(Galaxies(data, y)) && AllLess(Galaxies(data, y), q)
  {
    if y > 0 {
      var before := Galaxies(data, y - 1);
      var row := RowGalaxies(data[y - 1], y - 1, |data[y - 1]|);
      GalaxiesOrderedBelow(data, y - 1, (0, y - 1));
      GalaxiesOrderedBelow(data, y - 1, q);
      RowGalaxiesOrdered(data[y - 1], y - 1, |data[y - 1]|, q);
      RowGalaxiesOrdered(data[y - 1], y - 1, |data[y - 1]|, (|data[y - 1]|, y - 1));
      forall i, j | 0 <= i < |before| && 0 <= j < |row|
        ensures Less(before[i], row[j])
      {
        RowGalaxiesIff(data[y - 1], y - 1, |data[y - 1]|, row[j]);
        assert row[j] in row;
      }
    }
  }

  /** The galaxies come in strictly increasing reading order, so none is listed twice. */
  lemma GalaxiesOrdered(data: seq<seq<char>>)
    ensures Ordered(Galaxies(data, |data|))
  {
    GalaxiesOrderedBelow(data, |data|, (0, |data|));
  }

  /** `process_data`: the empty-row and empty-column flags and the galaxies, or None where a
      '#' lies beyond the first row's width and the source panics. */
  method ProcessData(data: seq<seq<char>>) returns (r: Option<(seq<nat>, seq<nat>, seq<Pos>)>)
    requires data != []
    ensures r.None? <==> Overhang(data)
    ensures r.Some? ==> r.value == (EmptyRows(data), EmptyCols(data), Galaxies(data, |data|))
  {
    var width := |data[0]|;
    var emptyRows: seq<nat> := seq(|data|, _ => 0);
    var emptyCols: seq<nat> := seq(width, _ => 1);
    var galaxies: seq<Pos> := [];
    for y := 0 to |data|
      invariant |emptyRows| == |data| && |emptyCols| == width
      invariant forall k | 0 <= k < y :: emptyRows[k] == if AllDots(data[k]) then 1 else 0
      invariant forall k | y <= k < |data| :: emptyRows[k] == 0
      invariant forall x | 0 <= x < width :: emptyCols[x] == if HashAbove(data, y, x) then 0 else 1
      invariant forall k, x | 0 <= k < y && width <= x < |data[k]| :: data[k][x] != '#'
      invariant galaxies == Galaxies(data, y)
    {
      var row := data[y];
      if forall i | 0 <= i < |row| :: row[i] == '.' {
        emptyRows := emptyRows[y := 1];
      }
      for x := 0 to |row|
        invariant |emptyCols| == width
        invariant forall i | 0 <= i < width ::
          emptyCols[i] == (if HashAbove(data, y, i) || (i < x && row[i] == '#') then 0 else 1)
        invariant forall i | width <= i < x :: row[i] != '#'
        invariant galaxies == Galaxies(data, y) + RowGalaxies(row, y, x)
      {
        if row[x] == '#' {
          if x >= width {
            assert data[y][x] == '#';
            return None;
          }
          emptyCols := emptyCols[x := 0];
          galaxies := galaxies + [(x, y)];
        }
      }
    }
    assert emptyRows == EmptyRows(data);
    assert emptyCols == EmptyCols(data);
    return Some((emptyRows, emptyCols, galaxies));
  }

  // The pairwise distance sum of `proc_1`.

  function Flag(flags: seq<nat>, k: nat): nat { if k < |flags| then flags[k] else 0 }

  /** `flags[lo..hi].iter().sum()`: the empty lines in [lo, hi). */
  function Crossed(flags: seq<nat>, lo: nat, hi: nat): nat
    decreases hi
  {
    if hi <= lo then 0 else Crossed(flags, lo, hi - 1) + Flag(flags, hi - 1)
  }

  /** Within the flags, the count is the slice sum. */
  lemma {:induction false} CrossedSlice(flags: seq<nat>, lo: nat, hi: nat)
    requires lo <= hi <= |flags|
    ensures Crossed(flags, lo, hi) == Sum(flags[lo..hi])
    decreases hi
  {
    if lo < hi {
      CrossedSlice(flags, lo, hi - 1);
      assert flags[lo..hi] == flags[lo..hi - 1] + [flags[hi - 1]];
      SumAppend(flags[lo..hi - 1], flags[hi - 1]);
    }
  }

  lemma {:induction false} CrossedSplit(flags: seq<nat>, lo: nat, mid: nat, hi: nat)
    requires lo <= mid <= hi
    ensures Crossed(flags, lo, hi) == Crossed(flags, lo, mid) + Crossed(flags, mid, hi)
    decreases hi
  {
    if mid < hi {
      CrossedSplit(flags, lo, mid, hi - 1);
    }
  }

  function Gap(a: nat, b: nat): nat { if a < b then b - a else a - b }

  /** Empty rows and columns crossed on the way from `a` to `b`. */
  function Crossings(a: Pos, b: Pos, rows: seq<nat>, cols: seq<nat>): nat
  {
    Crossed(cols, Min(a.0, b.0), Max(a.0, b.0)) + Crossed(rows, Min(a.1, b.1), Max(a.1, b.1))
  }

  /** One pair's term: `len + (inc_y + inc_x) * (expand - 1)`, with `extra` = `expand - 1`. */
  function Distance(a: Pos, b: Pos, rows: seq<nat>, cols: seq<nat>, extra: nat): nat
  {
    Gap(a.0, b.0) + Gap(a.1, b.1) + Crossings(a, b, rows, cols) * extra
  }

  /** A coordinate in the expanded image: every empty line before it counts `extra` more. */
  function Expanded(z: nat, flags: seq<nat>, extra: nat): nat
  {
    z + Crossed(flags, 0, z) * extra
  }

  lemma Distribute(p: nat, q: nat, c: nat)
    ensures (p + q) * c == p * c + q * c
  {
  }

  lemma ExpandedGap(z: nat, w: nat, flags: seq<nat>, extra: nat)
    requires z <= w
    ensures Gap(Expanded(z, flags, extra), Expanded(w, flags, extra)) == w - z + Crossed(flags, z, w) * extra
  {
    var below, between := Crossed(flags, 0, z), Crossed(flags, z, w);
    var pb: int, pt: int := below * extra, between * extra;
    MulNat(below, extra);
    MulNat(between, extra);
    CrossedSplit(flags, 0, z, w);
    Distribute(below, between, extra);
    assert Expanded(z, flags, extra) == z + pb;
    assert Expanded(w, flags, extra) == w + pb + pt;
    GapShift(z, w, pb, pt);
  }

  lemma MulNat(a: nat, b: nat)
    ensures a * b >= 0
  {
  }

  lemma GapShift(z: nat, w: nat, p: nat, q: nat)
    requires z <= w
    ensures Gap(z + p, w + p + q) == w - z + q
  {
  }

  /** A pair's term is the Manhattan distance between the galaxies' expanded positions. */
  lemma ExpandedDistance(a: Pos, b: Pos, rows: seq<nat>, cols: seq<nat>, extra: nat)
    ensures Distance(a, b, rows, cols, extra) ==
      Gap(Expanded(a.0, cols, extra), Expanded(b.0, cols, extra)) +
      Gap(Expanded(a.1, rows, extra), Expanded(b.1, rows, extra))
  {
    var cx := Crossed(cols, Min(a.0, b.0), Max(a.0, b.0));
    var cy := Crossed(rows, Min(a.1, b.1), Max(a.1, b.1));
    assert Gap(Expanded(a.0, cols, extra), Expanded(b.0, cols, extra)) == Gap(a.0, b.0) + cx * extra by {
      if a.0 <= b.0 { ExpandedGap(a.0, b.0, cols, extra); } else { ExpandedGap(b.0, a.0, cols, extra); }
    }
    assert Gap(Expanded(a.1, rows, extra), Expanded(b.1, rows, extra)) == Gap(a.1, b.1) + cy * extra by {
      if a.1 <= b.1 { ExpandedGap(a.1, b.1, rows, extra); } else { ExpandedGap(b.1, a.1, rows, extra); }
    }
    Distribute(cx, cy, extra);
  }

  /** The terms of galaxy i with each later galaxy before index j. */
  function RowPairs(gs: seq<Pos>, f: (Pos, Pos) -> nat, i: nat, j: nat): nat
    requires i < |gs| && j <= |gs|
    decreases j
  {
    if j <= i + 1 then 0 else RowPairs(gs, f, i, j - 1) + f(gs[i], gs[j - 1])
  }

  /** The terms of every pair whose first galaxy comes before index i, in the order
      `tuple_combinations` produces them. */
  function Pairs(gs: seq<Pos>, f: (Pos, Pos) -> nat, i: nat): nat
    requires i <= |gs|
  {
    if i == 0 then 0 else Pairs(gs, f, i - 1) + RowPairs(gs, f, i - 1, |gs|)
  }

  function PairSum(gs: seq<Pos>, f: (Pos, Pos) -> nat): nat { Pairs(gs, f, |gs|) }

  lemma {:induction false} RowPairsLinear(gs: seq<Pos>, f: (Pos, Pos) -> nat, g: (Pos, Pos) -> nat, h: (Pos, Pos) -> nat, c: nat, i: nat, j: nat)
    requires i < |gs| && j <= |gs|
    requires forall a, b :: f(a, b) == g(a, b) + c * h(a, b)
    ensures RowPairs(gs, f, i, j) == RowPairs(gs, g, i, j) + c * RowPairs(gs, h, i, j)
    decreases j
  {
    if j > i + 1 {
      RowPairsLinear(gs, f, g, h, c, i, j - 1);
      var hs, hl := RowPairs(gs, h, i, j - 1), h(gs[i], gs[j - 1]);
      assert f(gs[i], gs[j - 1]) == g(gs[i], gs[j - 1]) + c * hl;
      Scale(hs, hl, c);
    }
  }

  lemma Scale(p: nat, q: nat, c: nat)
    ensures c * (p + q) == c * p + c * q
  {
  }

  /** A sum over pairs of a term `g + c * h` is the sum of the g's plus c times the sum of the h's. */
  lemma {:induction false} PairsLinear(gs: seq<Pos>, f: (Pos, Pos) -> nat, g: (Pos, Pos) -> nat, h: (Pos, Pos) -> nat, c: nat, i: nat)
    requires i <= |gs|
    requires forall a, b :: f(a, b) == g(a, b) + c * h(a, b)
    ensures Pairs(gs, f, i) == Pairs(gs, g, i) + c * Pairs(gs, h, i)
  {
    if i > 0 {
      PairsLinear(gs, f, g, h, c, i - 1);
      RowPairsLinear(gs, f, g, h, c, i - 1, |gs|);
      Scale(Pairs(gs, h, i - 1), RowPairs(gs, h, i - 1, |gs|), c);
    }
  }

  function Manhattan(a: Pos, b: Pos): nat { Gap(a.0, b.0) + Gap(a.1, b.1) }

  /** The answer for a given `extra`: the sum of every pair's term. */
  function Total(gs: seq<Pos>, rows: seq<nat>, cols: seq<nat>, extra: nat): nat
  {
    PairSum(gs, (a, b) => Distance(a, b, rows, cols, extra))
  }

  /** The answer is the plain Manhattan sum plus `extra` for every empty line some pair crosses:
      with `expand = 1` it is the plain sum, and it grows with `expand`. */
  lemma TotalLinear(gs: seq<Pos>, rows: seq<nat>, cols: seq<nat>, extra: nat)
    ensures Total(gs, rows, cols, extra) ==
      PairSum(gs, Manhattan) + extra * PairSum(gs, (a, b) => Crossings(a, b, rows, cols))
    ensures Total(gs, rows, cols, 0) == PairSum(gs, Manhattan)
  {
    var h := (a, b) => Crossings(a, b, rows, cols);
    var f := (a, b) => Distance(a, b, rows, cols, extra);
    var f0 := (a, b) => Distance(a, b, rows, cols, 0);
    forall a, b ensures f(a, b) == Manhattan(a, b) + extra * h(a, b) && f0(a, b) == Manhattan(a, b) + 0 * h(a, b) {
      assert Crossings(a, b, rows, cols) * extra == extra * Crossings(a, b, rows, cols);
    }
    PairsLinear(gs, f, Manhattan, h, extra, |gs|);
    PairsLinear(gs, f0, Manhattan, h, 0, |gs|);
  }

  lemma TotalMonotone(gs: seq<Pos>, rows: seq<nat>, cols: seq<nat>, extra: nat, more: nat)
    requires extra <= more
    ensures Total(gs, rows, cols, extra) <= Total(gs, rows, cols, more)
  {
    TotalLinear(gs, rows, cols, extra);
    TotalLinear(gs, rows, cols, more);
    var c := PairSum(gs, (a, b) => Crossings(a, b, rows, cols));
    assert extra * c <= more * c;
  }

  /** `proc_1`'s loop over `tuple_combinations`. */
  method SumDistances(gs: seq<Pos>, rows: seq<nat>, cols: seq<nat>, extra: nat) returns (res: nat)
    ensures res == Total(gs, rows, cols, extra)
  {
    var f := (a, b) => Distance(a, b, rows, cols, extra);
    res := 0;
    for i := 0 to |gs|
      invariant res == Pairs(gs, f, i)
    {
      for j := i + 1 to |gs|
        invariant res == Pairs(gs, f, i) + RowPairs(gs, f, i, j)
      {
        res := res + Distance(gs[i], gs[j], rows, cols, extra);
      }
    }
  }

  /** What `proc_1` computes; None where the source panics (no parse, or a '#' beyond the
      first row's width). */
  function Proc1Spec(input: seq<char>, expand: nat): Option<nat>
    requires expand >= 1
  {
    match Parse(input)
    case None => None
    case Some(data) =>
      if Overhang(data) then None
      else Some(Total(Galaxies(data, |data|), EmptyRows(data), EmptyCols(data), expand - 1))
  }

  /** `proc_1`: parse, record the galaxies and the empty lines, then add up the pairs. */
  method Proc1(input: seq<char>, expand: nat) returns (r: Option<nat>)
    requires expand >= 1
    ensures r == Proc1Spec(input, expand)
  {
    var parsed := Parse(input);
    if parsed.None? {
      return None;
    }
    var processed := ProcessData(parsed.value);
    if processed.None? {
      return None;
    }
    var (rows, cols, galaxies) := processed.value;
    var total := SumDistances(galaxies, rows, cols, expand - 1);
    return Some(total);
  }

  // A worked example: two galaxies with an empty row between them.

  function SmallImage(): seq<seq<char>> { ["#.", "..", ".#"] }

  lemma SmallProcessed()
    ensures !Overhang(SmallImage())
    ensures EmptyRows(SmallImage()) == [0, 1, 0] && EmptyCols(SmallImage()) == [0, 0]
    ensures Galaxies(SmallImage(), 3) == [(0, 0), (1, 2)]
  {
    var data := SmallImage();
    assert !AllDots(data[0]) by { assert data[0][0] == '#'; }
    assert !AllDots(data[2]) by { assert data[2][1] == '#'; }
    assert HashAbove(data, 3, 0) && HashAbove(data, 3, 1);
    assert RowGalaxies(data[0], 0, 2) == [(0, 0)];
    assert RowGalaxies(data[1], 1, 2) == [];
    assert RowGalaxies(data[2], 2, 2) == [(1, 2)];
  }

  lemma SmallTotal(extra: nat)
    ensures Total([(0, 0), (1, 2)], [0, 1, 0], [0, 0], extra) == 3 + extra
  {
    var f := (a, b) => Distance(a, b, [0, 1, 0], [0, 0], extra);
    assert Crossed([0, 1, 0], 0, 2) == 1;
    assert Crossed([0, 0], 0, 1) == 0;
    assert RowPairs([(0, 0), (1, 2)], f, 0, 2) == 3 + extra;
    assert RowPairs([(0, 0), (1, 2)], f, 1, 2) == 0;
  }

  lemma SmallAnswer(data: seq<seq<char>>, extra: nat)
    requires data == SmallImage()
    ensures !Overhang(data)
    ensures Total(Galaxies(data, |data|), EmptyRows(data), EmptyCols(data), extra) == 3 + extra
  {
    SmallProcessed();
    SmallTotal(extra);
  }

  lemma SmallParse(input: seq<char>)
    requires input == "#.\n..\n.#\n"
    ensures Parse(input) == Some(SmallImage())
  {
    var data := SmallImage();
    assert CharGrid.Rows(data, IsCell) by {
      assert CharGrid.AllOk(data[0], IsCell) && CharGrid.AllOk(data[1], IsCell) && CharGrid.AllOk(data[2], IsCell);
    }
    CharGrid.ParseGridOfShow(data, IsCell);
    assert CharGrid.ShowRows(data) == "#.\n..\n.#\n" by {
      assert CharGrid.ShowRows(data[2..]) == ".#\n";
      assert CharGrid.ShowRows(data[1..]) == "..\n.#\n";
    }
  }

  /** The small image sums to 3 plus one for every extra copy of its empty row: 4 when empty
      lines count double, 12 when they count ten times. */
  lemma SmallProc(input: seq<char>, expand: nat)
    requires input == "#.\n..\n.#\n" && expand >= 1
    ensures Proc1Spec(input, expand) == Some(expand + 2)
  {
    SmallParse(input);
    SmallAnswer(SmallImage(), expand - 1);
  }
}
