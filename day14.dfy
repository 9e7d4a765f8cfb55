/** Day 14: a grid of round rocks `O`, cube rocks `#` and empty ground `.`. Tilting the
    platform north rolls every round rock up until it meets a cube rock, the edge or another
    round rock; the load is the sum, over round rocks, of their distance from the south edge. */
module Day14 {
  import opened Common
  import opened CharGrid

  predicate IsCell(c: char) { c == '.' || c == '#' || c == 'O' }

  /** `InputData`: the rows of the platform, never changed after parsing. */
  datatype InputData = InputData(data: seq<seq<char>>)

  /** Every row as long as the first, which is not empty. */
  predicate Rectangular(rows: seq<seq<char>>)
  {
    rows != [] && rows[0] != [] && forall y | 0 <= y < |rows| :: |rows[y]| == |rows[0]|
  }

  function Width(d: InputData): nat
    requires d.data != []
  {
    |d.data[0]|
  }

  function Height(d: InputData): nat { |d.data| }

  // ---------------------------------------------------------------------------------------
  // Parsing: `many1(parse_line)` then `many0(newline)`; what follows is ignored by `proc`.

  function Parse(s: seq<char>): (r: Option<(seq<seq<char>>, seq<char>)>)
    ensures r.Some? ==> r.value.0 != [] && Rows(r.value.0, IsCell)
  {
    match ParseGrid(s, IsCell)
    case None => None
    case Some((rows, rest)) => Some((rows, SkipNewlines(rest)))
  }

  /** A printed platform, with or without a trailing blank line, is read back whole. */
  lemma ParseOfShow(rows: seq<seq<char>>, blank: bool)
    requires rows != [] && Rows(rows, IsCell)
    ensures Parse(ShowRows(rows) + (if blank then "\n" else [])) == Some((rows, []))
  {
    ParseGridOfShowThen(rows, if blank then "\n" else [], IsCell);
    if blank {
      assert SkipNewlines("\n") == SkipNewlines([]);
    }
  }

  // ---------------------------------------------------------------------------------------
  // `col_iter`: every `width`-th cell of the flattened rows, starting at `col`.

  function Flatten(rows: seq<seq<char>>): seq<char>
  {
    if rows == [] then [] else rows[0] + Flatten(rows[1..])
  }

  /** `skip(start).step_by(w)` over `s`. */
  function Stride(s: seq<char>, start: nat, w: nat): (r: seq<char>)
    requires w > 0
    decreases |s| - start
  {
    if start >= |s| then [] else [s[start]] + Stride(s, start + w, w)
  }

  function ColIter(d: InputData, col: nat): seq<char>
    requires d.data != [] && d.data[0] != []
  {
    Stride(Flatten(d.data), col, Width(d))
  }

  /** The column of a rectangular grid, top to bottom. */
  function Column(rows: seq<seq<char>>, col: nat): (c: seq<char>)
    requires Rectangular(rows) && col < |rows[0]|
    ensures |c| == |rows| && forall y | 0 <= y < |rows| :: c[y] == rows[y][col]
  {
    seq(|rows|, y requires 0 <= y < |rows| => rows[y][col])
  }

  /** Striding past the end of `a` is striding through `b`. */
  lemma {:induction false} StrideShift(a: seq<char>, b: seq<char>, start: nat, w: nat)
    requires w > 0 && |a| <= start
    ensures Stride(a + b, start, w) == Stride(b, start - |a|, w)
    decreases |a| + |b| - start
  {
    if start < |a| + |b| {
      calc {
        Stride(a + b, start, w);
        [(a + b)[start]] + Stride(a + b, start + w, w);
      == { StrideShift(a, b, start + w, w); }
        [b[start - |a|]] + Stride(b, start + w - |a|, w);
        Stride(b, start - |a|, w);
      }
    }
  }

  lemma {:induction false} StrideColumn(rows: seq<seq<char>>, col: nat, w: nat)
    requires col < w && forall y | 0 <= y < |rows| :: |rows[y]| == w
    ensures |Stride(Flatten(rows), col, w)| == |rows|
    ensures forall y | 0 <= y < |rows| :: Stride(Flatten(rows), col, w)[y] == rows[y][col]
  {
    if rows != [] {
      var tail := rows[1..];
      StrideColumn(tail, col, w);
      var f := Flatten(rows);
      assert f == rows[0] + Flatten(tail);
      assert f[col] == rows[0][col];
      StrideShift(rows[0], Flatten(tail), col + w, w);
      assert Stride(f, col, w) == [rows[0][col]] + Stride(Flatten(tail), col, w);
      forall y | 1 <= y < |rows|
        ensures Stride(f, col, w)[y] == rows[y][col]
      {
        assert tail[y - 1] == rows[y];
      }
    }
  }

  /** On a rectangular grid `col_iter(c)` is column `c`, from top to bottom. */
  lemma ColIterColumn(d: InputData, col: nat)
    requires Rectangular(d.data) && col < Width(d)
    ensures ColIter(d, col) == Column(d.data, col)
  {
    StrideColumn(d.data, col, Width(d));
  }

  // ---------------------------------------------------------------------------------------
  // The load the scan of one column computes: a round rock takes the next free slot and
  // scores `height - slot`, a cube rock makes the slot below it the next free one.

  /** The scan of `col`, whose first cell is at row `base`, with `slot` the next free slot. */
  function Run(col: seq<char>, h: nat, base: nat, slot: nat): nat
    requires slot <= base && base + |col| <= h
  {
    if col == [] then 0
    else if col[0] == 'O' then (h - slot) + Run(col[1..], h, base + 1, slot + 1)
    else if col[0] == '#' then Run(col[1..], h, base + 1, base + 1)
    else Run(col[1..], h, base + 1, slot)
  }

  function CountRocks(s: seq<char>): nat
  {
    if s == [] then 0 else (if s[0] == 'O' then 1 else 0) + CountRocks(s[1..])
  }

  /** Every round rock contributes between 1 and the height. */
  lemma {:induction false} RunBounds(col: seq<char>, h: nat, base: nat, slot: nat)
    requires slot <= base && base + |col| <= h
    ensures CountRocks(col) <= Run(col, h, base, slot) <= h * CountRocks(col)
  {
    if col != [] {
      var rest := col[1..];
      if col[0] == 'O' {
        RunBounds(rest, h, base + 1, slot + 1);
        assert CountRocks(col) == CountRocks(rest) + 1;
        MulSucc(h, CountRocks(rest));
      } else if col[0] == '#' {
        RunBounds(rest, h, base + 1, base + 1);
      } else {
        RunBounds(rest, h, base + 1, slot);
      }
    }
  }

  lemma MulSucc(h: nat, c: nat)
    ensures h * (c + 1) == h * c + h
  {
  }

  lemma MulAdd(h: nat, a: nat, b: nat)
    ensures h * (a + b) == h * a + h * b
  {
  }

  /** Ground and cube rocks score nothing. */
  lemma NoRocks(col: seq<char>, h: nat, base: nat, slot: nat)
    requires slot <= base && base + |col| <= h && CountRocks(col) == 0
    ensures Run(col, h, base, slot) == 0
  {
    RunBounds(col, h, base, slot);
  }

  // ---------------------------------------------------------------------------------------
  // An independent account: tilt the column, then weigh the rocks where they lie.

  function Fill(c: char, n: nat): (r: seq<char>)
    ensures |r| == n
  {
    if n == 0 then [] else [c] + Fill(c, n - 1)
  }

  lemma {:induction false} FillAt(c: char, n: nat)
    ensures forall y | 0 <= y < n :: Fill(c, n)[y] == c
  {
    if n > 0 {
      FillAt(c, n - 1);
      assert forall y | 1 <= y < n :: Fill(c, n)[y] == Fill(c, n - 1)[y - 1];
    }
  }

  /** A stretch of `o` round rocks and `d` empty cells once it has settled: rocks first. */
  function Heap(o: nat, d: nat): (r: seq<char>)
    ensures |r| == o + d
  {
    Fill('O', o) + Fill('.', d)
  }

  /** Tilting north, with a stretch of `o` rocks and `d` empty cells already passed since the
      last cube rock: the stretch settles when the next cube rock or the end is reached. */
  function TiltFrom(col: seq<char>, o: nat, d: nat): (r: seq<char>)
    ensures |r| == o + d + |col|
  {
    if col == [] then Heap(o, d)
    else if col[0] == '#' then Heap(o, d) + (['#'] + TiltFrom(col[1..], 0, 0))
    else if col[0] == 'O' then TiltFrom(col[1..], o + 1, d)
    else TiltFrom(col[1..], o, d + 1)
  }

  /** The column after tilting north. */
  function Tilt(col: seq<char>): (r: seq<char>)
    ensures |r| == |col|
  {
    TiltFrom(col, 0, 0)
  }

  /** The load of a column as it lies, its first cell at row `base`. */
  function Weigh(col: seq<char>, h: nat, base: nat): nat
    requires base + |col| <= h
  {
    if col == [] then 0 else (if col[0] == 'O' then h - base else 0) + Weigh(col[1..], h, base + 1)
  }

  /** The load of `n` rocks stacked from slot `s` down. */
  function Stack(h: nat, s: nat, n: nat): nat
    requires s + n <= h
    decreases n
  {
    if n == 0 then 0 else (h - s) + Stack(h, s + 1, n - 1)
  }

  lemma {:induction false} StackSnoc(h: nat, s: nat, n: nat)
    requires s + n + 1 <= h
    ensures Stack(h, s, n + 1) == Stack(h, s, n) + (h - (s + n))
    decreases n
  {
    if n > 0 {
      StackSnoc(h, s + 1, n - 1);
    }
  }

  lemma {:induction false} WeighAppend(a: seq<char>, b: seq<char>, h: nat, base: nat)
    requires base + |a| + |b| <= h
    ensures Weigh(a + b, h, base) == Weigh(a, h, base) + Weigh(b, h, base + |a|)
  {
    if a != [] {
      assert (a + b)[1..] == a[1..] + b;
      WeighAppend(a[1..], b, h, base + 1);
    } else {
      assert a + b == b;
    }
  }

  lemma {:induction false} WeighFill(c: char, n: nat, h: nat, base: nat)
    requires base + n <= h
    ensures Weigh(Fill(c, n), h, base) == if c == 'O' then Stack(h, base, n) else 0
  {
    if n > 0 {
      WeighFill(c, n - 1, h, base + 1);
    }
  }

  lemma WeighHeap(o: nat, d: nat, h: nat, base: nat)
    requires base + o + d <= h
    ensures Weigh(Heap(o, d), h, base) == Stack(h, base, o)
  {
    WeighAppend(Fill('O', o), Fill('.', d), h, base);
    WeighFill('O', o, h, base);
    WeighFill('.', d, h, base + o);
  }

  lemma WeighCube(t: seq<char>, h: nat, base: nat)
    requires base + 1 + |t| <= h
    ensures Weigh(['#'] + t, h, base) == Weigh(t, h, base + 1)
  {
    assert (['#'] + t)[1..] == t;
  }

  lemma WeighHeapCube(o: nat, d: nat, t: seq<char>, h: nat, start: nat)
    requires start + o + d + 1 + |t| <= h
    ensures Weigh(Heap(o, d) + (['#'] + t), h, start) == Stack(h, start, o) + Weigh(t, h, start + o + d + 1)
  {
    WeighAppend(Heap(o, d), ['#'] + t, h, start);
    WeighHeap(o, d, h, start);
    WeighCube(t, h, start + o + d);
  }

  /** The scan, part way through a stretch, and the tilted column agree on the load. */
  lemma {:induction false} RunIsTiltFrom(col: seq<char>, h: nat, base: nat, o: nat, d: nat)
    requires o + d <= base && base + |col| <= h
    ensures Run(col, h, base, base - d) + Stack(h, base - o - d, o) == Weigh(TiltFrom(col, o, d), h, base - o - d)
    decreases |col|
  {
    var start := base - o - d;
    if col == [] {
      WeighHeap(o, d, h, start);
    } else if col[0] == '#' {
      RunIsTiltFrom(col[1..], h, base + 1, 0, 0);
      WeighHeapCube(o, d, TiltFrom(col[1..], 0, 0), h, start);
    } else if col[0] == 'O' {
      RunIsTiltFrom(col[1..], h, base + 1, o + 1, d);
      StackSnoc(h, start, o);
    } else {
      RunIsTiltFrom(col[1..], h, base + 1, o, d + 1);
    }
  }

  /** The scan's total is the load of the tilted column. */
  lemma RunIsTiltLoad(col: seq<char>, h: nat)
    requires |col| <= h
    ensures Run(col, h, 0, 0) == Weigh(Tilt(col), h, 0)
  {
    RunIsTiltFrom(col, h, 0, 0, 0);
  }

  lemma {:induction false} CountAppend(a: seq<char>, b: seq<char>)
    ensures CountRocks(a + b) == CountRocks(a) + CountRocks(b)
  {
    if a != [] {
      assert (a + b)[1..] == a[1..] + b;
      CountAppend(a[1..], b);
    } else {
      assert a + b == b;
    }
  }

  lemma {:induction false} CountFill(c: char, n: nat)
    ensures CountRocks(Fill(c, n)) == if c == 'O' then n else 0
  {
    if n > 0 {
      CountFill(c, n - 1);
    }
  }

  lemma HeapCells(o: nat, d: nat)
    ensures CountRocks(Heap(o, d)) == o
    ensures forall y | 0 <= y < o + d :: Heap(o, d)[y] == if y < o then 'O' else '.'
  {
    CountAppend(Fill('O', o), Fill('.', d));
    CountFill('O', o);
    CountFill('.', d);
    FillAt('O', o);
    FillAt('.', d);
    assert forall y | o <= y < o + d :: Heap(o, d)[y] == Fill('.', d)[y - o];
  }

  /** Tilting keeps the number of round rocks. */
  lemma {:induction false} TiltFromCount(col: seq<char>, o: nat, d: nat)
    ensures CountRocks(TiltFrom(col, o, d)) == o + CountRocks(col)
    decreases |col|
  {
    if col == [] {
      HeapCells(o, d);
    } else if col[0] == '#' {
      var t := TiltFrom(col[1..], 0, 0);
      TiltFromCount(col[1..], 0, 0);
      HeapCells(o, d);
      CountAppend(Heap(o, d), ['#'] + t);
      assert (['#'] + t)[1..] == t;
    } else if col[0] == 'O' {
      TiltFromCount(col[1..], o + 1, d);
    } else {
      TiltFromCount(col[1..], o, d + 1);
    }
  }

  /** Tilting leaves every cube rock where it is and puts none elsewhere. */
  lemma {:induction false} TiltFromCubes(col: seq<char>, o: nat, d: nat)
    ensures forall y | 0 <= y < o + d :: TiltFrom(col, o, d)[y] != '#'
    ensures forall y | 0 <= y < |col| :: TiltFrom(col, o, d)[o + d + y] == '#' <==> col[y] == '#'
    decreases |col|
  {
    HeapCells(o, d);
    var r := TiltFrom(col, o, d);
    if col == [] {
    } else if col[0] == '#' {
      var rest := col[1..];
      var t := TiltFrom(rest, 0, 0);
      TiltFromCubes(rest, 0, 0);
      assert r == Heap(o, d) + (['#'] + t);
      assert forall y | 0 <= y < o + d :: r[y] == Heap(o, d)[y];
      forall y | 0 <= y < |col|
        ensures r[o + d + y] == '#' <==> col[y] == '#'
      {
        if y > 0 {
          assert r[o + d + y] == t[y - 1] && col[y] == rest[y - 1];
        }
      }
    } else {
      var rest := col[1..];
      var o', d' := if col[0] == 'O' then o + 1 else o, if col[0] == 'O' then d else d + 1;
      TiltFromCubes(rest, o', d');
      assert r == TiltFrom(rest, o', d') && o' + d' == o + d + 1;
      forall y | 0 <= y < |col|
        ensures r[o + d + y] == '#' <==> col[y] == '#'
      {
        if y > 0 {
          assert o + d + y == o' + d' + (y - 1) && col[y] == rest[y - 1];
        }
      }
    }
  }

  lemma TiltKeeps(col: seq<char>)
    ensures CountRocks(Tilt(col)) == CountRocks(col)
    ensures forall y | 0 <= y < |col| :: Tilt(col)[y] == '#' <==> col[y] == '#'
  {
    TiltFromCount(col, 0, 0);
    TiltFromCubes(col, 0, 0);
    assert forall y | 0 <= y < |col| :: Tilt(col)[y] == TiltFrom(col, 0, 0)[0 + 0 + y];
  }

  /** After tilting no round rock has open ground directly north of it. */
  predicate Settled(col: seq<char>)
  {
    forall y | 0 < y < |col| :: col[y] == 'O' ==> col[y - 1] != '.'
  }

  lemma HeapThenSettled(o: nat, d: nat, t: seq<char>)
    requires Settled(t)
    ensures Settled(Heap(o, d) + (['#'] + t))
  {
    HeapCells(o, d);
    var r := Heap(o, d) + (['#'] + t);
    forall y | 0 < y < |r| && r[y] == 'O'
      ensures r[y - 1] != '.'
    {
      if y < o + d {
        assert r[y] == Heap(o, d)[y] && r[y - 1] == Heap(o, d)[y - 1];
      } else if y > o + d + 1 {
        assert r[y] == t[y - o - d - 1] && r[y - 1] == t[y - o - d - 2];
      }
    }
  }

  lemma {:induction false} TiltFromSettled(col: seq<char>, o: nat, d: nat)
    ensures Settled(TiltFrom(col, o, d))
    decreases |col|
  {
    if col == [] {
      HeapCells(o, d);
    } else if col[0] == '#' {
      TiltFromSettled(col[1..], 0, 0);
      HeapThenSettled(o, d, TiltFrom(col[1..], 0, 0));
    } else if col[0] == 'O' {
      TiltFromSettled(col[1..], o + 1, d);
    } else {
      TiltFromSettled(col[1..], o, d + 1);
    }
  }

  lemma TiltSettled(col: seq<char>)
    ensures Settled(Tilt(col))
  {
    TiltFromSettled(col, 0, 0);
  }

  // ---------------------------------------------------------------------------------------
  // `calc_1` and `proc`.

  /** The scans of the first `n` columns added up (on a rectangular grid `col_iter` yields
      exactly these columns, `ColIterColumn`). */
  function Load(d: InputData, n: nat): nat
    requires Rectangular(d.data) && n <= Width(d)
  {
    if n == 0 then 0 else Load(d, n - 1) + Run(Column(d.data, n - 1), Height(d), 0, 0)
  }

  /** The rocks in the first `n` columns. */
  function Rocks(d: InputData, n: nat): nat
    requires Rectangular(d.data) && n <= Width(d)
  {
    if n == 0 then 0 else Rocks(d, n - 1) + CountRocks(Column(d.data, n - 1))
  }

  /** The load is the load of the platform tilted north, column by column. */
  lemma {:induction false} LoadIsTilted(d: InputData, n: nat)
    requires Rectangular(d.data) && n <= Width(d)
    ensures Load(d, n) == TiltedLoad(d, n)
  {
    if n > 0 {
      LoadIsTilted(d, n - 1);
      RunIsTiltLoad(Column(d.data, n - 1), Height(d));
    }
  }

  function TiltedLoad(d: InputData, n: nat): nat
    requires Rectangular(d.data) && n <= Width(d)
  {
    if n == 0 then 0 else TiltedLoad(d, n - 1) + Weigh(Tilt(Column(d.data, n - 1)), Height(d), 0)
  }

  /** Between one and `height` per round rock. */
  lemma {:induction false} LoadBounds(d: InputData, n: nat)
    requires Rectangular(d.data) && n <= Width(d)
    ensures Rocks(d, n) <= Load(d, n) <= Height(d) * Rocks(d, n)
  {
    if n > 0 {
      LoadBounds(d, n - 1);
      var col := Column(d.data, n - 1);
      RunBounds(col, Height(d), 0, 0);
      MulAdd(Height(d), Rocks(d, n - 1), CountRocks(col));
    }
  }

  /** One step of the scan at cell `idx`. */
  lemma RunAt(col: seq<char>, h: nat, idx: nat, slot: nat)
    requires slot <= idx < |col| <= h
    ensures Run(col[idx..], h, idx, slot) ==
      if col[idx] == 'O' then (h - slot) + Run(col[idx + 1..], h, idx + 1, slot + 1)
      else if col[idx] == '#' then Run(col[idx + 1..], h, idx + 1, idx + 1)
      else Run(col[idx + 1..], h, idx + 1, slot)
  {
    assert col[idx..][0] == col[idx] && col[idx..][1..] == col[idx + 1..];
  }

  method Calc1(d: InputData) returns (ret: nat)
    requires Rectangular(d.data)
    ensures ret == Load(d, Width(d))
  {
    ret := 0;
    for i := 0 to Width(d)
      invariant ret == Load(d, i)
    {
      var col := ColIter(d, i);
      ColIterColumn(d, i);
      assert |col| == Height(d);
      var lastSquare := 0;
      ghost var start := ret;
      for idx := 0 to |col|
        invariant lastSquare <= idx
        invariant ret - start + Run(col[idx..], Height(d), idx, lastSquare) == Run(col, Height(d), 0, 0)
      {
        RunAt(col, Height(d), idx, lastSquare);
        if col[idx] == 'O' {
          ret := ret + (Height(d) - lastSquare);
          lastSquare := lastSquare + 1;
        } else if col[idx] == '#' {
          lastSquare := idx + 1;
        }
      }
    }
  }

  /** `proc`: the load of the parsed platform; nothing when the input does not parse or the
      rows are of different lengths. */
  function ProcSpec(input: seq<char>): Option<nat>
  {
    match Parse(input)
    case None => None
    case Some((rows, _)) =>
      if Rectangular(rows) then Some(Load(InputData(rows), |rows[0]|)) else None
  }

  method Proc(input: seq<char>) returns (r: Option<nat>)
    ensures r == ProcSpec(input)
  {
    var parsed := Parse(input);
    if parsed.None? || !Rectangular(parsed.value.0) {
      return None;
    }
    var total := Calc1(InputData(parsed.value.0));
    return Some(total);
  }
}
