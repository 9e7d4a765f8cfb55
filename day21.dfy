/** Day 21: a garden map of plots ('.'), rocks ('#') and the start ('S'). Each step moves every
    point to its orthogonal neighbours that are not rocks; the list of points is sorted and
    deduplicated after each step, and the answer is how many points there are at the end. */
module Day21 {
  import opened Common
  import CharGrid

  type Grid = seq<seq<char>>

  /** A position (x, y): column, then row, as `(usize, usize)`. */
  type Point = (nat, nat)

  predicate IsCell(c: char) { c == '.' || c == '#' || c == 'S' }

  /** `parse`: `many1` rows of `one_of(".#S")`, each ended by a newline. */
  function Parse(s: seq<char>): (r: Option<Grid>)
    ensures r.Some? ==> r.value != [] && CharGrid.Rows(r.value, IsCell)
  {
    match CharGrid.ParseGrid(s, IsCell)
    case None => None
    case Some((rows, _)) => Some(rows)
  }

  // ---------------------------------------------------------------------------------------
  // The start.

  predicate InGrid(data: Grid, q: Point) { q.1 < |data| && q.0 < |data[q.1]| }

  /** Row-major order: earlier row, or the same row and an earlier column. */
  predicate Before(a: Point, b: Point) { a.1 < b.1 || (a.1 == b.1 && a.0 < b.0) }

  /** The first 'S' of a row at or after column x, or the row's length when there is none. */
  function ColumnFrom(row: seq<char>, x: nat): (c: nat)
    requires x <= |row|
    ensures x <= c <= |row| && (c < |row| ==> row[c] == 'S')
    ensures forall j | x <= j < c :: row[j] != 'S'
    decreases |row| - x
  {
    if x == |row| then x
    else if row[x] == 'S' then x
    else ColumnFrom(row, x + 1)
  }

  /** The first 'S' at or after row y, in row-major order. */
  function StartFrom(data: Grid, y: nat): (r: Option<Point>)
    requires y <= |data|
    ensures r.Some? ==> InGrid(data, r.value) && r.value.1 >= y && data[r.value.1][r.value.0] == 'S'
    ensures r.Some? ==> forall b, a | y <= b < |data| && 0 <= a < |data[b]| && Before((a, b), r.value) :: data[b][a] != 'S'
    ensures r.None? ==> forall b, a | y <= b < |data| && 0 <= a < |data[b]| :: data[b][a] != 'S'
    decreases |data| - y
  {
    if y == |data| then None
    else
      var x := ColumnFrom(data[y], 0);
      if x < |data[y]| then Some((x, y)) else StartFrom(data, y + 1)
  }

  /** What `find_start` looks for: the first 'S' in row-major order, or None where the source
      reaches `unreachable!`. */
  function Start(data: Grid): (r: Option<Point>)
    ensures r.Some? ==> InGrid(data, r.value) && data[r.value.1][r.value.0] == 'S'
    ensures r.Some? ==> forall b, a | 0 <= b < |data| && 0 <= a < |data[b]| && Before((a, b), r.value) :: data[b][a] != 'S'
    ensures r.None? <==> forall b, a | 0 <= b < |data| && 0 <= a < |data[b]| :: data[b][a] != 'S'
  {
    StartFrom(data, 0)
  }

  /** `find_start`: the two nested loops with their early return. */
  method FindStart(data: Grid) returns (r: Option<Point>)
    ensures r == Start(data)
  {
    for y := 0 to |data|
      invariant StartFrom(data, 0) == StartFrom(data, y)
    {
      for x := 0 to |data[y]|
        invariant ColumnFrom(data[y], 0) == ColumnFrom(data[y], x)
      {
        if data[y][x] == 'S' {
          return Some((x, y));
        }
      }
    }
    return None;
  }

  // ---------------------------------------------------------------------------------------
  // Neighbours.

  predicate Adjacent(p: Point, q: Point)
  {
    (q.1 == p.1 && (q.0 + 1 == p.0 || q.0 == p.0 + 1)) || (q.0 == p.0 && (q.1 + 1 == p.1 || q.1 == p.1 + 1))
  }

  /** Where a neighbour comes in the probing order: left 0, right 1, up 2, down 3. */
  function Rank(p: Point, q: Point): nat
  {
    if q.1 == p.1 && q.0 + 1 == p.0 then 0
    else if q.1 == p.1 && q.0 == p.0 + 1 then 1
    else if q.0 == p.0 && q.1 + 1 == p.1 then 2
    else 3
  }

  predicate RankIncreasing(p: Point, s: seq<Point>)
  {
    forall i, j | 0 <= i < j < |s| :: Rank(p, s[i]) < Rank(p, s[j])
  }

  function Left(p: Point): seq<Point> { if p.0 > 0 then [(p.0 - 1, p.1)] else [] }

  function Right(p: Point, width: nat): seq<Point> { if p.0 < width - 1 then [(p.0 + 1, p.1)] else [] }

  function Up(p: Point): seq<Point> { if p.1 > 0 then [(p.0, p.1 - 1)] else [] }

  function Down(p: Point, height: nat): seq<Point> { if p.1 < height - 1 then [(p.0, p.1 + 1)] else [] }

  /** The four guards of `find_neighbours`, against the grid's width (the length of its first
      row) and height: the points it goes on to probe, in the order left, right, up, down. */
  function Candidates(p: Point, width: nat, height: nat): seq<Point>
  {
    Left(p) + (Right(p, width) + (Up(p) + Down(p, height)))
  }

  /** At most four candidates, each adjacent, in the order left, right, up, down. */
  lemma CandidatesOrder(p: Point, width: nat, height: nat)
    ensures var cs := Candidates(p, width, height);
      |cs| <= 4 && RankIncreasing(p, cs) && forall q: Point | q in cs :: Adjacent(p, q)
  {
    var l, r, u, d := Left(p), Right(p, width), Up(p), Down(p, height);
    var cs := l + (r + (u + d));
    assert forall i | 0 <= i < |cs| ::
      Rank(p, cs[i]) == if i < |l| then 0 else if i < |l| + |r| then 1 else if i < |l| + |r| + |u| then 2 else 3;
  }

  /** From a point inside the width and height, the candidates are exactly the adjacent points
      inside them. */
  lemma CandidatesMeaning(p: Point, width: nat, height: nat)
    requires p.0 < width && p.1 < height
    ensures forall q: Point :: q in Candidates(p, width, height) <==> Adjacent(p, q) && q.0 < width && q.1 < height
  {
  }

  /** The candidates whose cell exists and is not a rock, in order. */
  function Kept(data: Grid, cs: seq<Point>): seq<Point>
  {
    if cs == [] then []
    else
      var q := cs[0];
      (if InGrid(data, q) && data[q.1][q.0] != '#' then [q] else []) + Kept(data, cs[1..])
  }

  /** The kept points are at most the candidates, and exactly those whose cell exists and is
      not a rock. */
  lemma {:induction false} KeptMeaning(data: Grid, cs: seq<Point>)
    ensures |Kept(data, cs)| <= |cs|
    ensures forall q: Point :: q in Kept(data, cs) <==> q in cs && InGrid(data, q) && data[q.1][q.0] != '#'
  {
    if cs != [] {
      KeptMeaning(data, cs[1..]);
      assert forall x: Point :: x in cs <==> x == cs[0] || x in cs[1..] by { assert cs == [cs[0]] + cs[1..]; }
    }
  }

  /** Keeping some candidates keeps their order. */
  lemma {:induction false} KeptRanks(data: Grid, p: Point, cs: seq<Point>)
    requires RankIncreasing(p, cs)
    ensures RankIncreasing(p, Kept(data, cs))
  {
    if cs != [] {
      var t := cs[1..];
      KeptRanks(data, p, t);
      var k := Kept(data, t);
      if InGrid(data, cs[0]) && data[cs[0].1][cs[0].0] != '#' {
        KeptMeaning(data, t);
        forall x: Point | x in k
          ensures Rank(p, cs[0]) < Rank(p, x)
        {
          var i :| 0 <= i < |t| && t[i] == x;
          assert t[i] == cs[i + 1];
        }
        ConsRanks(p, cs[0], k);
      } else {
        assert [] + k == k;
      }
    }
  }

  lemma ConsRanks(p: Point, x: Point, k: seq<Point>)
    requires RankIncreasing(p, k) && forall y: Point | y in k :: Rank(p, x) < Rank(p, y)
    ensures RankIncreasing(p, [x] + k)
  {
    var r := [x] + k;
    forall i, j | 0 <= i < j < |r|
      ensures Rank(p, r[i]) < Rank(p, r[j])
    {
      if i == 0 {
        assert r[j] == k[j - 1] && k[j - 1] in k;
      } else {
        assert r[i] == k[i - 1] && r[j] == k[j - 1];
      }
    }
  }

  /** Probing the candidates one after the other onto the points kept so far: each
      `data[y][x]` may panic, and a point is pushed when its cell is not a rock. */
  function Probe(data: Grid, cs: seq<Point>, acc: seq<Point>): Option<seq<Point>>
    decreases |cs|
  {
    if cs == [] then Some(acc)
    else
      var q := cs[0];
      if !InGrid(data, q) then None
      else Probe(data, cs[1..], acc + (if data[q.1][q.0] != '#' then [q] else []))
  }

  /** The probes panic iff some candidate is outside the grid, and otherwise push the kept
      points. */
  lemma {:induction false} ProbeIsKept(data: Grid, cs: seq<Point>, acc: seq<Point>)
    ensures Probe(data, cs, acc) ==
      if forall i | 0 <= i < |cs| :: InGrid(data, cs[i]) then Some(acc + Kept(data, cs)) else None
    decreases |cs|
  {
    if cs != [] {
      var q := cs[0];
      if InGrid(data, q) {
        var h: seq<Point> := if data[q.1][q.0] != '#' then [q] else [];
        ProbeIsKept(data, cs[1..], acc + h);
        assert acc + h + Kept(data, cs[1..]) == acc + (h + Kept(data, cs[1..]));
        assert forall i | 0 <= i < |cs[1..]| :: cs[1..][i] == cs[i + 1];
        assert (forall i | 0 <= i < |cs| :: InGrid(data, cs[i])) <==>
          (forall i | 0 <= i < |cs[1..]| :: InGrid(data, cs[1..][i]));
      }
    } else {
      assert acc + [] == acc;
    }
  }

  /** A probe of the first candidate of a piece of at most one point, then the rest. */
  lemma ProbePiece(data: Grid, piece: seq<Point>, rest: seq<Point>, acc: seq<Point>)
    requires |piece| <= 1
    ensures piece == [] ==> Probe(data, piece + rest, acc) == Probe(data, rest, acc)
    ensures piece != [] ==> var q := piece[0];
      Probe(data, piece + rest, acc) ==
        if !InGrid(data, q) then None
        else Probe(data, rest, if data[q.1][q.0] != '#' then acc + [q] else acc)
  {
    if piece == [] {
      assert piece + rest == rest;
    } else {
      assert (piece + rest)[1..] == rest;
      assert acc + [] == acc;
    }
  }

  /** `find_neighbours`: None where the source panics (no first row, a zero width, or an index
      past a shorter row). */
  function Neighbours(data: Grid, p: Point): Option<seq<Point>>
  {
    if data == [] || |data[0]| == 0 then None
    else Probe(data, Candidates(p, |data[0]|, |data|), [])
  }

  /** `find_neighbours` as written: the four guarded pushes. */
  method FindNeighbours(data: Grid, p: Point) returns (r: Option<seq<Point>>)
    ensures r == Neighbours(data, p)
  {
    if data == [] || |data[0]| == 0 {
      return None;
    }
    var height := |data|;
    var width := |data[0]|;
    var ret: seq<Point> := [];
    ProbePiece(data, Left(p), Right(p, width) + (Up(p) + Down(p, height)), ret);
    if p.0 > 0 {
      var q := (p.0 - 1, p.1);
      if !InGrid(data, q) {
        return None;
      }
      if data[q.1][q.0] != '#' { ret := ret + [q]; }
    }
    ProbePiece(data, Right(p, width), Up(p) + Down(p, height), ret);
    if p.0 < width - 1 {
      var q := (p.0 + 1, p.1);
      if !InGrid(data, q) {
        return None;
      }
      if data[q.1][q.0] != '#' { ret := ret + [q]; }
    }
    ProbePiece(data, Up(p), Down(p, height), ret);
    if p.1 > 0 {
      var q := (p.0, p.1 - 1);
      if !InGrid(data, q) {
        return None;
      }
      if data[q.1][q.0] != '#' { ret := ret + [q]; }
    }
    ProbePiece(data, Down(p, height), [], ret);
    assert Down(p, height) + [] == Down(p, height);
    if p.1 < height - 1 {
      var q := (p.0, p.1 + 1);
      if !InGrid(data, q) {
        return None;
      }
      if data[q.1][q.0] != '#' { ret := ret + [q]; }
    }
    return Some(ret);
  }

  /** Every row as long as the first, and the first not empty. */
  predicate Rect(data: Grid)
  {
    data != [] && |data[0]| > 0 && forall y | 0 <= y < |data| :: |data[y]| == |data[0]|
  }

  /** Whatever the grid, every point found is an adjacent cell of the grid that is not a rock,
      there are at most four, and they come in the order left, right, up, down. */
  lemma NeighboursCells(data: Grid, p: Point)
    requires Neighbours(data, p).Some?
    ensures var r := Neighbours(data, p).value;
      |r| <= 4 && RankIncreasing(p, r) &&
      (forall q: Point | q in r :: Adjacent(p, q) && InGrid(data, q) && data[q.1][q.0] != '#')
  {
    var cs := Candidates(p, |data[0]|, |data|);
    CandidatesOrder(p, |data[0]|, |data|);
    ProbeIsKept(data, cs, []);
    assert [] + Kept(data, cs) == Kept(data, cs);
    KeptMeaning(data, cs);
    KeptRanks(data, p, cs);
  }

  /** On a rectangular grid and from a point inside it, `find_neighbours` never panics and
      finds exactly the adjacent cells inside the grid that are not rocks. */
  lemma NeighboursMeaning(data: Grid, p: Point)
    requires Rect(data) && InGrid(data, p)
    ensures Neighbours(data, p).Some?
    ensures forall q: Point :: q in Neighbours(data, p).value <==> Adjacent(p, q) && InGrid(data, q) && data[q.1][q.0] != '#'
  {
    var cs := Candidates(p, |data[0]|, |data|);
    CandidatesMeaning(p, |data[0]|, |data|);
    ProbeIsKept(data, cs, []);
    assert [] + Kept(data, cs) == Kept(data, cs);
    KeptMeaning(data, cs);
    forall i | 0 <= i < |cs|
      ensures InGrid(data, cs[i])
    {
      assert cs[i] in cs;
    }
  }

  // ---------------------------------------------------------------------------------------
  // Sort and dedup.

  /** The order of `(usize, usize)`: by x, then by y. */
  predicate Le(a: Point, b: Point) { a.0 < b.0 || (a.0 == b.0 && a.1 <= b.1) }

  predicate Lt(a: Point, b: Point) { a.0 < b.0 || (a.0 == b.0 && a.1 < b.1) }

  predicate Sorted(s: seq<Point>) { forall i, j | 0 <= i < j < |s| :: Le(s[i], s[j]) }

  predicate StrictlySorted(s: seq<Point>) { forall i, j | 0 <= i < j < |s| :: Lt(s[i], s[j]) }

  function Insert(s: seq<Point>, x: Point): (r: seq<Point>)
    requires Sorted(s)
    ensures Sorted(r) && multiset(r) == multiset(s) + multiset{x}
  {
    if s == [] then [x]
    else if Le(x, s[0]) then [x] + s
    else
      var t := Insert(s[1..], x);
      assert s == [s[0]] + s[1..];
      assert forall i | 0 <= i < |t| :: Le(s[0], t[i]) by {
        forall i | 0 <= i < |t|
          ensures Le(s[0], t[i])
        {
          assert t[i] in multiset(t);
        }
      }
      [s[0]] + t
  }

  /** `sort`: the points in order, the same multiset. */
  function Sort(s: seq<Point>): (r: seq<Point>)
    ensures Sorted(r) && multiset(r) == multiset(s)
  {
    if s == [] then []
    else
      assert s == [s[0]] + s[1..];
      Insert(Sort(s[1..]), s[0])
  }

  /** `dedup`: drops every element equal to the one before it. */
  function Dedup(s: seq<Point>): (r: seq<Point>)
    ensures forall x: Point :: x in r <==> x in s
    ensures s != [] ==> r != [] && r[0] == s[0]
    ensures Sorted(s) ==> StrictlySorted(r)
  {
    if |s| <= 1 then s
    else if s[0] == s[1] then
      assert s[1..] != [] && s[1..][0] == s[1];
      assert forall x: Point :: x in s <==> x == s[0] || x in s[1..];
      Dedup(s[1..])
    else
      var t := Dedup(s[1..]);
      assert forall x: Point :: x in s <==> x == s[0] || x in s[1..];
      assert Sorted(s) ==> StrictlySorted([s[0]] + t) by {
        if Sorted(s) {
          assert Sorted(s[1..]);
          forall x: Point | x in t
            ensures Lt(s[0], x)
          {
            var k :| 0 <= k < |s[1..]| && s[1..][k] == x;
            assert Le(s[1], s[k + 1]);
          }
          forall i, j | 0 <= i < j < |[s[0]] + t|
            ensures Lt(([s[0]] + t)[i], ([s[0]] + t)[j])
          {
            if i == 0 {
              assert t[j - 1] in t;
            }
          }
        }
      }
      [s[0]] + t
  }

  /** `sort` then `dedup`: strictly increasing and the same points. */
  lemma SortDedup(s: seq<Point>)
    ensures StrictlySorted(Dedup(Sort(s)))
    ensures forall x: Point :: x in Dedup(Sort(s)) <==> x in s
  {
    forall x: Point
      ensures x in Sort(s) <==> x in s
    {
      assert x in Sort(s) <==> x in multiset(Sort(s));
      assert x in s <==> x in multiset(s);
    }
  }

  /** A strictly increasing list is determined by its elements. */
  lemma {:induction false} StrictlySortedUnique(a: seq<Point>, b: seq<Point>)
    requires StrictlySorted(a) && StrictlySorted(b)
    requires forall x: Point :: x in a <==> x in b
    ensures a == b
    decreases |a|
  {
    if a != [] && b != [] {
      assert a[0] == b[0] by {
        assert b[0] in a && a[0] in b;
        var i :| 0 <= i < |a| && a[i] == b[0];
        var j :| 0 <= j < |b| && b[j] == a[0];
      }
      forall x: Point
        ensures x in a[1..] <==> x in b[1..]
      {
        assert x in a <==> x == a[0] || x in a[1..] by { assert a == [a[0]] + a[1..]; }
        assert x in b <==> x == b[0] || x in b[1..] by { assert b == [b[0]] + b[1..]; }
        if x in a[1..] {
          var k :| 0 <= k < |a[1..]| && a[1..][k] == x;
          assert Lt(a[0], a[k + 1]);
        }
        if x in b[1..] {
          var k :| 0 <= k < |b[1..]| && b[1..][k] == x;
          assert Lt(b[0], b[k + 1]);
        }
      }
      StrictlySortedUnique(a[1..], b[1..]);
      assert a == [a[0]] + a[1..] && b == [b[0]] + b[1..];
    } else {
      SameEmpty(a, b);
    }
  }

  lemma SameEmpty(a: seq<Point>, b: seq<Point>)
    requires forall x: Point :: x in a <==> x in b
    ensures a == [] <==> b == []
  {
    if a != [] {
      assert a[0] in b;
    }
    if b != [] {
      assert b[0] in a;
    }
  }

  // ---------------------------------------------------------------------------------------
  // Steps.

  /** The inner loop of a step: the neighbours of every point, point by point, in order. */
  function Expand(data: Grid, ps: seq<Point>): Option<seq<Point>>
  {
    if ps == [] then Some([])
    else
      match Expand(data, ps[..|ps| - 1])
      case None => None
      case Some(a) =>
        match Neighbours(data, ps[|ps| - 1])
        case None => None
        case Some(n) => Some(a + n)
  }

  /** The same loop for any way of finding neighbours. */
  function ExpandWith(moves: Point -> Option<seq<Point>>, ps: seq<Point>): Option<seq<Point>>
  {
    if ps == [] then Some([])
    else
      match ExpandWith(moves, ps[..|ps| - 1])
      case None => None
      case Some(a) =>
        match moves(ps[|ps| - 1])
        case None => None
        case Some(n) => Some(a + n)
  }

  lemma {:induction false} ExpandWithMeaning(moves: Point -> Option<seq<Point>>, ps: seq<Point>)
    ensures ExpandWith(moves, ps).Some? <==> forall i | 0 <= i < |ps| :: moves(ps[i]).Some?
    ensures ExpandWith(moves, ps).Some? ==>
      forall q: Point :: q in ExpandWith(moves, ps).value <==>
        exists i | 0 <= i < |ps| :: moves(ps[i]).Some? && q in moves(ps[i]).value
  {
    if ps != [] {
      var init := ps[..|ps| - 1];
      ExpandWithMeaning(moves, init);
      assert forall i | 0 <= i < |init| :: init[i] == ps[i];
    }
  }

  lemma {:induction false} ExpandIsWith(data: Grid, ps: seq<Point>)
    ensures Expand(data, ps) == ExpandWith(p => Neighbours(data, p), ps)
  {
    if ps != [] {
      ExpandIsWith(data, ps[..|ps| - 1]);
    }
  }

  /** The inner loop fails iff some point's neighbours panic, and otherwise collects exactly
      the neighbours of the points. */
  lemma ExpandMeaning(data: Grid, ps: seq<Point>)
    ensures Expand(data, ps).Some? <==> forall i | 0 <= i < |ps| :: Neighbours(data, ps[i]).Some?
    ensures Expand(data, ps).Some? ==>
      forall q: Point :: q in Expand(data, ps).value <==>
        exists i | 0 <= i < |ps| :: Neighbours(data, ps[i]).Some? && q in Neighbours(data, ps[i]).value
  {
    ExpandIsWith(data, ps);
    ExpandWithMeaning(p => Neighbours(data, p), ps);
  }

  lemma {:induction false} ExpandKeepsNone(data: Grid, ps: seq<Point>, k: nat)
    requires k <= |ps| && Expand(data, ps[..k]).None?
    ensures Expand(data, ps).None?
    decreases |ps| - k
  {
    if k < |ps| {
      assert ps[..k + 1][..k] == ps[..k];
      ExpandKeepsNone(data, ps, k + 1);
    } else {
      assert ps[..k] == ps;
    }
  }

  /** One turn of the step loop: collect, sort, dedup. */
  function Step(data: Grid, ps: seq<Point>): Option<seq<Point>>
  {
    match Expand(data, ps)
    case None => None
    case Some(e) => Some(Dedup(Sort(e)))
  }

  /** After a step the points are strictly increasing (sorted, no duplicates), and they are
      exactly the neighbours of the points before it. */
  lemma StepMeaning(data: Grid, ps: seq<Point>)
    requires Step(data, ps).Some?
    ensures StrictlySorted(Step(data, ps).value)
    ensures forall q: Point :: q in Step(data, ps).value <==>
      exists i | 0 <= i < |ps| :: Neighbours(data, ps[i]).Some? && q in Neighbours(data, ps[i]).value
  {
    ExpandMeaning(data, ps);
    SortDedup(Expand(data, ps).value);
  }

  /** A step depends only on which points there are, not on their order or repetition. */
  lemma StepSetOnly(data: Grid, a: seq<Point>, b: seq<Point>)
    requires forall x: Point :: x in a <==> x in b
    ensures Step(data, a).Some? <==> Step(data, b).Some?
    ensures Step(data, a).Some? ==> Step(data, a) == Step(data, b)
  {
    ExpandMeaning(data, a);
    ExpandMeaning(data, b);
    if Step(data, a).Some? {
      forall i | 0 <= i < |b|
        ensures Neighbours(data, b[i]).Some?
      {
        assert b[i] in a;
      }
      StepMeaning(data, a);
      StepMeaning(data, b);
      forall q: Point
        ensures q in Step(data, a).value <==> q in Step(data, b).value
      {
        if q in Step(data, a).value {
          var i :| 0 <= i < |a| && Neighbours(data, a[i]).Some? && q in Neighbours(data, a[i]).value;
          assert a[i] in b;
          var j :| 0 <= j < |b| && b[j] == a[i];
        }
        if q in Step(data, b).value {
          var i :| 0 <= i < |b| && Neighbours(data, b[i]).Some? && q in Neighbours(data, b[i]).value;
          assert b[i] in a;
          var j :| 0 <= j < |a| && a[j] == b[i];
        }
      }
      StrictlySortedUnique(Step(data, a).value, Step(data, b).value);
    } else if Step(data, b).Some? {
      forall i | 0 <= i < |a|
        ensures Neighbours(data, a[i]).Some?
      {
        assert a[i] in b;
      }
    }
  }

  /** The points after n more steps from the points ps, or None once a step panics. */
  function Walk(data: Grid, ps: seq<Point>, n: nat): Option<seq<Point>>
    decreases n
  {
    if n == 0 then Some(ps)
    else
      match Step(data, ps)
      case None => None
      case Some(next) => Walk(data, next, n - 1)
  }

  /** After one step or more, the points are strictly increasing, and each one is a cell of
      the grid that is not a rock. */
  lemma {:induction false} WalkCells(data: Grid, ps: seq<Point>, n: nat)
    requires n >= 1 && Walk(data, ps, n).Some?
    ensures StrictlySorted(Walk(data, ps, n).value)
    ensures forall q: Point | q in Walk(data, ps, n).value :: InGrid(data, q) && data[q.1][q.0] != '#'
    decreases n
  {
    var next := Step(data, ps).value;
    if n > 1 {
      WalkCells(data, next, n - 1);
    } else {
      StepMeaning(data, ps);
      forall q: Point | q in next
        ensures InGrid(data, q) && data[q.1][q.0] != '#'
      {
        var i :| 0 <= i < |ps| && Neighbours(data, ps[i]).Some? && q in Neighbours(data, ps[i]).value;
        NeighboursCells(data, ps[i]);
      }
    }
  }

  /** On a rectangular grid one step from points inside it never panics and stays inside. */
  lemma StepNoPanic(data: Grid, ps: seq<Point>)
    requires Rect(data) && forall q: Point | q in ps :: InGrid(data, q)
    ensures Step(data, ps).Some?
    ensures forall q: Point | q in Step(data, ps).value :: InGrid(data, q)
  {
    forall i | 0 <= i < |ps|
      ensures Neighbours(data, ps[i]).Some?
    {
      assert ps[i] in ps;
      NeighboursMeaning(data, ps[i]);
    }
    ExpandMeaning(data, ps);
    StepMeaning(data, ps);
    forall q: Point | q in Step(data, ps).value
      ensures InGrid(data, q)
    {
      var i :| 0 <= i < |ps| && Neighbours(data, ps[i]).Some? && q in Neighbours(data, ps[i]).value;
      NeighboursCells(data, ps[i]);
    }
  }

  /** On a rectangular grid and from points inside it, no step ever panics, and every point
      stays inside the grid. */
  lemma {:induction false} WalkNoPanic(data: Grid, ps: seq<Point>, n: nat)
    requires Rect(data) && forall q: Point | q in ps :: InGrid(data, q)
    ensures Walk(data, ps, n).Some?
    ensures forall q: Point | q in Walk(data, ps, n).value :: InGrid(data, q)
    decreases n
  {
    if n > 0 {
      StepNoPanic(data, ps);
      WalkNoPanic(data, Step(data, ps).value, n - 1);
    }
  }

  // ---------------------------------------------------------------------------------------
  // The answer.

  /** `proc_1`: parse (`unwrap`), find the start (`unreachable!`), take `steps` steps and count
      the points; None where the source panics. */
  function Solve(input: seq<char>, steps: nat): Option<nat>
  {
    match Parse(input)
    case None => None
    case Some(data) =>
      match Start(data)
      case None => None
      case Some(s) =>
        match Walk(data, [s], steps)
        case None => None
        case Some(ps) => Some(|ps|)
  }

  /** With no step the answer is the start alone. */
  lemma SolveZero(input: seq<char>)
    ensures Solve(input, 0).Some? <==> Parse(input).Some? && Start(Parse(input).value).Some?
    ensures Solve(input, 0).Some? ==> Solve(input, 0) == Some(1)
  {
  }

  /** A parsed rectangular map with a start always gives an answer. */
  lemma SolveNoPanic(input: seq<char>, steps: nat)
    requires Parse(input).Some? && Rect(Parse(input).value)
    requires exists b, a | 0 <= b < |Parse(input).value| && 0 <= a < |Parse(input).value[b]| :: Parse(input).value[b][a] == 'S'
    ensures Solve(input, steps).Some?
  {
    var data := Parse(input).value;
    WalkNoPanic(data, [Start(data).value], steps);
  }

  /** The body of the step loop: the inner loop over the points, then `sort` and `dedup`. */
  method Advance(data: Grid, points: seq<Point>) returns (r: Option<seq<Point>>)
    ensures r == Step(data, points)
  {
    var newPoints: seq<Point> := [];
    for j := 0 to |points|
      invariant Expand(data, points[..j]) == Some(newPoints)
    {
      var n := FindNeighbours(data, points[j]);
      if n.None? {
        assert points[..j + 1][..j] == points[..j];
        ExpandKeepsNone(data, points, j + 1);
        return None;
      }
      assert points[..j + 1][..j] == points[..j];
      newPoints := newPoints + n.value;
    }
    assert points[..|points|] == points;
    return Some(Dedup(Sort(newPoints)));
  }

  /** The step loop of `proc_1`, from the start alone. */
  method Steps(data: Grid, start: Point, steps: nat) returns (r: Option<seq<Point>>)
    ensures r == Walk(data, [start], steps)
  {
    var points := [start];
    for i := 0 to steps
      invariant Walk(data, [start], steps) == Walk(data, points, steps - i)
    {
      var next := Advance(data, points);
      if next.None? {
        return None;
      }
      points := next.value;
    }
    return Some(points);
  }

  /** `proc_1` as written: parse, find the start, the step loop, the count. */
  method Proc1(input: seq<char>, steps: nat) returns (r: Option<nat>)
    ensures r == Solve(input, steps)
  {
    var parsed := Parse(input);
    if parsed.None? {
      return None;
    }
    var data := parsed.value;
    var start := FindStart(data);
    if start.None? {
      return None;
    }
    var points := Steps(data, start.value, steps);
    if points.None? {
      return None;
    }
    return Some(|points.value|);
  }
}
