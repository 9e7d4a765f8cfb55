/** Day 10: a grid of pipe tiles. Every pipe registers its own position with the two
    neighbours its connectors face; the walk from the start follows registrations until it
    cannot move, and half of its length is the distance to the farthest point of the loop. */
module Day10 {
  import opened Common

  // Reading the grid.

  predicate IsTile(c: char)
  {
    c == '|' || c == '-' || c == 'L' || c == 'J' || c == '7' || c == 'F' || c == '.' || c == 'S'
  }

  predicate AllTiles(line: seq<char>) { forall i | 0 <= i < |line| :: IsTile(line[i]) }

  /** `parse_line`: one or more tiles, then a newline. */
  function ParseLine(s: seq<char>): (r: Option<(seq<char>, seq<char>)>)
    ensures r.Some? ==> r.value.0 != [] && AllTiles(r.value.0) && |r.value.1| < |s|
  {
    var k := Span(s, IsTile);
    if k == 0 then None
    else
      match Newline(s[k..])
      case None => None
      case Some(rest) => Some((s[..k], rest))
  }

  predicate Tiled(rows: seq<seq<char>>)
  {
    forall y | 0 <= y < |rows| :: rows[y] != [] && AllTiles(rows[y])
  }

  /** Lines as long as they parse; `parse` (`many1`) is this list when it is not empty. */
  function ParseLines(s: seq<char>): (r: (seq<seq<char>>, seq<char>))
    ensures Tiled(r.0)
    decreases |s|
  {
    match ParseLine(s)
    case None => ([], s)
    case Some((line, rest)) =>
      var tail := ParseLines(rest);
      ([line] + tail.0, tail.1)
  }

  function Parse(s: seq<char>): (r: Option<seq<seq<char>>>)
    ensures r.Some? ==> r.value != [] && Tiled(r.value)
  {
    var rows := ParseLines(s).0;
    if rows == [] then None else Some(rows)
  }

  lemma ParseLineOfShow(line: seq<char>, rest: seq<char>)
    requires line != [] && AllTiles(line)
    ensures ParseLine(line + ("\n" + rest)) == Some((line, rest))
  {
    var s := line + ("\n" + rest);
    SpanOfConcat(line, "\n" + rest, IsTile);
    assert s[..|line|] == line && s[|line|..] == "\n" + rest;
  }

  function ShowLines(rows: seq<seq<char>>): seq<char>
  {
    if rows == [] then [] else rows[0] + ("\n" + ShowLines(rows[1..]))
  }

  lemma ParseLinesStep(s: seq<char>, line: seq<char>, rest: seq<char>, tail: seq<seq<char>>, after: seq<char>)
    requires ParseLine(s) == Some((line, rest)) && ParseLines(rest) == (tail, after)
    ensures ParseLines(s) == ([line] + tail, after)
  {
  }

  /** Printed tile rows read back as the same rows, consuming the whole input. */
  lemma {:induction false} ParseLinesOfShow(rows: seq<seq<char>>)
    requires Tiled(rows)
    ensures ParseLines(ShowLines(rows)) == (rows, [])
  {
    if rows != [] {
      var tail := rows[1..];
      assert Tiled(tail) by {
        assert forall y | 0 <= y < |tail| :: tail[y] == rows[y + 1];
      }
      assert ParseLine(ShowLines(rows)) == Some((rows[0], ShowLines(tail))) by {
        ParseLineOfShow(rows[0], ShowLines(tail));
      }
      ParseLinesOfShow(tail);
      ParseLinesStep(ShowLines(rows), rows[0], ShowLines(tail), tail, []);
      assert rows == [rows[0]] + tail;
    }
  }

  /** The inline test: ".S-7.\n" is one row of five tiles with nothing left. */
  lemma ExampleLine()
    ensures ParseLine(".S-7.\n") == Some((".S-7.", []))
  {
    ParseLineOfShow(".S-7.", []);
    assert ".S-7." + ("\n" + []) == ".S-7.\n";
  }

  // The grid of nodes.

  /** A position (x, y): column, then row. */
  type Pos = (nat, nat)

  datatype Node = Node(adjacent: seq<Pos>, pos: Pos, value: char)

  type Nodes = seq<seq<Node>>

  predicate InGrid(g: Nodes, p: Pos) { p.1 < |g| && p.0 < |g[p.1]| }

  /** Every row is at least as long as the first, whose length the source takes as the width:
      otherwise `build_adjacency_list` indexes past the end of a row. */
  predicate Wide(g: Nodes)
  {
    g != [] && forall y | 0 <= y < |g| :: |g[y]| >= |g[0]|
  }

  /** `analyze`'s grid: one node per tile, at its own position, with no neighbours yet. */
  function Analyzed(data: seq<seq<char>>): (g: Nodes)
    ensures |g| == |data| && forall y | 0 <= y < |g| :: |g[y]| == |data[y]|
  {
    seq(|data|, y requires 0 <= y < |data| =>
      seq(|data[y]|, x requires 0 <= x < |data[y]| => Node([], (x, y), data[y][x])))
  }

  /** The last 'S' of a row. */
  function LastS(line: seq<char>): (r: Option<nat>)
    ensures r.Some? ==> r.value < |line| && line[r.value] == 'S'
    ensures r.Some? ==> forall x | r.value < x < |line| :: line[x] != 'S'
    ensures r.None? ==> forall x | 0 <= x < |line| :: line[x] != 'S'
  {
    if line == [] then None
    else if line[|line| - 1] == 'S' then Some(|line| - 1)
    else LastS(line[..|line| - 1])
  }

  /** The start `analyze` reports: the last 'S' in reading order, or (0, 0) when there is none. */
  function StartIn(data: seq<seq<char>>): (p: Pos)
  {
    if data == [] then (0, 0)
    else
      match LastS(data[|data| - 1])
      case Some(x) => (x, |data| - 1)
      case None => StartIn(data[..|data| - 1])
  }

  predicate HasS(data: seq<seq<char>>)
  {
    exists y, x | 0 <= y < |data| && 0 <= x < |data[y]| :: data[y][x] == 'S'
  }

  /** The reported start is an 'S' with no 'S' after it in reading order; without any 'S' it is (0, 0). */
  lemma {:induction false} StartInMeaning(data: seq<seq<char>>)
    ensures HasS(data) ==> (StartIn(data).1 < |data| && StartIn(data).0 < |data[StartIn(data).1]|
      && data[StartIn(data).1][StartIn(data).0] == 'S')
    ensures HasS(data) ==> forall y, x | 0 <= y < |data| && 0 <= x < |data[y]| && data[y][x] == 'S' ::
      y < StartIn(data).1 || (y == StartIn(data).1 && x <= StartIn(data).0)
    ensures !HasS(data) ==> StartIn(data) == (0, 0)
  {
    if data != [] {
      var front := data[..|data| - 1];
      var last := data[|data| - 1];
      assert forall y | 0 <= y < |front| :: front[y] == data[y];
      match LastS(last)
      case Some(x) =>
      case None =>
        StartInMeaning(front);
        if HasS(data) {
          var y, x :| 0 <= y < |data| && 0 <= x < |data[y]| && data[y][x] == 'S';
          assert y < |front|;
          assert HasS(front);
        }
    }
  }

  /** The start `analyze` reports lies in the grid when the first row is not empty. */
  lemma StartInGrid(data: seq<seq<char>>)
    requires data != [] && data[0] != []
    ensures StartIn(data).1 < |data| && StartIn(data).0 < |data[StartIn(data).1]|
  {
    StartInMeaning(data);
  }

  /** The part of row y that `analyze` has built after x tiles. */
  function RowPart(line: seq<char>, y: nat, x: nat): (r: seq<Node>)
    requires x <= |line|
    ensures |r| == x
  {
    seq(x, i requires 0 <= i < x => Node([], (i, y), line[i]))
  }

  /** The inner loop of `analyze`: the nodes of row y, and the start updated by its last 'S'. */
  method AnalyzeRow(line: seq<char>, y: nat, start0: Pos) returns (tmp: seq<Node>, start: Pos)
    ensures tmp == RowPart(line, y, |line|)
    ensures start == match LastS(line) case Some(i) => (i, y) case None => start0
  {
    tmp := [];
    start := start0;
    for x := 0 to |line|
      invariant tmp == RowPart(line, y, x)
      invariant start == match LastS(line[..x]) case Some(i) => (i, y) case None => start0
    {
      tmp := tmp + [Node([], (x, y), line[x])];
      if line[x] == 'S' {
        start := (x, y);
      }
      assert line[..x + 1][..x] == line[..x];
    }
    assert line[..|line|] == line;
  }

  /** `analyze`: a node per tile and the last 'S' as the start. */
  method Analyze(data: seq<seq<char>>) returns (start: Pos, nodes: Nodes)
    ensures nodes == Analyzed(data)
    ensures start == StartIn(data)
  {
    nodes := [];
    start := (0, 0);
    for y := 0 to |data|
      invariant nodes == Analyzed(data[..y])
      invariant start == StartIn(data[..y])
    {
      var tmp;
      tmp, start := AnalyzeRow(data[y], y, start);
      assert data[..y + 1][..y] == data[..y];
      assert nodes + [tmp] == Analyzed(data[..y + 1]);
      nodes := nodes + [tmp];
    }
    assert data[..|data|] == data;
  }

  // Registering neighbours.

  /** `adjacent_push`'s neighbour of `pos` in direction `dir` (0 up, 1 right, 2 down, 3 left),
      or None when it lies outside the grid, whose width is that of the first row. */
  function Target(g: Nodes, pos: Pos, dir: nat): (r: Option<Pos>)
    requires g != [] && dir < 4
    ensures r.Some? && pos.1 < |g| && pos.0 < |g[0]| ==> r.value.1 < |g| && r.value.0 < |g[0]|
  {
    var (x, y) := pos;
    if dir == 0 then (if y > 0 then Some((x, y - 1)) else None)
    else if dir == 1 then (if x + 1 < |g[0]| then Some((x + 1, y)) else None)
    else if dir == 2 then (if y + 1 < |g| then Some((x, y + 1)) else None)
    else (if x > 0 then Some((x - 1, y)) else None)
  }

  predicate Adjacent(p: Pos, q: Pos)
  {
    (p.0 == q.0 && (p.1 == q.1 + 1 || q.1 == p.1 + 1)) || (p.1 == q.1 && (p.0 == q.0 + 1 || q.0 == p.0 + 1))
  }

  /** A neighbour in a direction is one step away, and different directions give different neighbours. */
  lemma TargetIsAdjacent(g: Nodes, pos: Pos, d: nat, e: nat)
    requires g != [] && d < 4 && e < 4
    ensures Target(g, pos, d).Some? ==> Adjacent(pos, Target(g, pos, d).value)
    ensures d != e && Target(g, pos, d).Some? ==> Target(g, pos, e) != Target(g, pos, d)
  {
  }

  /** The directions a tile's connectors face, in the order `build_adjacency_list` pushes them. */
  function Connectors(c: char): (ds: seq<nat>)
    ensures |ds| == 0 || (|ds| == 2 && ds[0] < 4 && ds[1] < 4 && ds[0] != ds[1])
    ensures ds == [] <==> !(c == '|' || c == '-' || c == 'L' || c == 'J' || c == '7' || c == 'F')
  {
    match c
    case '|' => [0, 2]
    case '-' => [3, 1]
    case 'L' => [0, 1]
    case 'J' => [0, 3]
    case '7' => [3, 2]
    case 'F' => [1, 2]
    case _ => []
  }

  /** The grid after one push of `p` onto the adjacency list at `t`, if there is a `t`. */
  function PushMaybe(g: Nodes, t: Option<Pos>, p: Pos): (r: Nodes)
    requires t.Some? ==> InGrid(g, t.value)
    ensures |r| == |g| && forall y | 0 <= y < |r| :: |r[y]| == |g[y]|
  {
    match t
    case None => g
    case Some((x, y)) => g[y := g[y][x := g[y][x].(adjacent := g[y][x].adjacent + [p])]]
  }

  lemma PushMaybeAt(g: Nodes, t: Option<Pos>, p: Pos, c: Pos)
    requires t.Some? ==> InGrid(g, t.value)
    requires InGrid(g, c)
    ensures PushMaybe(g, t, p)[c.1][c.0] ==
      if t == Some(c) then g[c.1][c.0].(adjacent := g[c.1][c.0].adjacent + [p]) else g[c.1][c.0]
  {
  }

  /** Does the tile at `p` face `c`? Only the first `|g[0]|` tiles of a row are ever looked at. */
  predicate Faces(g: Nodes, p: Pos, c: Pos)
  {
    p.1 < |g| && p.0 < |g[0]| && p.0 < |g[p.1]| &&
    var ds := Connectors(g[p.1][p.0].value);
    |ds| == 2 && (Target(g, p, ds[0]) == Some(c) || Target(g, p, ds[1]) == Some(c))
  }

  /** The positions registered with `c` once every position before (x, y) in reading order has
      been processed, in the order in which they were registered. */
  function Registered(g: Nodes, c: Pos, y: nat, x: nat): (r: seq<Pos>)
    decreases y, x
  {
    if x == 0 then (if y == 0 || g == [] then [] else Registered(g, c, y - 1, |g[0]|))
    else Registered(g, c, y, x - 1) + (if Faces(g, (x - 1, y), c) then [(x - 1, y)] else [])
  }

  predicate Before(p: Pos, y: nat, x: nat) { p.1 < y || (p.1 == y && p.0 < x) }

  lemma {:induction false} RegisteredSound(g: Nodes, c: Pos, y: nat, x: nat, p: Pos)
    requires p in Registered(g, c, y, x)
    ensures Before(p, y, x) && Faces(g, p, c)
    decreases y, x
  {
    if x == 0 {
      RegisteredSound(g, c, y - 1, |g[0]|, p);
    } else {
      RegisteredStep(g, c, y, x);
      if p in Registered(g, c, y, x - 1) {
        RegisteredSound(g, c, y, x - 1, p);
      }
    }
  }

  lemma {:induction false} RegisteredComplete(g: Nodes, c: Pos, y: nat, x: nat, p: Pos)
    requires Before(p, y, x) && Faces(g, p, c)
    ensures p in Registered(g, c, y, x)
    decreases y, x
  {
    if x == 0 {
      RegisteredComplete(g, c, y - 1, |g[0]|, p);
    } else {
      RegisteredStep(g, c, y, x);
      if p != (x - 1, y) {
        RegisteredComplete(g, c, y, x - 1, p);
      }
    }
  }

  /** A position is registered with `c` exactly when it comes before (x, y) in reading order
      and its tile, within the width, faces `c`. */
  lemma RegisteredIff(g: Nodes, c: Pos, y: nat, x: nat, p: Pos)
    ensures p in Registered(g, c, y, x) <==> Before(p, y, x) && Faces(g, p, c)
  {
    if p in Registered(g, c, y, x) {
      RegisteredSound(g, c, y, x, p);
    }
    if Before(p, y, x) && Faces(g, p, c) {
      RegisteredComplete(g, c, y, x, p);
    }
  }

  /** Everything registered with `c` is a grid position one step from `c`. */
  lemma RegisteredAdjacent(g: Nodes, c: Pos, y: nat, x: nat, p: Pos)
    requires Wide(g)
    requires p in Registered(g, c, y, x)
    ensures InGrid(g, p) && Adjacent(p, c)
  {
    RegisteredIff(g, c, y, x, p);
    var ds := Connectors(g[p.1][p.0].value);
    TargetIsAdjacent(g, p, ds[0], ds[1]);
    TargetIsAdjacent(g, p, ds[1], ds[0]);
  }

  /** One more position of a row processed: `Registered` grows by it when its tile faces `c`. */
  lemma RegisteredStep(g: Nodes, c: Pos, y: nat, x: nat)
    requires x > 0
    ensures Registered(g, c, y, x) ==
      Registered(g, c, y, x - 1) + (if Faces(g, (x - 1, y), c) then [(x - 1, y)] else [])
  {
  }

  predicate AllBefore(ps: seq<Pos>, y: nat, x: nat) { forall i | 0 <= i < |ps| :: Before(ps[i], y, x) }

  predicate Distinct(ps: seq<Pos>) { forall i, j | 0 <= i < j < |ps| :: ps[i] != ps[j] }

  lemma AppendLater(ps: seq<Pos>, y: nat, x: nat, extra: seq<Pos>)
    requires x > 0 && AllBefore(ps, y, x - 1) && Distinct(ps) && (extra == [] || extra == [(x - 1, y)])
    ensures AllBefore(ps + extra, y, x) && Distinct(ps + extra)
  {
    var r := ps + extra;
    forall i, j | 0 <= i < j < |r|
      ensures r[i] != r[j]
    {
      if j >= |ps| {
        assert r[j] == (x - 1, y) && r[i] == ps[i];
      }
    }
  }

  /** Registrations come from positions already processed, in reading order, none of them twice. */
  lemma {:induction false} RegisteredDistinct(g: Nodes, c: Pos, y: nat, x: nat)
    ensures AllBefore(Registered(g, c, y, x), y, x) && Distinct(Registered(g, c, y, x))
    decreases y, x
  {
    if x == 0 {
      if y > 0 && g != [] {
        RegisteredDistinct(g, c, y - 1, |g[0]|);
      }
    } else {
      RegisteredStep(g, c, y, x);
      RegisteredDistinct(g, c, y, x - 1);
      AppendLater(Registered(g, c, y, x - 1), y, x, if Faces(g, (x - 1, y), c) then [(x - 1, y)] else []);
    }
  }

  /** '.' and 'S' register nothing anywhere. */
  lemma GroundRegistersNothing(g: Nodes, c: Pos, y: nat, x: nat, p: Pos)
    requires InGrid(g, p) && (g[p.1][p.0].value == '.' || g[p.1][p.0].value == 'S')
    ensures p !in Registered(g, c, y, x)
  {
    RegisteredIff(g, c, y, x, p);
  }

  predicate SameShape(g0: Nodes, g: Nodes)
  {
    |g| == |g0| && forall y | 0 <= y < |g| :: |g[y]| == |g0[y]|
  }

  /** The grid after every position before (x, y) has registered itself with its neighbours. */
  predicate BuiltUpTo(g0: Nodes, g: Nodes, y: nat, x: nat)
  {
    SameShape(g0, g) &&
    forall j, i | 0 <= j < |g| && 0 <= i < |g[j]| ::
      g[j][i] == g0[j][i].(adjacent := g0[j][i].adjacent + Registered(g0, (i, j), y, x))
  }

  /** `build_adjacency_list`'s result: each node's list grows by the positions that face it, in reading order. */
  function BuiltGrid(g0: Nodes): (g: Nodes)
    requires Wide(g0)
    ensures BuiltUpTo(g0, g, |g0|, 0)
  {
    seq(|g0|, j requires 0 <= j < |g0| =>
      seq(|g0[j]|, i requires 0 <= i < |g0[j]| =>
        g0[j][i].(adjacent := g0[j][i].adjacent + Registered(g0, (i, j), |g0|, 0))))
  }

  lemma BuiltGridUnique(g0: Nodes, g: Nodes)
    requires Wide(g0) && BuiltUpTo(g0, g, |g0|, 0)
    ensures g == BuiltGrid(g0)
  {
    var b := BuiltGrid(g0);
    assert forall j | 0 <= j < |g| :: g[j] == b[j];
  }

  lemma StartRow(g0: Nodes, g: Nodes, y: nat)
    requires Wide(g0) && y < |g0| && BuiltUpTo(g0, g, y, |g0[0]|)
    ensures BuiltUpTo(g0, g, y + 1, 0)
  {
  }

  /** The grid after the tile at `p` has pushed its position to the neighbours it faces. */
  function RegisterAt(g: Nodes, p: Pos): (r: Nodes)
    requires Wide(g) && p.1 < |g| && p.0 < |g[0]|
    ensures SameShape(g, r)
  {
    var ds := Connectors(g[p.1][p.0].value);
    if ds == [] then g
    else
      var g1 := PushMaybe(g, Target(g, p, ds[0]), p);
      PushMaybe(g1, Target(g, p, ds[1]), p)
  }

  /** One tile's pushes add its position to exactly the cells it faces. */
  lemma RegisterAtCell(g: Nodes, p: Pos, c: Pos)
    requires Wide(g) && p.1 < |g| && p.0 < |g[0]| && InGrid(g, c)
    ensures RegisterAt(g, p)[c.1][c.0] ==
      g[c.1][c.0].(adjacent := g[c.1][c.0].adjacent + (if Faces(g, p, c) then [p] else []))
  {
    var ds := Connectors(g[p.1][p.0].value);
    if ds != [] {
      var t0, t1 := Target(g, p, ds[0]), Target(g, p, ds[1]);
      var g1 := PushMaybe(g, t0, p);
      PushMaybeAt(g, t0, p, c);
      PushMaybeAt(g1, t1, p, c);
      TargetIsAdjacent(g, p, ds[0], ds[1]);
    }
  }

  /** Whether a tile faces a cell depends only on the grid's shape and the tile. */
  lemma FacesSame(g0: Nodes, g: Nodes, p: Pos, c: Pos)
    requires Wide(g0) && SameShape(g0, g) && p.1 < |g0| && p.0 < |g0[0]|
    requires g[p.1][p.0].value == g0[p.1][p.0].value
    ensures Wide(g) && Faces(g, p, c) == Faces(g0, p, c)
  {
  }

  lemma BuildStepCell(g0: Nodes, g: Nodes, y: nat, x: nat, c: Pos, reg: seq<Pos>)
    requires Wide(g0) && y < |g0| && x < |g0[0]| && SameShape(g0, g) && InGrid(g0, c)
    requires g[y][x].value == g0[y][x].value
    requires reg == Registered(g0, c, y, x)
    requires g[c.1][c.0] == g0[c.1][c.0].(adjacent := g0[c.1][c.0].adjacent + reg)
    ensures Wide(g)
    ensures RegisterAt(g, (x, y))[c.1][c.0] ==
      g0[c.1][c.0].(adjacent := g0[c.1][c.0].adjacent + Registered(g0, c, y, x + 1))
  {
    var p := (x, y);
    var f := Faces(g0, p, c);
    assert Registered(g0, c, y, x + 1) == reg + (if f then [p] else []);
    FacesSame(g0, g, p, c);
    RegisterAtCell(g, p, c);
    AppendAssoc(g0[c.1][c.0].adjacent, reg, if f then [p] else []);
  }

  /** Every tile within the width is one of the eight the input allows (others are unreachable). */
  predicate TilesWithin(g: Nodes)
    requires Wide(g)
  {
    forall y, x | 0 <= y < |g| && 0 <= x < |g[0]| :: IsTile(g[y][x].value)
  }

  /** Processing the tile at (x, y) extends the registrations by that position. */
  lemma BuildStep(g0: Nodes, g: Nodes, y: nat, x: nat)
    requires Wide(g0) && y < |g0| && x < |g0[0]| && BuiltUpTo(g0, g, y, x)
    requires TilesWithin(g0)
    ensures Wide(g) && y < |g| && x < |g[0]| && IsTile(g[y][x].value)
    ensures BuiltUpTo(g0, RegisterAt(g, (x, y)), y, x + 1)
  {
    assert g[y][x].value == g0[y][x].value;
    var g' := RegisterAt(g, (x, y));
    assert Wide(g);
    forall j, i | 0 <= j < |g'| && 0 <= i < |g'[j]|
      ensures g'[j][i] == g0[j][i].(adjacent := g0[j][i].adjacent + Registered(g0, (i, j), y, x + 1))
    {
      BuildStepCell(g0, g, y, x, (i, j), Registered(g0, (i, j), y, x));
    }
  }

  /** Every adjacency entry names a position of the grid. */
  predicate Linked(g: Nodes)
  {
    forall y, x | 0 <= y < |g| && 0 <= x < |g[y]| ::
      forall i | 0 <= i < |g[y][x].adjacent| :: InGrid(g, g[y][x].adjacent[i])
  }

  /** Registration only ever names grid positions. */
  lemma BuiltLinked(g0: Nodes)
    requires Wide(g0) && Linked(g0)
    ensures Linked(BuiltGrid(g0)) && SameShape(g0, BuiltGrid(g0))
  {
    var g: Nodes := BuiltGrid(g0);
    forall y: int, x: int, i: int | 0 <= y < |g| && 0 <= x < |g[y]| && 0 <= i < |g[y][x].adjacent|
      ensures InGrid(g, g[y][x].adjacent[i])
    {
      var old_adj := g0[y][x].adjacent;
      var reg := Registered(g0, (x, y), |g0|, 0);
      assert g[y][x].adjacent == old_adj + reg;
      if i >= |old_adj| {
        RegisteredAdjacent(g0, (x, y), |g0|, 0, reg[i - |old_adj|]);
      }
    }
  }

  /** A freshly analysed grid has no neighbours yet. */
  lemma AnalyzedLinked(data: seq<seq<char>>)
    ensures Linked(Analyzed(data))
  {
  }

  class Grid {
    var nodes: Nodes

    constructor (nodes0: Nodes)
      ensures nodes == nodes0
    {
      nodes := nodes0;
    }

    /** `adjacent_push`: append `pos` to the list of its neighbour in `dir`, if that neighbour is in the grid. */
    method AdjacentPush(pos: Pos, dir: nat)
      requires nodes != [] && dir < 4
      requires Target(nodes, pos, dir).Some? ==> InGrid(nodes, Target(nodes, pos, dir).value)
      modifies this
      ensures nodes == PushMaybe(old(nodes), Target(old(nodes), pos, dir), pos)
    {
      var width := |nodes[0]|;
      var height := |nodes|;
      var (x, y) := pos;
      if dir == 0 {
        if y > 0 {
          var n := nodes[y - 1][x];
          nodes := nodes[y - 1 := nodes[y - 1][x := n.(adjacent := n.adjacent + [pos])]];
        }
      } else if dir == 1 {
        if x + 1 < width {
          var n := nodes[y][x + 1];
          nodes := nodes[y := nodes[y][x + 1 := n.(adjacent := n.adjacent + [pos])]];
        }
      } else if dir == 2 {
        if y + 1 < height {
          var n := nodes[y + 1][x];
          nodes := nodes[y + 1 := nodes[y + 1][x := n.(adjacent := n.adjacent + [pos])]];
        }
      } else {
        if x > 0 {
          var n := nodes[y][x - 1];
          nodes := nodes[y := nodes[y][x - 1 := n.(adjacent := n.adjacent + [pos])]];
        }
      }
    }

    /** The two pushes of one pipe tile. */
    method PushBoth(pos: Pos, d: nat, e: nat)
      requires Wide(nodes) && pos.1 < |nodes| && pos.0 < |nodes[0]| && d < 4 && e < 4
      modifies this
      ensures nodes == PushMaybe(PushMaybe(old(nodes), Target(old(nodes), pos, d), pos), Target(old(nodes), pos, e), pos)
    {
      AdjacentPush(pos, d);
      AdjacentPush(pos, e);
    }

    /** One iteration of `build_adjacency_list`: the tile at `pos` pushes its position to the
        neighbours its connectors face. */
    method Register(pos: Pos)
      requires Wide(nodes) && pos.1 < |nodes| && pos.0 < |nodes[0]| && IsTile(nodes[pos.1][pos.0].value)
      modifies this
      ensures nodes == RegisterAt(old(nodes), pos)
    {
      var v := nodes[pos.1][pos.0].value;
      if v == '|' {
        PushBoth(pos, 0, 2);
      } else if v == '-' {
        PushBoth(pos, 3, 1);
      } else if v == 'L' {
        PushBoth(pos, 0, 1);
      } else if v == 'J' {
        PushBoth(pos, 0, 3);
      } else if v == '7' {
        PushBoth(pos, 3, 2);
      } else if v == 'F' {
        PushBoth(pos, 1, 2);
      }
    }

    /** The inner loop of `build_adjacency_list`: the tiles of row y, left to right. */
    method RegisterRow(ghost g0: Nodes, y: nat)
      requires Wide(g0) && y < |g0| && TilesWithin(g0) && BuiltUpTo(g0, nodes, y, 0)
      modifies this
      ensures BuiltUpTo(g0, nodes, y + 1, 0)
    {
      var width := |nodes[0]|;
      for x := 0 to width
        invariant BuiltUpTo(g0, nodes, y, x)
      {
        BuildStep(g0, nodes, y, x);
        Register((x, y));
      }
      StartRow(g0, nodes, y);
    }

    /** `build_adjacency_list`: every pipe within the width registers with the neighbours it faces. */
    method BuildAdjacencyList()
      requires Wide(nodes) && TilesWithin(nodes)
      modifies this
      ensures Wide(old(nodes)) && nodes == BuiltGrid(old(nodes))
    {
      ghost var g0 := nodes;
      var height := |nodes|;
      for y := 0 to height
        invariant BuiltUpTo(g0, nodes, y, 0)
      {
        RegisterRow(g0, y);
      }
      BuiltGridUnique(g0, nodes);
    }
  }

  // Walking the loop.

  /** May the walk at `pos`, having come from `prev`, move to `p`? Back is never allowed, and
      `p` must list `pos` among its own neighbours unless the walk is at the start. */
  predicate Admissible(g: Nodes, start: Pos, prev: Pos, pos: Pos, p: Pos)
    requires InGrid(g, p)
  {
    p != prev && (pos == start || pos in g[p.1][p.0].adjacent)
  }

  predicate AllInGrid(g: Nodes, ps: seq<Pos>) { forall i | 0 <= i < |ps| :: InGrid(g, ps[i]) }

  /** The first admissible entry of `ps`, as the inner `for` loop of `travel_map` finds it. */
  function FirstAdmissible(g: Nodes, start: Pos, prev: Pos, pos: Pos, ps: seq<Pos>): (r: Option<nat>)
    requires AllInGrid(g, ps)
    ensures r.Some? ==> r.value < |ps|
  {
    if ps == [] then None
    else if Admissible(g, start, prev, pos, ps[0]) then Some(0)
    else
      match FirstAdmissible(g, start, prev, pos, ps[1..])
      case None => None
      case Some(i) => Some(i + 1)
  }

  /** The entry found is admissible and no earlier one is; None means no entry is. */
  lemma {:induction false} FirstAdmissibleMeaning(g: Nodes, start: Pos, prev: Pos, pos: Pos, ps: seq<Pos>)
    requires AllInGrid(g, ps)
    ensures var r := FirstAdmissible(g, start, prev, pos, ps);
      r.Some? ==> (Admissible(g, start, prev, pos, ps[r.value])
        && forall i | 0 <= i < r.value :: !Admissible(g, start, prev, pos, ps[i]))
    ensures FirstAdmissible(g, start, prev, pos, ps).None? <==>
      forall i | 0 <= i < |ps| :: !Admissible(g, start, prev, pos, ps[i])
  {
    if ps != [] {
      var tail := ps[1..];
      assert AllInGrid(g, tail) by {
        assert forall i | 0 <= i < |tail| :: tail[i] == ps[i + 1];
      }
      FirstAdmissibleMeaning(g, start, prev, pos, tail);
      assert forall i | 1 <= i < |ps| :: ps[i] == tail[i - 1];
    }
  }

  /** Where the walk goes from `pos`, or None when it stops there. */
  function Next(g: Nodes, start: Pos, prev: Pos, pos: Pos): (r: Option<Pos>)
    requires Linked(g) && InGrid(g, pos)
    ensures r.Some? ==> r.value in g[pos.1][pos.0].adjacent && InGrid(g, r.value)
  {
    var adj := g[pos.1][pos.0].adjacent;
    match FirstAdmissible(g, start, prev, pos, adj)
    case None => None
    case Some(i) => Some(adj[i])
  }

  /** The walk's step is admissible, and it stops only where no neighbour is. */
  lemma NextMeaning(g: Nodes, start: Pos, prev: Pos, pos: Pos)
    requires Linked(g) && InGrid(g, pos)
    ensures var r := Next(g, start, prev, pos);
      r.Some? ==> r.value != prev && (pos == start || pos in g[r.value.1][r.value.0].adjacent)
    ensures var adj := g[pos.1][pos.0].adjacent;
      Next(g, start, prev, pos).None? <==> forall i | 0 <= i < |adj| :: !Admissible(g, start, prev, pos, adj[i])
  {
    FirstAdmissibleMeaning(g, start, prev, pos, g[pos.1][pos.0].adjacent);
  }

  /** The number of moves the walk makes before it stops, or None when `fuel` moves are not enough. */
  function Walk(g: Nodes, start: Pos, prev: Pos, pos: Pos, fuel: nat): Option<nat>
    requires Linked(g) && InGrid(g, pos)
    decreases fuel
  {
    match Next(g, start, prev, pos)
    case None => Some(0)
    case Some(p) =>
      if fuel == 0 then None
      else
        match Walk(g, start, pos, p, fuel - 1)
        case None => None
        case Some(n) => Some(n + 1)
  }

  /** More fuel changes nothing once the walk has stopped, and a walk of n moves needs n units. */
  lemma {:induction false} WalkFuel(g: Nodes, start: Pos, prev: Pos, pos: Pos, fuel: nat, more: nat)
    requires Linked(g) && InGrid(g, pos) && Walk(g, start, prev, pos, fuel).Some?
    ensures Walk(g, start, prev, pos, fuel + more) == Walk(g, start, prev, pos, fuel)
    ensures Walk(g, start, prev, pos, fuel).value <= fuel
    decreases fuel
  {
    match Next(g, start, prev, pos)
    case None =>
    case Some(p) =>
      WalkFuel(g, start, pos, p, fuel - 1, more);
  }

  /** `travel_map`'s inner loop: the first neighbour the walk may move to. */
  method FindNext(g: Nodes, start: Pos, prev: Pos, pos: Pos) returns (next: Option<Pos>)
    requires Linked(g) && InGrid(g, pos)
    ensures next == Next(g, start, prev, pos)
  {
    var adj := g[pos.1][pos.0].adjacent;
    FirstAdmissibleMeaning(g, start, prev, pos, adj);
    for i := 0 to |adj|
      invariant forall k | 0 <= k < i :: !Admissible(g, start, prev, pos, adj[k])
    {
      var p := adj[i];
      if p != prev && (pos == start || pos in g[p.1][p.0].adjacent) {
        assert FirstAdmissible(g, start, prev, pos, adj) == Some(i);
        return Some(p);
      }
    }
    return None;
  }

  /** Half the moves of the walk from the start, rounded up: the distance to the loop's farthest point. */
  function HalfWalk(g: Nodes, start: Pos, fuel: nat): Option<nat>
    requires Linked(g) && InGrid(g, start)
  {
    match Walk(g, start, start, start, fuel)
    case None => None
    case Some(len) => Some((len + 1) / 2)
  }

  lemma WalkStep(g: Nodes, start: Pos, prev: Pos, pos: Pos, fuel: nat, next: Pos)
    requires Linked(g) && InGrid(g, pos) && Next(g, start, prev, pos) == Some(next) && fuel > 0
    ensures InGrid(g, next)
    ensures Walk(g, start, prev, pos, fuel) ==
      match Walk(g, start, pos, next, fuel - 1) case None => None case Some(n) => Some(n + 1)
  {
  }

  /** `travel_map`: walk until no move is admissible and return half the number of moves,
      rounded up; None when `fuel` moves are not enough. */
  method TravelMap(g: Nodes, start: Pos, fuel: nat) returns (r: Option<nat>)
    requires Linked(g) && InGrid(g, start)
    ensures r == HalfWalk(g, start, fuel)
  {
    var prev := start;
    var pos := start;
    var len := 0;
    var left: nat := fuel;
    while true
      invariant InGrid(g, pos) && len + left == fuel
      invariant Walk(g, start, start, start, fuel) ==
        match Walk(g, start, prev, pos, left) case None => None case Some(n) => Some(len + n)
      decreases left
    {
      var next := FindNext(g, start, prev, pos);
      if next.None? {
        break;
      }
      if left == 0 {
        return None;
      }
      WalkStep(g, start, prev, pos, left, next.value);
      prev := pos;
      pos := next.value;
      len := len + 1;
      left := left - 1;
    }
    r := Some((len + 1) / 2);
  }

  /** The value `proc_1` computes; None where the source panics (no row, or a row shorter than
      the first) and where `fuel` moves are not enough. */
  function Proc1Spec(input: seq<char>, fuel: nat): Option<nat>
  {
    match Parse(input)
    case None => None
    case Some(data) => Solve(data, fuel)
  }

  /** What `proc_1` computes from parsed rows. */
  function Solve(data: seq<seq<char>>, fuel: nat): Option<nat>
    requires data != [] && Tiled(data)
  {
    var g0 := Analyzed(data);
    if !Wide(g0) then None
    else
      AnalyzedLinked(data);
      BuiltLinked(g0);
      StartInGrid(data);
      HalfWalk(BuiltGrid(g0), StartIn(data), fuel)
  }

  /** Every tile `analyze` stores comes from the parsed input. */
  lemma AnalyzedTiles(data: seq<seq<char>>)
    requires Tiled(data) && Wide(Analyzed(data))
    ensures TilesWithin(Analyzed(data)) && Linked(Analyzed(data))
  {
    var g: Nodes := Analyzed(data);
    forall y: int, x: int | 0 <= y < |g| && 0 <= x < |g[0]|
      ensures IsTile(g[y][x].value)
    {
      assert g[y][x].value == data[y][x];
    }
  }

  /** `proc_1`: parse, analyse, register the neighbours and walk from the start. */
  method Proc1(input: seq<char>, fuel: nat) returns (r: Option<nat>)
    ensures r == Proc1Spec(input, fuel)
  {
    var parsed := Parse(input);
    if parsed.None? {
      return None;
    }
    var data := parsed.value;
    var start, nodes := Analyze(data);
    if !Wide(nodes) {
      return None;
    }
    AnalyzedTiles(data);
    var grid := new Grid(nodes);
    grid.BuildAdjacencyList();
    BuiltLinked(nodes);
    StartInGrid(data);
    r := TravelMap(grid.nodes, start, fuel);
    assert r == Solve(data, fuel);
  }

  // A worked example: the smallest loop, a 2 by 2 square whose start is its top-left corner.

  function LoopRows(): seq<seq<char>> { ["S7", "LJ"] }

  function LoopGrid(): Nodes
  {
    [[Node([], (0, 0), 'S'), Node([], (1, 0), '7')], [Node([], (0, 1), 'L'), Node([], (1, 1), 'J')]]
  }

  function LoopBuilt(): Nodes
  {
    [[Node([(1, 0), (0, 1)], (0, 0), 'S'), Node([(1, 1)], (1, 0), '7')],
     [Node([(1, 1)], (0, 1), 'L'), Node([(1, 0), (0, 1)], (1, 1), 'J')]]
  }

  lemma LoopAnalyzed()
    ensures Analyzed(LoopRows()) == LoopGrid()
  {
    var g := Analyzed(LoopRows());
    assert g[0] == LoopGrid()[0];
    assert g[1] == LoopGrid()[1];
  }

  /** The cells each tile of the square faces. */
  lemma LoopFaces(c: Pos)
    ensures !Faces(LoopGrid(), (0, 0), c)
    ensures Faces(LoopGrid(), (1, 0), c) <==> c == (0, 0) || c == (1, 1)
    ensures Faces(LoopGrid(), (0, 1), c) <==> c == (0, 0) || c == (1, 1)
    ensures Faces(LoopGrid(), (1, 1), c) <==> c == (1, 0) || c == (0, 1)
  {
    assert Connectors('7') == [3, 2] && Connectors('L') == [0, 1] && Connectors('J') == [0, 3];
  }

  lemma LoopRegistered(c: Pos)
    requires InGrid(LoopGrid(), c)
    ensures Registered(LoopGrid(), c, 2, 0) == LoopBuilt()[c.1][c.0].adjacent
  {
    var g := LoopGrid();
    var f00, f10, f01, f11 := Faces(g, (0, 0), c), Faces(g, (1, 0), c), Faces(g, (0, 1), c), Faces(g, (1, 1), c);
    assert Registered(g, c, 0, 1) == (if f00 then [(0, 0)] else []);
    assert Registered(g, c, 0, 2) == Registered(g, c, 0, 1) + (if f10 then [(1, 0)] else []);
    assert Registered(g, c, 1, 1) == Registered(g, c, 0, 2) + (if f01 then [(0, 1)] else []);
    assert Registered(g, c, 2, 0) == Registered(g, c, 1, 1) + (if f11 then [(1, 1)] else []);
    LoopFaces(c);
    if c == (0, 0) {
      assert Registered(g, c, 2, 0) == [(1, 0), (0, 1)];
    } else if c == (1, 0) {
      assert Registered(g, c, 2, 0) == [(1, 1)];
    } else if c == (0, 1) {
      assert Registered(g, c, 2, 0) == [(1, 1)];
    } else {
      assert Registered(g, c, 2, 0) == [(1, 0), (0, 1)];
    }
  }

  lemma LoopBuiltGrid()
    ensures Wide(LoopGrid()) && BuiltGrid(LoopGrid()) == LoopBuilt()
  {
    var g: Nodes := LoopGrid();
    var b: Nodes := LoopBuilt();
    forall j: int, i: int | 0 <= j < |b| && 0 <= i < |b[j]|
      ensures b[j][i] == g[j][i].(adjacent := g[j][i].adjacent + Registered(g, (i, j), |g|, 0))
    {
      LoopRegistered((i, j));
    }
    BuiltGridUnique(g, b);
  }

  lemma LoopLinked()
    ensures Linked(LoopBuilt())
  {
    AnalyzedLinked(LoopRows());
    LoopAnalyzed();
    LoopBuiltGrid();
    BuiltLinked(LoopGrid());
  }

  lemma LoopWalk()
    ensures Linked(LoopBuilt()) && Walk(LoopBuilt(), (0, 0), (0, 0), (0, 0), 5) == Some(3)
  {
    LoopLinked();
    var b := LoopBuilt();
    assert Next(b, (0, 0), (0, 0), (0, 0)) == Some((1, 0));
    assert Next(b, (0, 0), (0, 0), (1, 0)) == Some((1, 1));
    assert Next(b, (0, 0), (1, 0), (1, 1)) == Some((0, 1));
    assert Next(b, (0, 0), (1, 1), (0, 1)) == None;
  }

  lemma LoopTiled()
    ensures Tiled(LoopRows())
  {
    var rows := LoopRows();
    assert AllTiles(rows[0]) by { assert IsTile('S') && IsTile('7'); }
    assert AllTiles(rows[1]) by { assert IsTile('L') && IsTile('J'); }
  }

  lemma LoopStart()
    ensures StartIn(LoopRows()) == (0, 0)
  {
    assert LastS(LoopRows()[1]) == None;
    assert LastS(LoopRows()[0]) == Some(0);
  }

  lemma Proc1SpecOf(input: seq<char>, fuel: nat, data: seq<seq<char>>, b: Nodes, start: Pos)
    requires Parse(input) == Some(data) && Wide(Analyzed(data)) && BuiltGrid(Analyzed(data)) == b
    requires StartIn(data) == start && Linked(b) && InGrid(b, start)
    ensures Proc1Spec(input, fuel) == HalfWalk(b, start, fuel)
  {
  }

  /** The square reads, walks three moves and reports a farthest distance of 2. */
  lemma LoopProc()
    ensures Proc1Spec("S7\nLJ\n", 5) == Some(2)
  {
    LoopTiled();
    ParseLinesOfShow(LoopRows());
    assert ShowLines(LoopRows()) == "S7\nLJ\n" by {
      assert ShowLines(LoopRows()[1..]) == "LJ\n";
    }
    LoopAnalyzed();
    LoopBuiltGrid();
    LoopStart();
    LoopWalk();
    Proc1SpecOf("S7\nLJ\n", 5, LoopRows(), LoopBuilt(), (0, 0));
  }
}
