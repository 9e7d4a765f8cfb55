/** Day 16: a beam of light enters a grid of empty space `.`, mirrors `/` and `\` and
    splitters `|` and `-`; the answer is the number of cells the beam passes through. */
module Day16 {
  import opened Common
  import opened CharGrid

  predicate IsCell(c: char) { c == '.' || c == '/' || c == '\\' || c == '-' || c == '|' }

  // ---------------------------------------------------------------------------------------
  // Parsing: `many1(parse_line)` then `many0(newline)`.

  function Parse(s: seq<char>): (r: Option<(seq<seq<char>>, seq<char>)>)
    ensures r.Some? ==> r.value.0 != [] && Rows(r.value.0, IsCell)
  {
    match ParseGrid(s, IsCell)
    case None => None
    case Some((rows, rest)) => Some((rows, SkipNewlines(rest)))
  }

  /** A printed grid, with or without a trailing blank line, is read back whole. */
  lemma ParseOfShow(rows: seq<seq<char>>, blank: bool)
    requires rows != [] && Rows(rows, IsCell)
    ensures Parse(ShowRows(rows) + (if blank then "\n" else [])) == Some((rows, []))
  {
    ParseGridOfShowThen(rows, if blank then "\n" else [], IsCell);
    if blank {
      assert SkipNewlines("\n") == SkipNewlines([]);
    }
  }

  /** Non-empty rows of cells, all as long as the first. */
  predicate Grid(data: seq<seq<char>>)
  {
    data != [] && data[0] != [] && Rows(data, IsCell) && forall y | 0 <= y < |data| :: |data[y]| == |data[0]|
  }

  // ---------------------------------------------------------------------------------------
  // Directions: x grows to the right, y grows downwards.

  datatype Dir = Up | Down | Left | Right

  function DX(d: Dir): int
  {
    match d
    case Left => -1
    case Right => 1
    case _ => 0
  }

  function DY(d: Dir): int
  {
    match d
    case Up => -1
    case Down => 1
    case _ => 0
  }

  predicate Vertical(d: Dir) { d == Up || d == Down }

  function Opposite(d: Dir): (e: Dir)
    ensures DX(e) == -DX(d) && DY(e) == -DY(d)
  {
    match d
    case Up => Down
    case Down => Up
    case Left => Right
    case Right => Left
  }

  /** `next_dir`: the directions a beam leaves a cell in, given the direction it entered in.
      Empty space and a splitter met edge-on let it pass; a splitter met flat-on sends it both
      ways along the splitter; a mirror turns it by a right angle. */
  function NextDir(incoming: Dir, c: char): (r: seq<Dir>)
    requires IsCell(c)
    ensures 1 <= |r| <= 2 && Opposite(incoming) !in r
    ensures c == '.' ==> r == [incoming]
    ensures c == '|' ==> forall i | 0 <= i < |r| :: Vertical(r[i])
    ensures c == '|' ==> r == if Vertical(incoming) then [incoming] else [Up, Down]
    ensures c == '-' ==> forall i | 0 <= i < |r| :: !Vertical(r[i])
    ensures c == '-' ==> r == if Vertical(incoming) then [Left, Right] else [incoming]
    ensures c == '/' ==> |r| == 1 && DX(r[0]) == -DY(incoming) && DY(r[0]) == -DX(incoming)
    ensures c == '\\' ==> |r| == 1 && DX(r[0]) == DY(incoming) && DY(r[0]) == DX(incoming)
  {
    match (incoming, c)
    case (_, '.') => [incoming]
    case (Right, '|') => [Up, Down]
    case (Right, '-') => [Right]
    case (Right, '\\') => [Down]
    case (Right, '/') => [Up]
    case (Down, '|') => [Down]
    case (Down, '\\') => [Right]
    case (Down, '/') => [Left]
    case (Down, '-') => [Left, Right]
    case (Up, '|') => [Up]
    case (Up, '\\') => [Left]
    case (Up, '/') => [Right]
    case (Up, '-') => [Left, Right]
    case (Left, '|') => [Up, Down]
    case (Left, '\\') => [Up]
    case (Left, '/') => [Down]
    case (Left, '-') => [Left]
  }

  /** Light paths through a mirror can be run backwards. */
  lemma MirrorReversible(d: Dir, c: char)
    requires c == '/' || c == '\\'
    ensures NextDir(Opposite(NextDir(d, c)[0]), c) == [Opposite(d)]
  {
  }

  // ---------------------------------------------------------------------------------------
  // Beam states and the step to the next cell.

  /** A beam: the direction it entered its cell in, and the cell. */
  type State = (Dir, nat, nat)

  predicate InGrid(s: State, width: nat, height: nat) { s.1 < width && s.2 < height }

  predicate AllInGrid(q: seq<State>, width: nat, height: nat)
  {
    forall i | 0 <= i < |q| :: InGrid(q[i], width, height)
  }

  /** `get_next_cell`: one step in direction `dir`, or nothing at the edge of the grid. */
  function GetNextCell(dir: Dir, x: nat, y: nat, width: nat, height: nat): (r: Option<State>)
    requires x < width && y < height
    ensures r.None? <==> x + DX(dir) < 0 || x + DX(dir) >= width || y + DY(dir) < 0 || y + DY(dir) >= height
    ensures r.Some? ==> r.value.0 == dir && r.value.1 == x + DX(dir) && r.value.2 == y + DY(dir)
  {
    match dir
    case Left => if x != 0 then Some((dir, x - 1, y)) else None
    case Up => if y != 0 then Some((dir, x, y - 1)) else None
    case Down => if y != height - 1 then Some((dir, x, y + 1)) else None
    case Right => if x != width - 1 then Some((dir, x + 1, y)) else None
  }

  /** `filter_map(get_next_cell)`: the neighbouring cells the beam moves on to, in order. */
  function Moves(dirs: seq<Dir>, x: nat, y: nat, width: nat, height: nat): (r: seq<State>)
    requires x < width && y < height
    ensures |r| <= |dirs| && AllInGrid(r, width, height)
    ensures forall i | 0 <= i < |r| :: r[i].0 in dirs && r[i].1 == x + DX(r[i].0) && r[i].2 == y + DY(r[i].0)
  {
    if dirs == [] then []
    else
      match GetNextCell(dirs[0], x, y, width, height)
      case None => Moves(dirs[1..], x, y, width, height)
      case Some(c) => [c] + Moves(dirs[1..], x, y, width, height)
  }

  /** The beams leaving a cell. */
  function Children(data: seq<seq<char>>, s: State): (r: seq<State>)
    requires Grid(data) && InGrid(s, |data[0]|, |data|)
    ensures AllInGrid(r, |data[0]|, |data|)
  {
    Moves(NextDir(s.0, data[s.2][s.1]), s.1, s.2, |data[0]|, |data|)
  }

  // ---------------------------------------------------------------------------------------
  // The worklist: visit keys and one round of `for_each`.

  /** A visit key: a direction and the cell's coordinates cast to `u8`. */
  type Key = (Dir, nat, nat)

  /** `as u8`: the coordinate modulo 256. */
  function U8(n: nat): (r: nat)
    ensures r < 256 && r <= n
  {
    n % 256
  }

  /** Which direction a child's visit key records: the parent's incoming direction, as
      `beam_move` does, or the child's own. */
  datatype KeyRule = ParentDir | ChildDir

  function KeyOf(rule: KeyRule, d: Dir, c: State): Key
  {
    (if rule == ParentDir then d else c.0, U8(c.1), U8(c.2))
  }

  function StartKey(s: State): Key { (s.0, U8(s.1), U8(s.2)) }

  /** Every key there can be. */
  function Space(): set<Key>
  {
    set d: Dir, x: nat, y: nat | d in {Up, Down, Left, Right} && x < 256 && y < 256 :: (d, x, y)
  }

  lemma InSpace(k: Key)
    requires k.1 < 256 && k.2 < 256
    ensures k in Space()
  {
    var (d, x, y) := k;
    assert d in {Up, Down, Left, Right} by {
      match d
      case Up =>
      case Down =>
      case Left =>
      case Right =>
    }
    assert (d, x, y) in Space();
  }

  /** Keys inside the grid. */
  predicate KeysInGrid(visit: set<Key>, width: nat, height: nat)
  {
    forall k | k in visit :: k.1 < width && k.2 < height
  }

  /** The `for_each` over the children of a beam that entered its cell in direction `d`: a
      child whose key is new is pushed and its key recorded; any other child is dropped. */
  function Push(rule: KeyRule, d: Dir, cs: seq<State>, queue: seq<State>, visit: set<Key>): (r: (seq<State>, set<Key>))
    ensures visit <= r.1 && (r.1 == visit ==> r.0 == queue)
    ensures forall k | k in r.1 && k !in visit :: k in Space()
    decreases |cs|
  {
    if cs == [] then (queue, visit)
    else
      var k := KeyOf(rule, d, cs[0]);
      InSpace(k);
      if k in visit then Push(rule, d, cs[1..], queue, visit)
      else Push(rule, d, cs[1..], queue + [cs[0]], visit + {k})
  }

  /** Pushed beams and recorded keys stay on the grid. */
  lemma {:induction false} PushInGrid(rule: KeyRule, d: Dir, cs: seq<State>, queue: seq<State>, visit: set<Key>, width: nat, height: nat)
    requires AllInGrid(cs, width, height) && AllInGrid(queue, width, height)
    ensures AllInGrid(Push(rule, d, cs, queue, visit).0, width, height)
    ensures KeysInGrid(visit, width, height) ==> KeysInGrid(Push(rule, d, cs, queue, visit).1, width, height)
    decreases |cs|
  {
    if cs != [] {
      var k := KeyOf(rule, d, cs[0]);
      var tail := cs[1..];
      assert AllInGrid(tail, width, height) by {
        assert forall i | 0 <= i < |tail| :: tail[i] == cs[i + 1];
      }
      if k in visit {
        PushInGrid(rule, d, tail, queue, visit, width, height);
      } else {
        PushInGrid(rule, d, tail, queue + [cs[0]], visit + {k}, width, height);
      }
    }
  }

  /** A new key is in `Space`, so the keys left to record shrink. */
  lemma Shrinks(v0: set<Key>, v1: set<Key>)
    requires v0 <= v1 && forall k | k in v1 && k !in v0 :: k in Space()
    ensures v1 == v0 || Space() - v1 < Space() - v0
  {
    if v1 != v0 {
      var k :| k in v1 && k !in v0;
      assert k in Space() - v0;
    }
  }

  /** The `while let Some(..) = queue.pop()` loop of `beam_move`: take the last beam and push
      its children; when the queue is empty, the recorded keys. It ends because every push
      records a key that was not there before. */
  function Explore(data: seq<seq<char>>, rule: KeyRule, queue: seq<State>, visit: set<Key>): (r: set<Key>)
    requires Grid(data) && AllInGrid(queue, |data[0]|, |data|)
    ensures visit <= r
    decreases Space() - visit, |queue|
  {
    if queue == [] then visit
    else
      var s := queue[|queue| - 1];
      var p := Push(rule, s.0, Children(data, s), queue[..|queue| - 1], visit);
      PushInGrid(rule, s.0, Children(data, s), queue[..|queue| - 1], visit, |data[0]|, |data|);
      Shrinks(visit, p.1);
      Explore(data, rule, p.0, p.1)
  }

  /** Every recorded key names a cell of the grid. */
  lemma {:induction false} ExploreInGrid(data: seq<seq<char>>, rule: KeyRule, queue: seq<State>, visit: set<Key>)
    requires Grid(data) && AllInGrid(queue, |data[0]|, |data|) && KeysInGrid(visit, |data[0]|, |data|)
    ensures KeysInGrid(Explore(data, rule, queue, visit), |data[0]|, |data|)
    decreases Space() - visit, |queue|
  {
    if queue != [] {
      var s := queue[|queue| - 1];
      var p := Push(rule, s.0, Children(data, s), queue[..|queue| - 1], visit);
      PushInGrid(rule, s.0, Children(data, s), queue[..|queue| - 1], visit, |data[0]|, |data|);
      Shrinks(visit, p.1);
      ExploreInGrid(data, rule, p.0, p.1);
    }
  }

  /** The `(x, y)` pairs of the keys, as the closing `fold` collects them. */
  function Positions(visit: set<Key>): set<(nat, nat)>
  {
    set k | k in visit :: (k.1, k.2)
  }

  /** What `beam_move` returns for a start beam under a key rule: the number of distinct cells
      among the keys. */
  function BeamCount(data: seq<seq<char>>, rule: KeyRule, start: State): nat
    requires Grid(data) && InGrid(start, |data[0]|, |data|)
  {
    |Positions(Explore(data, rule, [start], {StartKey(start)}))|
  }

  /** The start cell is always counted, and every counted cell is on the grid. */
  lemma BeamCountBounds(data: seq<seq<char>>, rule: KeyRule, start: State)
    requires Grid(data) && InGrid(start, |data[0]|, |data|)
    ensures (U8(start.1), U8(start.2)) in Positions(Explore(data, rule, [start], {StartKey(start)}))
    ensures forall p | p in Positions(Explore(data, rule, [start], {StartKey(start)})) :: p.0 < |data[0]| && p.1 < |data|
    ensures BeamCount(data, rule, start) >= 1
  {
    var v := Explore(data, rule, [start], {StartKey(start)});
    ExploreInGrid(data, rule, [start], {StartKey(start)});
    assert StartKey(start) in v;
    var ps := Positions(v);
    assert (U8(start.1), U8(start.2)) in ps;
    assert |ps| >= 1 by {
      assert |ps - {(U8(start.1), U8(start.2))}| + 1 == |ps|;
    }
  }

  /** `beam_move`, recording each child under the key `rule` picks: `ParentDir` is the code
      as written, `ChildDir` the key the visit list is meant to hold. */
  method BeamMove(data: seq<seq<char>>, rule: KeyRule, startX: nat, startY: nat, startDir: Dir) returns (count: nat)
    requires Grid(data) && startX < |data[0]| && startY < |data|
    ensures count == BeamCount(data, rule, (startDir, startX, startY))
  {
    var width := |data[0]|;
    var height := |data|;
    var queue: seq<State> := [(startDir, startX, startY)];
    var visit: set<Key> := {(startDir, U8(startX), U8(startY))};
    ghost var result := Explore(data, rule, queue, visit);
    while queue != []
      invariant AllInGrid(queue, width, height)
      invariant Explore(data, rule, queue, visit) == result
      decreases Space() - visit, |queue|
    {
      var (d, x, y) := queue[|queue| - 1];
      queue := queue[..|queue| - 1];
      var c := data[y][x];
      var cs := Moves(NextDir(d, c), x, y, width, height);
      assert cs == Children(data, (d, x, y));
      ghost var q0, v0 := queue, visit;
      for i := 0 to |cs|
        invariant Push(rule, d, cs[i..], queue, visit) == Push(rule, d, cs, q0, v0)
      {
        assert cs[i..][1..] == cs[i + 1..];
        var key := KeyOf(rule, d, cs[i]);
        if key !in visit {
          queue := queue + [cs[i]];
          visit := visit + {key};
        }
      }
      assert cs[|cs|..] == [];
      PushInGrid(rule, d, cs, q0, v0, width, height);
      Shrinks(v0, visit);
    }
    count := |Positions(visit)|;
  }

  // ---------------------------------------------------------------------------------------
  // `calc_1` and `calc_2`.

  /** `calc_1`: the beam enters the top-left cell heading right. */
  function Calc1Spec(input: seq<char>, rule: KeyRule): Option<nat>
  {
    match Parse(input)
    case None => None
    case Some((data, _)) => if Grid(data) then Some(BeamCount(data, rule, (Right, 0, 0))) else None
  }

  method Calc1(input: seq<char>, rule: KeyRule) returns (r: Option<nat>)
    ensures r == Calc1Spec(input, rule)
    ensures r.Some? ==> r.value >= 1
  {
    var parsed := Parse(input);
    if parsed.None? || !Grid(parsed.value.0) {
      return None;
    }
    var count := BeamMove(parsed.value.0, rule, 0, 0, Right);
    BeamCountBounds(parsed.value.0, rule, (Right, 0, 0));
    return Some(count);
  }

  /** The `i`-th entry beam along one side: heading right into the left column, left into
      the right column, down into the top row, up into the bottom row. */
  function Entry(side: Dir, i: nat, width: nat, height: nat): State
    requires width >= 1 && height >= 1
  {
    match side
    case Right => (Right, 0, i)
    case Left => (Left, width - 1, i)
    case Down => (Down, i, 0)
    case Up => (Up, i, height - 1)
  }

  lemma EntryInGrid(side: Dir, i: nat, width: nat, height: nat)
    requires width >= 1 && height >= 1 && i < (if Vertical(side) then width else height)
    ensures InGrid(Entry(side, i, width, height), width, height)
    ensures Entry(side, i, width, height) == (side, Entry(side, i, width, height).1, Entry(side, i, width, height).2)
  {
  }

  /** The first `n` entry beams of one side, in the order the loops of `calc_2` try them. */
  function Entries(side: Dir, n: nat, width: nat, height: nat): (r: seq<State>)
    requires width >= 1 && height >= 1
    ensures |r| == n
  {
    if n == 0 then [] else Entries(side, n - 1, width, height) + [Entry(side, n - 1, width, height)]
  }

  lemma {:induction false} EntriesAt(side: Dir, n: nat, width: nat, height: nat, i: nat)
    requires width >= 1 && height >= 1 && i < n
    ensures Entries(side, n, width, height)[i] == Entry(side, i, width, height)
  {
    if i < n - 1 {
      EntriesAt(side, n - 1, width, height, i);
    }
  }

  /** Every beam `calc_2` tries: the four sides in turn. */
  function EdgeStarts(width: nat, height: nat): (r: seq<State>)
    requires width >= 1 && height >= 1
    ensures |r| == 2 * height + 2 * width
  {
    Entries(Right, height, width, height) + Entries(Left, height, width, height)
      + Entries(Down, width, width, height) + Entries(Up, width, width, height)
  }

  /** A beam that enters the grid from outside: the cell behind it is off the grid. */
  predicate FromEdge(s: State, width: nat, height: nat)
    requires InGrid(s, width, height)
  {
    GetNextCell(Opposite(s.0), s.1, s.2, width, height).None?
  }

  /** The tried beams are exactly the in-grid beams entering from outside the grid. */
  lemma EdgeStartsExact(s: State, width: nat, height: nat)
    requires width >= 1 && height >= 1
    ensures s in EdgeStarts(width, height) <==> InGrid(s, width, height) && FromEdge(s, width, height)
  {
    var r, l, d, u := Entries(Right, height, width, height), Entries(Left, height, width, height),
      Entries(Down, width, width, height), Entries(Up, width, width, height);
    assert EdgeStarts(width, height) == r + l + d + u;
    if InGrid(s, width, height) && FromEdge(s, width, height) {
      match s.0
      case Right => EntriesAt(Right, height, width, height, s.2); assert s == r[s.2];
      case Left => EntriesAt(Left, height, width, height, s.2); assert s == l[s.2];
      case Down => EntriesAt(Down, width, width, height, s.1); assert s == d[s.1];
      case Up => EntriesAt(Up, width, width, height, s.1); assert s == u[s.1];
    }
    if s in EdgeStarts(width, height) {
      var i :| 0 <= i < |r + l + d + u| && (r + l + d + u)[i] == s;
      if i < height {
        EntriesAt(Right, height, width, height, i);
      } else if i < 2 * height {
        EntriesAt(Left, height, width, height, i - height);
        assert s == l[i - height];
      } else if i < 2 * height + width {
        EntriesAt(Down, width, width, height, i - 2 * height);
        assert s == d[i - 2 * height];
      } else {
        EntriesAt(Up, width, width, height, i - 2 * height - width);
        assert s == u[i - 2 * height - width];
      }
    }
  }

  /** The count for a start beam, or 0 for a cell off the grid. */
  function CountOf(data: seq<seq<char>>, rule: KeyRule, s: State): nat
    requires Grid(data)
  {
    if InGrid(s, |data[0]|, |data|) then BeamCount(data, rule, s) else 0
  }

  /** The largest count over a list of start beams; 0 for none. */
  function MaxOver(data: seq<seq<char>>, rule: KeyRule, starts: seq<State>): nat
    requires Grid(data)
  {
    if starts == [] then 0
    else Max(MaxOver(data, rule, starts[..|starts| - 1]), CountOf(data, rule, starts[|starts| - 1]))
  }

  /** No start gives more than the largest count. */
  lemma {:induction false} MaxOverUpper(data: seq<seq<char>>, rule: KeyRule, starts: seq<State>, i: nat)
    requires Grid(data) && i < |starts|
    ensures CountOf(data, rule, starts[i]) <= MaxOver(data, rule, starts)
  {
    if i < |starts| - 1 {
      var front := starts[..|starts| - 1];
      MaxOverUpper(data, rule, front, i);
      assert front[i] == starts[i];
    }
  }

  /** The largest count is attained by one of the starts. */
  lemma {:induction false} MaxOverAttained(data: seq<seq<char>>, rule: KeyRule, starts: seq<State>)
    requires Grid(data) && starts != []
    ensures exists i | 0 <= i < |starts| :: CountOf(data, rule, starts[i]) == MaxOver(data, rule, starts)
  {
    var front := starts[..|starts| - 1];
    var last := |starts| - 1;
    if front != [] && MaxOver(data, rule, front) >= CountOf(data, rule, starts[last]) {
      MaxOverAttained(data, rule, front);
      var i :| 0 <= i < |front| && CountOf(data, rule, front[i]) == MaxOver(data, rule, front);
      assert starts[i] == front[i];
    } else {
      assert CountOf(data, rule, starts[last]) == MaxOver(data, rule, starts);
    }
  }

  lemma MaxOverSnoc(data: seq<seq<char>>, rule: KeyRule, starts: seq<State>, s: State)
    requires Grid(data)
    ensures MaxOver(data, rule, starts + [s]) == Max(MaxOver(data, rule, starts), CountOf(data, rule, s))
  {
    assert (starts + [s])[..|starts|] == starts;
  }

  /** `calc_2`: the largest count over every beam entering from the edge. */
  function Calc2Spec(input: seq<char>, rule: KeyRule): Option<nat>
  {
    match Parse(input)
    case None => None
    case Some((data, _)) =>
      if Grid(data) then Some(MaxOver(data, rule, EdgeStarts(|data[0]|, |data|))) else None
  }

  /** No beam from the edge energises more cells than `calc_2` reports. */
  lemma Calc2IsBest(data: seq<seq<char>>, rule: KeyRule, s: State)
    requires Grid(data) && InGrid(s, |data[0]|, |data|) && FromEdge(s, |data[0]|, |data|)
    ensures BeamCount(data, rule, s) <= MaxOver(data, rule, EdgeStarts(|data[0]|, |data|))
  {
    var starts := EdgeStarts(|data[0]|, |data|);
    EdgeStartsExact(s, |data[0]|, |data|);
    var i :| 0 <= i < |starts| && starts[i] == s;
    MaxOverUpper(data, rule, starts, i);
  }

  /** Some beam from the edge energises exactly as many cells as `calc_2` reports. */
  lemma Calc2Attained(data: seq<seq<char>>, rule: KeyRule)
    requires Grid(data)
    ensures exists s | s in EdgeStarts(|data[0]|, |data|) ::
      InGrid(s, |data[0]|, |data|) && FromEdge(s, |data[0]|, |data|)
      && BeamCount(data, rule, s) == MaxOver(data, rule, EdgeStarts(|data[0]|, |data|))
  {
    var starts := EdgeStarts(|data[0]|, |data|);
    MaxOverAttained(data, rule, starts);
    var i :| 0 <= i < |starts| && CountOf(data, rule, starts[i]) == MaxOver(data, rule, starts);
    EdgeStartsExact(starts[i], |data[0]|, |data|);
  }

  /** One loop of `calc_2`: the beams of one side, folded into the running maximum. */
  method TrySide(data: seq<seq<char>>, rule: KeyRule, side: Dir, n: nat, ghost before: seq<State>, maxIn: nat)
    returns (maxValue: nat)
    requires Grid(data) && maxIn == MaxOver(data, rule, before)
    requires n == (if Vertical(side) then |data[0]| else |data|)
    ensures maxValue == MaxOver(data, rule, before + Entries(side, n, |data[0]|, |data|))
  {
    maxValue := maxIn;
    NoEntries(before, side, |data[0]|, |data|);
    for i := 0 to n
      invariant maxValue == MaxOver(data, rule, before + Entries(side, i, |data[0]|, |data|))
    {
      maxValue := TryEntry(data, rule, side, i, before, maxValue);
    }
  }

  lemma NoEntries(before: seq<State>, side: Dir, width: nat, height: nat)
    requires width >= 1 && height >= 1
    ensures before + Entries(side, 0, width, height) == before
  {
    assert Entries(side, 0, width, height) == [];
  }

  /** One iteration of a side loop: the beam entering at the i-th cell of the side. */
  method TryEntry(data: seq<seq<char>>, rule: KeyRule, side: Dir, i: nat, ghost before: seq<State>, maxIn: nat)
    returns (maxValue: nat)
    requires Grid(data) && i < (if Vertical(side) then |data[0]| else |data|)
    requires maxIn == MaxOver(data, rule, before + Entries(side, i, |data[0]|, |data|))
    ensures maxValue == MaxOver(data, rule, before + Entries(side, i + 1, |data[0]|, |data|))
  {
    var (_, x, y) := Entry(side, i, |data[0]|, |data|);
    EntryInGrid(side, i, |data[0]|, |data|);
    var count := BeamMove(data, rule, x, y, side);
    SideStep(data, rule, before, side, i, maxIn, count);
    maxValue := if count > maxIn then count else maxIn;
  }

  lemma SideStep(data: seq<seq<char>>, rule: KeyRule, before: seq<State>, side: Dir, i: nat, maxValue: nat, count: nat)
    requires Grid(data) && i < (if Vertical(side) then |data[0]| else |data|)
    requires maxValue == MaxOver(data, rule, before + Entries(side, i, |data[0]|, |data|))
    requires count == BeamCount(data, rule, Entry(side, i, |data[0]|, |data|))
    ensures (if count > maxValue then count else maxValue) == MaxOver(data, rule, before + Entries(side, i + 1, |data[0]|, |data|))
  {
    var s := Entry(side, i, |data[0]|, |data|);
    var tried := before + Entries(side, i, |data[0]|, |data|);
    EntryInGrid(side, i, |data[0]|, |data|);
    MaxOverSnoc(data, rule, tried, s);
    assert Entries(side, i + 1, |data[0]|, |data|) == Entries(side, i, |data[0]|, |data|) + [s];
    AppendAssoc(before, Entries(side, i, |data[0]|, |data|), [s]);
  }

  method Calc2(input: seq<char>, rule: KeyRule) returns (r: Option<nat>)
    ensures r == Calc2Spec(input, rule)
  {
    var parsed := Parse(input);
    if parsed.None? || !Grid(parsed.value.0) {
      return None;
    }
    var data := parsed.value.0;
    var width := |data[0]|;
    var height := |data|;
    var maxValue := 0;
    ghost var tried: seq<State> := [];
    maxValue := TrySide(data, rule, Right, height, tried, maxValue);
    tried := tried + Entries(Right, height, width, height);
    maxValue := TrySide(data, rule, Left, height, tried, maxValue);
    tried := tried + Entries(Left, height, width, height);
    maxValue := TrySide(data, rule, Down, width, tried, maxValue);
    tried := tried + Entries(Down, width, width, height);
    maxValue := TrySide(data, rule, Up, width, tried, maxValue);
    tried := tried + Entries(Up, width, width, height);
    assert tried == EdgeStarts(width, height) by {
      assert [] + Entries(Right, height, width, height) == Entries(Right, height, width, height);
    }
    return Some(maxValue);
  }

  // ---------------------------------------------------------------------------------------
  // Keys by the parent's direction can drop a beam; keys by the beam's own direction
  // cannot.

  /** Coordinates fit in `u8`, so a key by the beam's own direction is the beam itself. */
  predicate Small(data: seq<seq<char>>) { |data| <= 256 && data != [] && |data[0]| <= 256 }

  /** Every recorded beam is still queued or has all the beams leaving it recorded. */
  predicate Closed(data: seq<seq<char>>, queue: seq<State>, visit: set<Key>)
    requires Grid(data)
  {
    forall k | k in visit && InGrid(k, |data[0]|, |data|) ::
      k in queue || forall c | c in Children(data, k) :: c in visit
  }

  lemma {:induction false} PushChild(d: Dir, cs: seq<State>, queue: seq<State>, visit: set<Key>)
    requires forall i | 0 <= i < |cs| :: cs[i].1 < 256 && cs[i].2 < 256
    ensures forall i | 0 <= i < |cs| :: cs[i] in Push(ChildDir, d, cs, queue, visit).1
    ensures forall k | k in Push(ChildDir, d, cs, queue, visit).1 && k !in visit :: k in Push(ChildDir, d, cs, queue, visit).0
    ensures forall s | s in queue :: s in Push(ChildDir, d, cs, queue, visit).0
    decreases |cs|
  {
    if cs != [] {
      var k := KeyOf(ChildDir, d, cs[0]);
      assert k == cs[0];
      var tail := cs[1..];
      assert forall i | 1 <= i < |cs| :: cs[i] == tail[i - 1];
      if k in visit {
        PushChild(d, tail, queue, visit);
      } else {
        PushChild(d, tail, queue + [cs[0]], visit + {k});
      }
    }
  }

  /** One round of the loop, with keys by the beam's own direction, keeps `Closed`. */
  lemma ClosedStep(data: seq<seq<char>>, queue: seq<State>, visit: set<Key>)
    requires Grid(data) && Small(data) && queue != [] && AllInGrid(queue, |data[0]|, |data|)
    requires Closed(data, queue, visit)
    ensures Closed(data, Push(ChildDir, queue[|queue| - 1].0, Children(data, queue[|queue| - 1]), queue[..|queue| - 1], visit).0,
                         Push(ChildDir, queue[|queue| - 1].0, Children(data, queue[|queue| - 1]), queue[..|queue| - 1], visit).1)
  {
    var s := queue[|queue| - 1];
    var cs := Children(data, s);
    var rest := queue[..|queue| - 1];
    var p := Push(ChildDir, s.0, cs, rest, visit);
    PushChild(s.0, cs, rest, visit);
    forall k | k in p.1 && InGrid(k, |data[0]|, |data|)
      ensures k in p.0 || forall c | c in Children(data, k) :: c in p.1
    {
      if k in visit && k != s && k in queue {
        var j :| 0 <= j < |queue| && queue[j] == k;
        assert rest[j] == k;
      }
    }
  }

  lemma {:induction false} ExploreClosed(data: seq<seq<char>>, queue: seq<State>, visit: set<Key>)
    requires Grid(data) && Small(data) && AllInGrid(queue, |data[0]|, |data|)
    requires Closed(data, queue, visit)
    ensures Closed(data, [], Explore(data, ChildDir, queue, visit))
    decreases Space() - visit, |queue|
  {
    if queue != [] {
      var s := queue[|queue| - 1];
      var p := Push(ChildDir, s.0, Children(data, s), queue[..|queue| - 1], visit);
      PushInGrid(ChildDir, s.0, Children(data, s), queue[..|queue| - 1], visit, |data[0]|, |data|);
      Shrinks(visit, p.1);
      ClosedStep(data, queue, visit);
      ExploreClosed(data, p.0, p.1);
    }
  }

  /** A path a beam can follow: each beam is one of those leaving the one before. */
  predicate BeamPath(data: seq<seq<char>>, p: seq<State>)
    requires Grid(data)
  {
    forall i | 0 <= i < |p| - 1 :: InGrid(p[i], |data[0]|, |data|) && p[i + 1] in Children(data, p[i])
  }

  lemma {:induction false} PathIn(data: seq<seq<char>>, v: set<Key>, p: seq<State>, i: nat)
    requires Grid(data) && Closed(data, [], v) && BeamPath(data, p)
    requires p != [] && p[0] in v && InGrid(p[0], |data[0]|, |data|) && i < |p|
    ensures p[i] in v
  {
    if i > 0 {
      PathIn(data, v, p, i - 1);
    }
  }

  /** With keys by the beam's own direction, every beam on every path from the start is
      recorded, so every cell it passes through is counted. */
  lemma FixedReachesAll(data: seq<seq<char>>, p: seq<State>)
    requires Grid(data) && Small(data) && p != [] && InGrid(p[0], |data[0]|, |data|) && BeamPath(data, p)
    ensures forall i | 0 <= i < |p| :: p[i] in Explore(data, ChildDir, [p[0]], {StartKey(p[0])})
    ensures forall i | 0 <= i < |p| :: (p[i].1, p[i].2) in Positions(Explore(data, ChildDir, [p[0]], {StartKey(p[0])}))
  {
    var v := Explore(data, ChildDir, [p[0]], {StartKey(p[0])});
    assert StartKey(p[0]) == p[0];
    ExploreClosed(data, [p[0]], {StartKey(p[0])});
    forall i | 0 <= i < |p|
      ensures p[i] in v && (p[i].1, p[i].2) in Positions(v)
    {
      PathIn(data, v, p, i);
    }
  }

  /** A beam with a single child whose key is new: the child is queued. */
  lemma OneChild(data: seq<seq<char>>, rule: KeyRule, s: State, v: set<Key>, c: State, k: Key)
    requires Grid(data) && InGrid(s, |data[0]|, |data|) && Children(data, s) == [c]
    requires KeyOf(rule, s.0, c) == k && k !in v
    ensures Explore(data, rule, [s], v) == Explore(data, rule, [c], v + {k})
  {
    assert [s][..0] == [] && [c][1..] == [] && [] + [c] == [c];
    assert Push(rule, s.0, [c], [], v) == ([c], v + {k});
  }

  /** A beam with a single child whose key is known: the child is dropped. */
  lemma OneChildSeen(data: seq<seq<char>>, rule: KeyRule, s: State, v: set<Key>, c: State, k: Key)
    requires Grid(data) && InGrid(s, |data[0]|, |data|) && Children(data, s) == [c]
    requires KeyOf(rule, s.0, c) == k && k in v
    ensures Explore(data, rule, [s], v) == v
  {
    assert [s][..0] == [] && [c][1..] == [];
    assert Push(rule, s.0, [c], [], v) == ([], v);
  }

  lemma PositionsLeftOf(v: set<Key>, bound: nat)
    requires forall k | k in v :: k.1 < bound
    ensures forall p | p in Positions(v) :: p.0 < bound
  {
  }

  /** The grid of the dropped beam below. */
  predicate Sample(data: seq<seq<char>>) { data == [".\\.", "//.", "\\/."] }

  lemma SampleGrid(data: seq<seq<char>>)
    requires Sample(data)
    ensures Grid(data) && Small(data) && |data| == 3 && |data[0]| == 3
  {
    assert forall y | 0 <= y < 3 :: |data[y]| == 3 && AllOk(data[y], IsCell);
  }

  /** The beams leaving each cell the sample beam passes through. */
  lemma SampleChildren(data: seq<seq<char>>)
    requires Sample(data)
    ensures Grid(data)
    ensures Children(data, (Right, 0, 0)) == [(Right, 1, 0)]
    ensures Children(data, (Right, 1, 0)) == [(Down, 1, 1)]
    ensures Children(data, (Down, 1, 1)) == [(Left, 0, 1)]
    ensures Children(data, (Left, 0, 1)) == [(Down, 0, 2)]
    ensures Children(data, (Down, 0, 2)) == [(Right, 1, 2)]
    ensures Children(data, (Right, 1, 2)) == [(Up, 1, 1)]
    ensures Children(data, (Up, 1, 1)) == [(Right, 2, 1)]
  {
    SampleGrid(data);
    assert data[0][0] == '.' && data[0][1] == '\\' && data[1][0] == '/' && data[1][1] == '/';
    assert data[2][0] == '\\' && data[2][1] == '/';
  }

  /** On this grid the beam entering the top-left cell heading right goes down, left, down,
      right and then up through the centre cell, where the `/` sends it right into cell (2, 1).
      `beam_move` has already recorded the centre cell under the key of the beam that first
      came down into it heading right, so the upward beam is dropped and cell (2, 1) is never
      counted; keying by the beam's own direction counts it. */
  lemma DroppedBeam(data: seq<seq<char>>)
    requires Sample(data)
    ensures Grid(data)
    ensures Explore(data, ParentDir, [(Right, 0, 0)], {(Right, 0, 0)})
      == {(Right, 0, 0), (Right, 1, 0), (Right, 1, 1), (Down, 0, 1), (Left, 0, 2), (Down, 1, 2)}
    ensures (2, 1) !in Positions(Explore(data, ParentDir, [(Right, 0, 0)], {(Right, 0, 0)}))
    ensures (2, 1) in Positions(Explore(data, ChildDir, [(Right, 0, 0)], {(Right, 0, 0)}))
  {
    WrittenRun(data);
    WrittenMisses(data);
    FixedRun(data);
  }

  lemma WrittenMisses(data: seq<seq<char>>)
    requires Grid(data)
    requires Explore(data, ParentDir, [(Right, 0, 0)], {(Right, 0, 0)})
      == {(Right, 0, 0), (Right, 1, 0), (Right, 1, 1), (Down, 0, 1), (Left, 0, 2), (Down, 1, 2)}
    ensures (2, 1) !in Positions(Explore(data, ParentDir, [(Right, 0, 0)], {(Right, 0, 0)}))
  {
    var v := Explore(data, ParentDir, [(Right, 0, 0)], {(Right, 0, 0)});
    PositionsLeftOf(v, 2);
  }

  lemma WrittenRun(data: seq<seq<char>>)
    requires Sample(data)
    ensures Grid(data)
    ensures Explore(data, ParentDir, [(Right, 0, 0)], {(Right, 0, 0)})
      == {(Right, 0, 0), (Right, 1, 0), (Right, 1, 1), (Down, 0, 1), (Left, 0, 2), (Down, 1, 2)}
  {
    SampleChildren(data);
    var v0 := {(Right, 0, 0)};
    var v1 := v0 + {(Right, 1, 0)};
    var v2 := v1 + {(Right, 1, 1)};
    var v3 := v2 + {(Down, 0, 1)};
    var v4 := v3 + {(Left, 0, 2)};
    var v5 := v4 + {(Down, 1, 2)};
    OneChild(data, ParentDir, (Right, 0, 0), v0, (Right, 1, 0), (Right, 1, 0));
    OneChild(data, ParentDir, (Right, 1, 0), v1, (Down, 1, 1), (Right, 1, 1));
    OneChild(data, ParentDir, (Down, 1, 1), v2, (Left, 0, 1), (Down, 0, 1));
    OneChild(data, ParentDir, (Left, 0, 1), v3, (Down, 0, 2), (Left, 0, 2));
    OneChild(data, ParentDir, (Down, 0, 2), v4, (Right, 1, 2), (Down, 1, 2));
    OneChildSeen(data, ParentDir, (Right, 1, 2), v5, (Up, 1, 1), (Right, 1, 1));
  }

  lemma FixedRun(data: seq<seq<char>>)
    requires Sample(data)
    ensures Grid(data)
    ensures (2, 1) in Positions(Explore(data, ChildDir, [(Right, 0, 0)], {(Right, 0, 0)}))
  {
    SampleGrid(data);
    SampleChildren(data);
    var path: seq<State> := [(Right, 0, 0), (Right, 1, 0), (Down, 1, 1), (Left, 0, 1), (Down, 0, 2),
      (Right, 1, 2), (Up, 1, 1), (Right, 2, 1)];
    assert BeamPath(data, path);
    FixedReachesAll(data, path);
    assert (path[7].1, path[7].2) == (2, 1);
  }
}
