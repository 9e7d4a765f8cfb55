/** Day 17: a crucible crosses a city grid of heat-loss digits from the top-left block to the
    bottom-right one. It may turn left or right, never reverse, and move at most three blocks
    in a straight line; the answer is the least heat loss of such a route. */
module Day17 {
  import opened Common
  import opened CharGrid

  // ---------------------------------------------------------------------------------------
  // Parsing: rows of digits (`parse_line`), `many1` of them, then `many0(newline)`.

  /** Each digit of a row as its heat loss. */
  function CostRow(row: seq<char>): (r: seq<nat>)
    requires AllOk(row, IsDigit)
    ensures |r| == |row| && forall x | 0 <= x < |r| :: r[x] == DigitValue(row[x])
  {
    seq(|row|, x requires 0 <= x < |row| => DigitValue(row[x]))
  }

  function Costs(rows: seq<seq<char>>): (g: seq<seq<nat>>)
    requires Rows(rows, IsDigit)
    ensures |g| == |rows| && forall y | 0 <= y < |g| :: g[y] == CostRow(rows[y])
  {
    seq(|rows|, y requires 0 <= y < |rows| => CostRow(rows[y]))
  }

  function Parse(s: seq<char>): (r: Option<(seq<seq<nat>>, seq<char>)>)
    ensures r.Some? ==> r.value.0 != [] && forall y | 0 <= y < |r.value.0| :: r.value.0[y] != []
  {
    match ParseGrid(s, IsDigit)
    case None => None
    case Some((rows, rest)) => Some((Costs(rows), SkipNewlines(rest)))
  }

  /** Non-empty rows of single-digit values: what a printed grid can hold. */
  predicate DigitGrid(g: seq<seq<nat>>)
  {
    g != [] && forall y | 0 <= y < |g| :: g[y] != [] && forall x | 0 <= x < |g[y]| :: g[y][x] < 10
  }

  function DigitRows(g: seq<seq<nat>>): (rows: seq<seq<char>>)
    requires DigitGrid(g)
    ensures |rows| == |g| && forall y | 0 <= y < |rows| :: |rows[y]| == |g[y]|
  {
    seq(|g|, y requires 0 <= y < |g| => seq(|g[y]|, x requires 0 <= x < |g[y]| => DigitChar(g[y][x])))
  }

  function ShowGrid(g: seq<seq<nat>>): seq<char>
    requires DigitGrid(g)
  {
    ShowRows(DigitRows(g))
  }

  lemma DigitRowsBack(g: seq<seq<nat>>)
    requires DigitGrid(g)
    ensures Rows(DigitRows(g), IsDigit) && Costs(DigitRows(g)) == g
  {
    var rows := DigitRows(g);
    forall y | 0 <= y < |g|
      ensures rows[y] != [] && AllOk(rows[y], IsDigit)
    {
    }
    forall y | 0 <= y < |g|
      ensures CostRow(rows[y]) == g[y]
    {
    }
  }

  /** A printed grid is read back whole; newlines after it are skipped. */
  lemma ParseOfShow(g: seq<seq<nat>>, rest: seq<char>)
    requires DigitGrid(g)
    requires rest == [] || !IsDigit(rest[0])
    ensures Parse(ShowGrid(g) + rest) == Some((g, SkipNewlines(rest)))
  {
    DigitRowsBack(g);
    ParseGridOfShowThen(DigitRows(g), rest, IsDigit);
  }

  // ---------------------------------------------------------------------------------------
  // Directions and path nodes: x grows to the right, y grows downwards.

  datatype Dir = Up | Down | Left | Right

  function DX(d: Dir): int
  {
    match d
    case Left => -1
    case Right => 1
    case _ => 0
  }

  function DY(d: Dir): int
  {
    match d
    case Up => -1
    case Down => 1
    case _ => 0
  }

  function Opposite(d: Dir): (e: Dir)
    ensures DX(e) == -DX(d) && DY(e) == -DY(d)
  {
    match d
    case Up => Down
    case Down => Up
    case Left => Right
    case Right => Left
  }

  /** A search node: the heat lost so far, the block, the direction of the last move and how
      many moves in a row went that way. */
  datatype PathNode = PathNode(score: nat, x: nat, y: nat, dir: Dir, cons: nat)

  /** What `visited` is keyed by: a node without its score. */
  type Key = (nat, nat, Dir, nat)

  function KeyOf(n: PathNode): Key { (n.x, n.y, n.dir, n.cons) }

  function NodeAt(k: Key, score: nat): (n: PathNode)
    ensures KeyOf(n) == k && n.score == score
  {
    PathNode(score, k.0, k.1, k.2, k.3)
  }

  datatype Ordering = Less | Equal | Greater

  /** The heap order of nodes compares scores the other way round, so that the max-heap's
      greatest node is the cheapest one. */
  function Cmp(a: PathNode, b: PathNode): (r: Ordering)
    ensures r == Greater <==> a.score < b.score
    ensures r == Less <==> b.score < a.score
  {
    if b.score < a.score then Less else if b.score == a.score then Equal else Greater
  }

  /** What `BinaryHeap::pop` may return: a node no other is greater than. */
  predicate IsTop(n: PathNode, open: multiset<PathNode>)
  {
    forall m | m in open :: Cmp(n, m) != Less
  }

  /** The heap's top is a node of least score. */
  lemma TopIsCheapest(n: PathNode, open: multiset<PathNode>)
    requires IsTop(n, open)
    ensures forall m | m in open :: n.score <= m.score
  {
  }

  /** A non-empty heap has a top. */
  lemma {:induction false} HeapHasTop(open: multiset<PathNode>)
    requires open != multiset{}
    ensures exists n :: n in open && IsTop(n, open)
  {
    var x :| x in open;
    var rest := open - multiset{x};
    assert open == rest + multiset{x};
    if rest == multiset{} {
      assert IsTop(x, open);
    } else {
      HeapHasTop(rest);
      var n :| n in rest && IsTop(n, rest);
      if n.score <= x.score {
        assert IsTop(n, open);
      } else {
        assert IsTop(x, open);
      }
    }
  }

  // ---------------------------------------------------------------------------------------
  // Moves.

  /** Moving from the node in direction d stays on the width × height grid. */
  predicate StaysIn(n: PathNode, d: Dir, width: nat, height: nat)
  {
    0 <= n.x + DX(d) < width && 0 <= n.y + DY(d) < height
  }

  /** The rule for a legal next move: no reversing, no leaving the grid, and no fourth move
      in the same direction. */
  predicate Allowed(n: PathNode, d: Dir, width: nat, height: nat)
  {
    d != Opposite(n.dir) && StaysIn(n, d, width, height) && (d == n.dir ==> n.cons != 3)
  }

  /** The directions `get_next_dir` offers, in the order it pushes them. */
  function Offered(n: PathNode, width: nat, height: nat): (r: seq<Dir>)
    ensures n.x < width && n.y < height ==> forall i | 0 <= i < |r| :: StaysIn(n, r[i], width, height)
  {
    match n.dir
    case Down =>
      (if n.x != 0 then [Left] else []) + (if n.x != width - 1 then [Right] else [])
      + (if n.y != height - 1 && n.cons != 3 then [Down] else [])
    case Up =>
      (if n.x != 0 then [Left] else []) + (if n.x != width - 1 then [Right] else [])
      + (if n.y != 0 && n.cons != 3 then [Up] else [])
    case Left =>
      (if n.x != 0 && n.cons != 3 then [Left] else []) + (if n.y != 0 then [Up] else [])
      + (if n.y != height - 1 then [Down] else [])
    case Right =>
      (if n.x != width - 1 && n.cons != 3 then [Right] else []) + (if n.y != 0 then [Up] else [])
      + (if n.y != height - 1 then [Down] else [])
  }

  /** Inside the grid the offered directions are exactly the allowed ones, each once. */
  lemma OfferedIff(n: PathNode, width: nat, height: nat)
    requires n.x < width && n.y < height
    ensures forall d :: d in Offered(n, width, height) <==> Allowed(n, d, width, height)
    ensures forall i, j | 0 <= i < j < |Offered(n, width, height)| :: Offered(n, width, height)[i] != Offered(n, width, height)[j]
  {
  }

  /** `get_next_dir`: collects the directions one push at a time. */
  method GetNextDir(node: PathNode, width: nat, height: nat) returns (ret: seq<Dir>)
    ensures ret == Offered(node, width, height)
  {
    ret := [];
    match node.dir {
      case Down =>
        if node.x != 0 { ret := ret + [Left]; }
        if node.x != width - 1 { ret := ret + [Right]; }
        if node.y != height - 1 && node.cons != 3 { ret := ret + [Down]; }
      case Up =>
        if node.x != 0 { ret := ret + [Left]; }
        if node.x != width - 1 { ret := ret + [Right]; }
        if node.y != 0 && node.cons != 3 { ret := ret + [Up]; }
      case Left =>
        if node.x != 0 && node.cons != 3 { ret := ret + [Left]; }
        if node.y != 0 { ret := ret + [Up]; }
        if node.y != height - 1 { ret := ret + [Down]; }
      case Right =>
        if node.x != width - 1 && node.cons != 3 { ret := ret + [Right]; }
        if node.y != 0 { ret := ret + [Up]; }
        if node.y != height - 1 { ret := ret + [Down]; }
    }
  }

  /** Non-empty rows, none shorter than the first: every block the search can reach has a
      cost. */
  predicate Grid(data: seq<seq<nat>>)
  {
    data != [] && data[0] != [] && forall y | 0 <= y < |data| :: |data[y]| >= |data[0]|
  }

  predicate Fits(data: seq<seq<nat>>, n: PathNode)
  {
    data != [] && n.x < |data[0]| && n.y < |data|
  }

  /** `get_next_node`: one block further in direction d, paying that block's heat loss and
      counting the straight run. */
  function GetNextNode(node: PathNode, d: Dir, data: seq<seq<nat>>): (r: PathNode)
    requires Grid(data) && Fits(data, node) && StaysIn(node, d, |data[0]|, |data|)
    ensures Fits(data, r)
    ensures r.x == node.x + DX(d) && r.y == node.y + DY(d) && r.dir == d
    ensures r.score == node.score + data[r.y][r.x]
    ensures r.cons == if d == node.dir then node.cons + 1 else 1
  {
    var (newX, newY) :=
      match d
      case Down => (node.x, node.y + 1)
      case Left => (node.x - 1, node.y)
      case Right => (node.x + 1, node.y)
      case Up => (node.x, node.y - 1);
    var newScore := node.score + data[newY][newX];
    var newCons := if d == node.dir then node.cons + 1 else 1;
    PathNode(newScore, newX, newY, d, newCons)
  }

  /** Offered moves and their outcome depend on a node's key only; the score is carried. */
  lemma SameKeyMoves(data: seq<seq<nat>>, a: PathNode, b: PathNode, d: Dir)
    requires Grid(data) && Fits(data, a) && KeyOf(a) == KeyOf(b) && StaysIn(a, d, |data[0]|, |data|)
    ensures Fits(data, b) && StaysIn(b, d, |data[0]|, |data|)
    ensures Offered(b, |data[0]|, |data|) == Offered(a, |data[0]|, |data|)
    ensures Allowed(b, d, |data[0]|, |data|) == Allowed(a, d, |data[0]|, |data|)
    ensures KeyOf(GetNextNode(b, d, data)) == KeyOf(GetNextNode(a, d, data))
    ensures GetNextNode(b, d, data).score + a.score == GetNextNode(a, d, data).score + b.score
  {
  }

  // ---------------------------------------------------------------------------------------
  // Routes: the reference the search is proved against.

  /** The search starts at the top-left block with score 0, facing right, no moves made. */
  function Start(): PathNode { PathNode(0, 0, 0, Right, 0) }

  /** Following the moves w from n, each one allowed where it is made; None at the first move
      that is not. */
  function Run(data: seq<seq<nat>>, n: PathNode, w: seq<Dir>): (r: Option<PathNode>)
    requires Grid(data) && Fits(data, n)
    ensures r.Some? ==> Fits(data, r.value) && r.value.score >= n.score
    decreases |w|
  {
    if w == [] then Some(n)
    else
      match Run(data, n, w[..|w| - 1])
      case None => None
      case Some(m) =>
        var d := w[|w| - 1];
        if Allowed(m, d, |data[0]|, |data|) then Some(GetNextNode(m, d, data)) else None
  }

  predicate AtTarget(data: seq<seq<nat>>, k: Key)
  {
    data != [] && k.0 == |data[0]| - 1 && k.1 == |data| - 1
  }

  /** w is a legal route from the start to the bottom-right block. */
  predicate Reaches(data: seq<seq<nat>>, w: seq<Dir>)
  {
    Grid(data) && Run(data, Start(), w).Some? && AtTarget(data, KeyOf(Run(data, Start(), w).value))
  }

  /** c is the least heat loss of a legal route to the bottom-right block. */
  ghost predicate MinCost(data: seq<seq<nat>>, c: nat)
  {
    (exists w :: Reaches(data, w) && Run(data, Start(), w).value.score == c)
    && forall w | Reaches(data, w) :: c <= Run(data, Start(), w).value.score
  }

  /** A least cost is unique. */
  lemma MinCostUnique(data: seq<seq<nat>>, a: nat, b: nat)
    requires MinCost(data, a) && MinCost(data, b)
    ensures a == b
  {
    var wa :| Reaches(data, wa) && Run(data, Start(), wa).value.score == a;
    var wb :| Reaches(data, wb) && Run(data, Start(), wb).value.score == b;
  }

  /** The number of moves at the end of w that go the same way as the last one. */
  function TrailingRun(w: seq<Dir>): (k: nat)
    ensures k <= |w| && (w != [] ==> k >= 1)
    decreases |w|
  {
    if |w| <= 1 then |w|
    else if w[|w| - 2] == w[|w| - 1] then TrailingRun(w[..|w| - 1]) + 1
    else 1
  }

  /** Along a legal route the node records the last move and the length of the straight run
      it ends, and that run never exceeds three moves. */
  lemma {:induction false} RunCounts(data: seq<seq<nat>>, w: seq<Dir>)
    requires Grid(data) && Run(data, Start(), w).Some?
    ensures w == [] ==> Run(data, Start(), w).value == Start()
    ensures w != [] ==> Run(data, Start(), w).value.dir == w[|w| - 1]
    ensures Run(data, Start(), w).value.cons == TrailingRun(w) <= 3
    decreases |w|
  {
    if w != [] {
      var p := w[..|w| - 1];
      var d := w[|w| - 1];
      RunCounts(data, p);
      var m := Run(data, Start(), p).value;
      assert Allowed(m, d, |data[0]|, |data|);
      assert Run(data, Start(), w) == Some(GetNextNode(m, d, data));
      assert w == p + [d];
      TrailingStep(p, d);
    }
  }

  lemma TrailingStep(p: seq<Dir>, d: Dir)
    ensures TrailingRun(p + [d]) == if p != [] && p[|p| - 1] == d then TrailingRun(p) + 1 else 1
  {
    var w := p + [d];
    assert w[..|w| - 1] == p;
    if p != [] {
      assert w[|w| - 2] == p[|p| - 1];
    }
  }

  /** A legal route is a prefix-closed set: cutting off its last move leaves a legal route. */
  lemma RunPrefix(data: seq<seq<nat>>, w: seq<Dir>, i: nat)
    requires Grid(data) && Run(data, Start(), w).Some? && i <= |w|
    ensures Run(data, Start(), w[..i]).Some?
    decreases |w| - i
  {
    if i < |w| {
      assert Run(data, Start(), w[..|w| - 1]).Some?;
      RunPrefix(data, w[..|w| - 1], i);
      assert w[..|w| - 1][..i] == w[..i];
    } else {
      assert w[..i] == w;
    }
  }

  /** Move i + 1 of a legal route does not reverse move i. */
  lemma NoReverse(data: seq<seq<nat>>, w: seq<Dir>, i: nat)
    requires Grid(data) && Run(data, Start(), w).Some? && i + 1 < |w|
    ensures w[i + 1] != Opposite(w[i])
  {
    RunPrefix(data, w, i + 2);
    var p := w[..i + 2];
    var q := p[..|p| - 1];
    assert q == w[..i + 1];
    assert Run(data, Start(), q).Some?;
    RunCounts(data, q);
  }

  /** Moves i to i + 3 of a legal route are not all the same. */
  lemma NoFourInARow(data: seq<seq<nat>>, w: seq<Dir>, i: nat)
    requires Grid(data) && Run(data, Start(), w).Some? && i + 3 < |w|
    ensures !(w[i] == w[i + 1] == w[i + 2] == w[i + 3])
  {
    RunPrefix(data, w, i + 4);
    var p := w[..i + 4];
    RunCounts(data, p);
    if w[i] == w[i + 1] == w[i + 2] == w[i + 3] {
      FourRun(p);
    }
  }

  /** No legal route starts to the left, reverses, or makes four moves in a row one way. */
  lemma RouteShape(data: seq<seq<nat>>, w: seq<Dir>)
    requires Grid(data) && Run(data, Start(), w).Some?
    ensures w != [] ==> w[0] != Left
    ensures forall i | 0 <= i < |w| - 1 :: w[i + 1] != Opposite(w[i])
    ensures forall i | 0 <= i < |w| - 3 :: !(w[i] == w[i + 1] == w[i + 2] == w[i + 3])
  {
    if w != [] {
      RunPrefix(data, w, 1);
      assert w[..1][..0] == [];
    }
    forall i | 0 <= i < |w| - 1
      ensures w[i + 1] != Opposite(w[i])
    {
      NoReverse(data, w, i);
    }
    forall i | 0 <= i < |w| - 3
      ensures !(w[i] == w[i + 1] == w[i + 2] == w[i + 3])
    {
      NoFourInARow(data, w, i);
    }
  }

  lemma FourRun(p: seq<Dir>)
    requires |p| >= 4 && p[|p| - 4] == p[|p| - 3] == p[|p| - 2] == p[|p| - 1]
    ensures TrailingRun(p) >= 4
  {
    var p1 := p[..|p| - 1];
    var p2 := p1[..|p1| - 1];
    var p3 := p2[..|p2| - 1];
    assert p1[|p1| - 2] == p1[|p1| - 1] && p2[|p2| - 2] == p2[|p2| - 1];
    assert TrailingRun(p) == TrailingRun(p1) + 1;
    assert TrailingRun(p1) == TrailingRun(p2) + 1;
    assert TrailingRun(p2) == TrailingRun(p3) + 1;
  }

  // ---------------------------------------------------------------------------------------
  // The search: Dijkstra's algorithm over (block, direction, run length) with a heap of
  // nodes, `visited` holding the best score seen per key.

  function Width(data: seq<seq<nat>>): nat requires data != [] { |data[0]| }

  predicate KeyFits(data: seq<seq<nat>>, k: Key)
  {
    data != [] && k.0 < |data[0]| && k.1 < |data|
  }

  /** Every heap node lies on the grid and is no better than what `visited` holds for it. */
  predicate OpenOk(data: seq<seq<nat>>, open: multiset<PathNode>, visited: map<Key, nat>)
  {
    forall n | n in open :: Fits(data, n) && KeyOf(n) in visited && visited[KeyOf(n)] <= n.score
  }

  predicate KeysOk(data: seq<seq<nat>>, visited: map<Key, nat>)
  {
    forall k | k in visited :: KeyFits(data, k)
  }

  /** Moving from n in direction d leads to a key whose recorded score is at most that move's. */
  predicate Settles(data: seq<seq<nat>>, visited: map<Key, nat>, n: PathNode, d: Dir)
    requires Grid(data) && Fits(data, n) && d in Offered(n, |data[0]|, |data|)
  {
    var m := GetNextNode(n, d, data);
    KeyOf(m) in visited && visited[KeyOf(m)] <= m.score
  }

  /** Every move out of key k, at its recorded score, has been taken into account. */
  predicate Relaxed(data: seq<seq<nat>>, visited: map<Key, nat>, k: Key)
    requires Grid(data) && k in visited && KeyFits(data, k)
  {
    forall d | d in Offered(NodeAt(k, visited[k]), |data[0]|, |data|) :: Settles(data, visited, NodeAt(k, visited[k]), d)
  }

  /** Apart from the keys in skip, every recorded key is either relaxed or still waiting in
      the heap at its recorded score. */
  predicate Covered(data: seq<seq<nat>>, open: multiset<PathNode>, visited: map<Key, nat>, skip: set<Key>)
    requires Grid(data) && KeysOk(data, visited)
  {
    forall k {:trigger Relaxed(data, visited, k)} | k in visited && k !in skip ::
      Relaxed(data, visited, k) || NodeAt(k, visited[k]) in open
  }

  /** A recorded key at the target is waiting in the heap at its recorded score (the search
      stops at the first target node it pops). */
  predicate TargetsOpen(data: seq<seq<nat>>, open: multiset<PathNode>, visited: map<Key, nat>)
  {
    forall k | k in visited && AtTarget(data, k) :: NodeAt(k, visited[k]) in open
  }

  /** Each recorded score is at least the cost of a legal route to that key. */
  ghost predicate Witnessed(data: seq<seq<nat>>, visited: map<Key, nat>, routes: map<Key, seq<Dir>>)
    requires Grid(data)
  {
    forall k | k in visited ::
      k in routes && Run(data, Start(), routes[k]).Some?
      && KeyOf(Run(data, Start(), routes[k]).value) == k && Run(data, Start(), routes[k]).value.score <= visited[k]
  }

  predicate StartOk(visited: map<Key, nat>)
  {
    KeyOf(Start()) in visited && visited[KeyOf(Start())] == 0
  }

  /** Recorded scores only go down and keys are never dropped. */
  predicate Improves(v1: map<Key, nat>, v2: map<Key, nat>)
  {
    forall k | k in v1 :: k in v2 && v2[k] <= v1[k]
  }

  /** The loop invariant of the search. */
  ghost predicate Inv(data: seq<seq<nat>>, open: multiset<PathNode>, visited: map<Key, nat>, routes: map<Key, seq<Dir>>)
  {
    Grid(data) && OpenOk(data, open, visited) && KeysOk(data, visited) && StartOk(visited)
    && Covered(data, open, visited, {}) && TargetsOpen(data, open, visited) && Witnessed(data, visited, routes)
  }

  lemma InvInit(data: seq<seq<nat>>, open: multiset<PathNode>, visited: map<Key, nat>, routes: map<Key, seq<Dir>>)
    requires Grid(data)
    requires open == multiset{Start()} && visited == map[KeyOf(Start()) := 0] && routes == map[KeyOf(Start()) := []]
    ensures Inv(data, open, visited, routes)
  {
    assert NodeAt(KeyOf(Start()), 0) == Start();
  }

  lemma SettlesKept(data: seq<seq<nat>>, v1: map<Key, nat>, v2: map<Key, nat>, n: PathNode, d: Dir)
    requires Grid(data) && Fits(data, n) && d in Offered(n, |data[0]|, |data|)
    requires Improves(v1, v2) && Settles(data, v1, n, d)
    ensures Settles(data, v2, n, d)
  {
  }

  lemma RelaxedKept(data: seq<seq<nat>>, v1: map<Key, nat>, v2: map<Key, nat>, k: Key)
    requires Grid(data) && k in v1 && KeyFits(data, k) && Improves(v1, v2) && v2[k] == v1[k]
    requires Relaxed(data, v1, k)
    ensures Relaxed(data, v2, k)
  {
    var n := NodeAt(k, v1[k]);
    forall d | d in Offered(n, |data[0]|, |data|)
      ensures Settles(data, v2, n, d)
    {
      SettlesKept(data, v1, v2, n, d);
    }
  }

  /** Every legal route either ends at a key whose recorded score is no worse, or has a heap
      node no worse than its cost. */
  lemma {:induction false} Frontier(data: seq<seq<nat>>, open: multiset<PathNode>, visited: map<Key, nat>,
                                    routes: map<Key, seq<Dir>>, w: seq<Dir>)
    requires Inv(data, open, visited, routes) && Run(data, Start(), w).Some?
    ensures var e := Run(data, Start(), w).value;
            (KeyOf(e) in visited && visited[KeyOf(e)] <= e.score) || exists m :: m in open && m.score <= e.score
    decreases |w|
  {
    if w != [] {
      var p := w[..|w| - 1];
      var d := w[|w| - 1];
      Frontier(data, open, visited, routes, p);
      var b := Run(data, Start(), p).value;
      var e := Run(data, Start(), w).value;
      assert Allowed(b, d, |data[0]|, |data|) && e == GetNextNode(b, d, data);
      var k := KeyOf(b);
      if k in visited && visited[k] <= b.score {
        var n := NodeAt(k, visited[k]);
        if n in open {
          assert n.score <= e.score;
        } else {
          SameKeyMoves(data, b, n, d);
          OfferedIff(n, |data[0]|, |data|);
          assert Relaxed(data, visited, k);
          assert Settles(data, visited, n, d);
        }
      }
    }
  }

  /** With the heap empty, no legal route reaches the target. */
  lemma NoRoute(data: seq<seq<nat>>, visited: map<Key, nat>, routes: map<Key, seq<Dir>>, w: seq<Dir>)
    requires Inv(data, multiset{}, visited, routes)
    ensures !Reaches(data, w)
  {
    if Reaches(data, w) {
      Frontier(data, multiset{}, visited, routes, w);
    }
  }

  /** A popped heap top at the target carries the least route cost. */
  lemma FoundIsMin(data: seq<seq<nat>>, open: multiset<PathNode>, visited: map<Key, nat>,
                   routes: map<Key, seq<Dir>>, node: PathNode)
    requires Inv(data, open, visited, routes) && node in open && IsTop(node, open)
    requires AtTarget(data, KeyOf(node))
    ensures MinCost(data, node.score)
  {
    forall w | Reaches(data, w)
      ensures node.score <= Run(data, Start(), w).value.score
    {
      Frontier(data, open, visited, routes, w);
      var e := Run(data, Start(), w).value;
      if KeyOf(e) in visited && visited[KeyOf(e)] <= e.score {
        assert NodeAt(KeyOf(e), visited[KeyOf(e)]) in open;
      }
    }
    var wk := routes[KeyOf(node)];
    assert Reaches(data, wk);
  }

  /** The state of the search while the moves out of node are tried, before move i. */
  ghost predicate InnerInv(data: seq<seq<nat>>, open: multiset<PathNode>, visited: map<Key, nat>,
                           routes: map<Key, seq<Dir>>, node: PathNode, dirs: seq<Dir>, i: nat)
  {
    Grid(data) && Fits(data, node) && !AtTarget(data, KeyOf(node))
    && dirs == Offered(node, |data[0]|, |data|) && i <= |dirs|
    && OpenOk(data, open, visited) && KeysOk(data, visited) && StartOk(visited)
    && TargetsOpen(data, open, visited) && Witnessed(data, visited, routes)
    && Covered(data, open, visited, {KeyOf(node)})
    && KeyOf(node) in visited && visited[KeyOf(node)] <= node.score
    && (Relaxed(data, visited, KeyOf(node)) || NodeAt(KeyOf(node), visited[KeyOf(node)]) in open
        || visited[KeyOf(node)] == node.score)
    && forall j | 0 <= j < i :: Settles(data, visited, node, dirs[j])
  }

  lemma InnerStart(data: seq<seq<nat>>, open: multiset<PathNode>, visited: map<Key, nat>,
                   routes: map<Key, seq<Dir>>, node: PathNode)
    requires Inv(data, open, visited, routes) && node in open && !AtTarget(data, KeyOf(node))
    ensures InnerInv(data, open - multiset{node}, visited, routes, node, Offered(node, |data[0]|, |data|), 0)
  {
    var rest := open - multiset{node};
    var s := KeyOf(node);
    forall k | k in visited && k !in {s}
      ensures Relaxed(data, visited, k) || NodeAt(k, visited[k]) in rest
    {
    }
    forall k | k in visited && AtTarget(data, k)
      ensures NodeAt(k, visited[k]) in rest
    {
    }
    assert NodeAt(s, node.score) == node;
  }

  /** A move that does not improve on the recorded score changes nothing. */
  lemma InnerSkip(data: seq<seq<nat>>, open: multiset<PathNode>, visited: map<Key, nat>,
                  routes: map<Key, seq<Dir>>, node: PathNode, dirs: seq<Dir>, i: nat)
    requires InnerInv(data, open, visited, routes, node, dirs, i) && i < |dirs|
    requires var next := GetNextNode(node, dirs[i], data); KeyOf(next) in visited && visited[KeyOf(next)] <= next.score
    ensures InnerInv(data, open, visited, routes, node, dirs, i + 1)
  {
  }

  /** The key a move leads to differs from the key it leaves. */
  lemma MoveChangesKey(data: seq<seq<nat>>, node: PathNode, d: Dir)
    requires Grid(data) && Fits(data, node) && d in Offered(node, |data[0]|, |data|)
    ensures KeyOf(GetNextNode(node, d, data)) != KeyOf(node)
  {
    assert StaysIn(node, d, |data[0]|, |data|);
    assert DX(d) != 0 || DY(d) != 0;
  }

  /** The route recorded for the node's key, extended by d, reaches the new key no worse
      than the node's move does. */
  lemma PushRoute(data: seq<seq<nat>>, visited: map<Key, nat>, routes: map<Key, seq<Dir>>,
                  node: PathNode, d: Dir)
    requires Grid(data) && Fits(data, node) && d in Offered(node, |data[0]|, |data|)
    requires Witnessed(data, visited, routes) && KeyOf(node) in visited && visited[KeyOf(node)] <= node.score
    ensures var next := GetNextNode(node, d, data);
            Witnessed(data, visited[KeyOf(next) := next.score], routes[KeyOf(next) := routes[KeyOf(node)] + [d]])
  {
    var next := GetNextNode(node, d, data);
    var ws := routes[KeyOf(node)];
    var b := Run(data, Start(), ws).value;
    OfferedIff(node, |data[0]|, |data|);
    SameKeyMoves(data, node, b, d);
    assert ws + [d] != [] && (ws + [d])[..|ws + [d]| - 1] == ws;
    assert Run(data, Start(), ws + [d]) == Some(GetNextNode(b, d, data));
  }

  /** Lowering or adding one key's score keeps every other key relaxed or waiting, and the
      new key waits in the heap. */
  lemma PushCovered(data: seq<seq<nat>>, open: multiset<PathNode>, visited: map<Key, nat>,
                    s: Key, next: PathNode)
    requires Grid(data) && KeysOk(data, visited) && Fits(data, next) && Covered(data, open, visited, {s})
    requires KeyOf(next) !in visited || visited[KeyOf(next)] > next.score
    requires s in visited && s != KeyOf(next)
    ensures KeysOk(data, visited[KeyOf(next) := next.score])
    ensures Covered(data, open + multiset{next}, visited[KeyOf(next) := next.score], {s})
    ensures Relaxed(data, visited, s) ==> Relaxed(data, visited[KeyOf(next) := next.score], s)
  {
    var key := KeyOf(next);
    var open' := open + multiset{next};
    var visited' := visited[key := next.score];
    assert Improves(visited, visited');
    assert NodeAt(key, next.score) == next;
    forall k | k in visited' && k !in {s}
      ensures Relaxed(data, visited', k) || NodeAt(k, visited'[k]) in open'
    {
      if k != key && Relaxed(data, visited, k) {
        RelaxedKept(data, visited, visited', k);
      }
    }
    if Relaxed(data, visited, s) {
      RelaxedKept(data, visited, visited', s);
    }
  }

  /** Pushing next with a score better than its key's keeps the heap consistent with
      `visited`, the start at 0 and every target key waiting. */
  lemma PushOpen(data: seq<seq<nat>>, open: multiset<PathNode>, visited: map<Key, nat>, next: PathNode)
    requires Grid(data) && Fits(data, next) && OpenOk(data, open, visited) && StartOk(visited)
    requires TargetsOpen(data, open, visited)
    requires KeyOf(next) !in visited || visited[KeyOf(next)] > next.score
    ensures OpenOk(data, open + multiset{next}, visited[KeyOf(next) := next.score])
    ensures StartOk(visited[KeyOf(next) := next.score])
    ensures TargetsOpen(data, open + multiset{next}, visited[KeyOf(next) := next.score])
  {
    assert NodeAt(KeyOf(next), next.score) == next;
  }

  /** The moves already tried stay settled, and so does move i once made. */
  lemma PushProgress(data: seq<seq<nat>>, visited: map<Key, nat>, node: PathNode, dirs: seq<Dir>, i: nat)
    requires Grid(data) && Fits(data, node) && dirs == Offered(node, |data[0]|, |data|) && i < |dirs|
    requires forall j | 0 <= j < i :: Settles(data, visited, node, dirs[j])
    requires var next := GetNextNode(node, dirs[i], data); KeyOf(next) !in visited || visited[KeyOf(next)] > next.score
    ensures var next := GetNextNode(node, dirs[i], data);
            forall j | 0 <= j < i + 1 :: Settles(data, visited[KeyOf(next) := next.score], node, dirs[j])
  {
    var next := GetNextNode(node, dirs[i], data);
    var visited' := visited[KeyOf(next) := next.score];
    assert Improves(visited, visited');
    forall j | 0 <= j < i + 1
      ensures Settles(data, visited', node, dirs[j])
    {
      if j < i {
        SettlesKept(data, visited, visited', node, dirs[j]);
      }
    }
  }

  /** The move to a key first seen, or seen only at a worse score, records it and pushes it. */
  lemma InnerPush(data: seq<seq<nat>>, open: multiset<PathNode>, visited: map<Key, nat>,
                  routes: map<Key, seq<Dir>>, node: PathNode, dirs: seq<Dir>, i: nat)
    requires InnerInv(data, open, visited, routes, node, dirs, i) && i < |dirs|
    requires var next := GetNextNode(node, dirs[i], data); KeyOf(next) !in visited || visited[KeyOf(next)] > next.score
    ensures var next := GetNextNode(node, dirs[i], data);
            InnerInv(data, open + multiset{next}, visited[KeyOf(next) := next.score],
                     routes[KeyOf(next) := routes[KeyOf(node)] + [dirs[i]]], node, dirs, i + 1)
  {
    var d := dirs[i];
    var next := GetNextNode(node, d, data);
    var s := KeyOf(node);
    MoveChangesKey(data, node, d);
    PushRoute(data, visited, routes, node, d);
    PushCovered(data, open, visited, s, next);
    PushOpen(data, open, visited, next);
    PushProgress(data, visited, node, dirs, i);
  }

  /** Once every move out of node is tried, the search invariant holds again. */
  lemma InnerEnd(data: seq<seq<nat>>, open: multiset<PathNode>, visited: map<Key, nat>,
                 routes: map<Key, seq<Dir>>, node: PathNode, dirs: seq<Dir>)
    requires InnerInv(data, open, visited, routes, node, dirs, |dirs|)
    ensures Inv(data, open, visited, routes)
  {
    var s := KeyOf(node);
    if visited[s] == node.score && NodeAt(s, visited[s]) !in open {
      assert NodeAt(s, visited[s]) == node;
      forall d | d in Offered(node, |data[0]|, |data|)
        ensures Settles(data, visited, node, d)
      {
        var j :| 0 <= j < |dirs| && dirs[j] == d;
      }
      assert Relaxed(data, visited, s);
    }
  }

  /** `pathfind`, with the heap as a multiset popped at a top node. It runs for at most fuel
      rounds; outOfFuel says that bound was hit. When it stops it returns the least heat loss
      of a legal route, and it finds no answer only when no legal route exists (where the
      source panics). */
  method Pathfind(data: seq<seq<nat>>, fuel: nat) returns (r: Option<nat>, outOfFuel: bool)
    requires Grid(data)
    ensures r.Some? ==> !outOfFuel && MinCost(data, r.value)
    ensures r.None? && !outOfFuel ==> forall w :: !Reaches(data, w)
  {
    var width := |data[0]|;
    var height := |data|;
    var start := Start();
    var open: multiset<PathNode> := multiset{start};
    var visited: map<Key, nat> := map[KeyOf(start) := 0];
    ghost var routes: map<Key, seq<Dir>> := map[KeyOf(start) := []];
    InvInit(data, open, visited, routes);
    var f := fuel;
    while f > 0
      invariant Inv(data, open, visited, routes)
      decreases f
    {
      if open == multiset{} {
        forall w
          ensures !Reaches(data, w)
        {
          NoRoute(data, visited, routes, w);
        }
        return None, false;
      }
      HeapHasTop(open);
      var node :| node in open && IsTop(node, open);
      if node.x == width - 1 && node.y == height - 1 {
        FoundIsMin(data, open, visited, routes, node);
        return Some(node.score), false;
      }
      InnerStart(data, open, visited, routes, node);
      open := open - multiset{node};
      var dirs := GetNextDir(node, width, height);
      for i := 0 to |dirs|
        invariant InnerInv(data, open, visited, routes, node, dirs, i)
      {
        var dir := dirs[i];
        var next := GetNextNode(node, dir, data);
        var key := KeyOf(next);
        if key !in visited || visited[key] > next.score {
          InnerPush(data, open, visited, routes, node, dirs, i);
          visited := visited[key := next.score];
          open := open + multiset{next};
          routes := routes[key := routes[KeyOf(node)] + [dir]];
        } else {
          InnerSkip(data, open, visited, routes, node, dirs, i);
        }
      }
      InnerEnd(data, open, visited, routes, node, dirs);
      f := f - 1;
    }
    return None, true;
  }

  /** `proc_1`: parse, insist nothing is left over, search. Rows shorter than the first are
      not modelled and give None. */
  method Proc1(input: seq<char>, fuel: nat) returns (r: Option<nat>, outOfFuel: bool)
    ensures r.Some? ==> Parse(input).Some? && Parse(input).value.1 == []
                        && Grid(Parse(input).value.0) && MinCost(Parse(input).value.0, r.value)
    ensures Parse(input).None? || Parse(input).value.1 != [] ==> r.None? && !outOfFuel
  {
    match Parse(input)
    case None => return None, false;
    case Some((data, rest)) =>
      if rest != [] || !Grid(data) {
        return None, false;
      }
      r, outOfFuel := Pathfind(data, fuel);
  }
}
