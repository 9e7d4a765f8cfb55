/** Day 2, game_parser.rs: the grammar of one game line,
      Game <id>: <count> <colour>, <count> <colour>; <count> <colour> ...
    with ", " between the cubes of a set and "; " between the sets. Parsers
    return the value and the unconsumed rest, or None where nom fails. */
module Day02GameParser {
  import opened Common
  import opened Day02Game

  datatype Cube = Cube(count: nat, color: CubeColor)

  function AddCube(s: GameSet, c: Cube): GameSet
  {
    match c.color
    case Red => s.(red := s.red + c.count)
    case Green => s.(green := s.green + c.count)
    case Blue => s.(blue := s.blue + c.count)
  }

  /** The set a list of cubes adds up to. */
  function CubeTotal(cubes: seq<Cube>): GameSet
  {
    if cubes == [] then GameSet(0, 0, 0) else AddCube(CubeTotal(cubes[..|cubes| - 1]), cubes[|cubes| - 1])
  }

  /** `cube_convert`: adds every cube's count to the field of its colour. */
  method CubeConvert(cubes: seq<Cube>) returns (ret: GameSet)
    ensures ret == CubeTotal(cubes)
  {
    ret := GameSet(0, 0, 0);
    var i := 0;
    while i < |cubes|
      invariant 0 <= i <= |cubes|
      invariant ret == CubeTotal(cubes[..i])
    {
      assert cubes[..i + 1][..i] == cubes[..i];
      var cube := cubes[i];
      match cube.color {
        case Red => ret := ret.(red := ret.red + cube.count);
        case Green => ret := ret.(green := ret.green + cube.count);
        case Blue => ret := ret.(blue := ret.blue + cube.count);
      }
      i := i + 1;
    }
    assert cubes[..i] == cubes;
  }

  /** How many cubes of colour c the list names in all. */
  function CountOf(cubes: seq<Cube>, c: CubeColor): nat
  {
    if cubes == [] then 0
    else (if cubes[0].color == c then cubes[0].count else 0) + CountOf(cubes[1..], c)
  }

  lemma {:induction false} CountOfAppend(a: seq<Cube>, b: seq<Cube>, c: CubeColor)
    ensures CountOf(a + b, c) == CountOf(a, c) + CountOf(b, c)
  {
    if a == [] {
      assert a + b == b;
    } else {
      assert (a + b)[1..] == a[1..] + b;
      CountOfAppend(a[1..], b, c);
    }
  }

  /** A repeated colour accumulates, and a colour never named counts 0. */
  lemma {:induction false} CubeTotalCounts(cubes: seq<Cube>)
    ensures CubeTotal(cubes) == GameSet(CountOf(cubes, Red), CountOf(cubes, Green), CountOf(cubes, Blue))
  {
    if cubes != [] {
      var init := cubes[..|cubes| - 1];
      var last := cubes[|cubes| - 1];
      CubeTotalCounts(init);
      assert cubes == init + [last];
      CountOfAppend(init, [last], Red);
      CountOfAppend(init, [last], Green);
      CountOfAppend(init, [last], Blue);
      assert [last][1..] == [];
    }
  }

  /** `cube_parser`: "<digits> <colour>". */
  function CubeParser(s: seq<char>): (r: Option<(Cube, seq<char>)>)
    ensures r.Some? ==> |r.value.1| < |s|
  {
    match ParseU32(s)
    case None => None
    case Some((n, r1)) =>
      match Space1(r1)
      case None => None
      case Some(r2) =>
        match Alpha1(r2)
        case None => None
        case Some((word, r3)) =>
          match ColorFromStr(word)
          case None => None
          case Some(c) => Some((Cube(n, c), r3))
  }

  /** `separated_list0(tag(", "), cube_parser)`: an empty list when the first cube fails. */
  function CubeList(s: seq<char>): (r: (seq<Cube>, seq<char>))
    ensures |r.1| <= |s|
  {
    match CubeParser(s)
    case None => ([], s)
    case Some((c, rest)) =>
      var tail := CubeListTail(rest);
      ([c] + tail.0, tail.1)
  }

  /** The loop of `separated_list0`: a separator and a cube, or stop before the separator. */
  function CubeListTail(s: seq<char>): (r: (seq<Cube>, seq<char>))
    ensures |r.1| <= |s|
    decreases |s|
  {
    match Tag(", ", s)
    case None => ([], s)
    case Some(r1) =>
      match CubeParser(r1)
      case None => ([], s)
      case Some((c, r2)) =>
        var tail := CubeListTail(r2);
        ([c] + tail.0, tail.1)
  }

  /** `game_set_parser`: a cube list, added up by `cube_convert`; it never fails. */
  function GameSetParser(s: seq<char>): (r: (GameSet, seq<char>))
    ensures |r.1| <= |s|
  {
    var (cubes, rest) := CubeList(s);
    (CubeTotal(cubes), rest)
  }

  /** `game_id_parser`: "Game <digits>: ". */
  function GameIdParser(s: seq<char>): Option<(nat, seq<char>)>
  {
    match Tag("Game ", s)
    case None => None
    case Some(r1) =>
      match ParseU32(r1)
      case None => None
      case Some((id, r2)) =>
        match Tag(": ", r2)
        case None => None
        case Some(r3) => Some((id, r3))
  }

  /** `separated_list0(tag("; "), game_set_parser)`: since a set never fails, there is always at least one. */
  function SetList(s: seq<char>): (r: (seq<GameSet>, seq<char>))
    ensures |r.0| >= 1
  {
    var (first, rest) := GameSetParser(s);
    var tail := SetListTail(rest);
    ([first] + tail.0, tail.1)
  }

  function SetListTail(s: seq<char>): (r: (seq<GameSet>, seq<char>))
    decreases |s|
  {
    match Tag("; ", s)
    case None => ([], s)
    case Some(r1) =>
      var (g, r2) := GameSetParser(r1);
      var tail := SetListTail(r2);
      ([g] + tail.0, tail.1)
  }

  /** `game_line`: the id and the sets, with the unconsumed rest. */
  function GameLine(s: seq<char>): Option<((nat, seq<GameSet>), seq<char>)>
  {
    match GameIdParser(s)
    case None => None
    case Some((id, r1)) =>
      var (sets, r2) := SetList(r1);
      Some(((id, sets), r2))
  }

  /** `parse_game`: whatever follows the last set is ignored; None is the error the caller unwraps. */
  function ParseGame(s: seq<char>): (r: Option<Game>)
    ensures r.Some? ==> |r.value.sets| >= 1
    ensures r.Some? <==> GameIdParser(s).Some?
  {
    match GameLine(s)
    case None => None
    case Some(((id, sets), _)) => Some(Game(id, sets))
  }

  // The text of a game, as the puzzle input writes it.

  function ShowCube(c: Cube): seq<char>
  {
    ShowNat(c.count) + " " + ColorName(c.color)
  }

  function ShowCubesTail(cs: seq<Cube>): (t: seq<char>)
    ensures cs != [] ==> |t| > 0 && t[0] == ','
  {
    if cs == [] then [] else ", " + ShowCube(cs[0]) + ShowCubesTail(cs[1..])
  }

  function ShowCubes(cs: seq<Cube>): (t: seq<char>)
    ensures cs != [] ==> |t| > 0 && IsDigit(t[0])
  {
    if cs == [] then [] else ShowCube(cs[0]) + ShowCubesTail(cs[1..])
  }

  function ShowSetsTail(sets: seq<seq<Cube>>): (t: seq<char>)
    ensures sets != [] ==> |t| > 0 && t[0] == ';'
  {
    if sets == [] then [] else "; " + ShowCubes(sets[0]) + ShowSetsTail(sets[1..])
  }

  function ShowGame(id: nat, sets: seq<seq<Cube>>): seq<char>
    requires sets != []
  {
    "Game " + ShowNat(id) + ": " + ShowCubes(sets[0]) + ShowSetsTail(sets[1..])
  }

  function Totals(sets: seq<seq<Cube>>): (r: seq<GameSet>)
    ensures |r| == |sets|
  {
    if sets == [] then [] else [CubeTotal(sets[0])] + Totals(sets[1..])
  }

  predicate Small(cs: seq<Cube>)
  {
    forall i | 0 <= i < |cs| :: cs[i].count < U32_LIMIT
  }

  /** What may follow a game line without being read as part of it. */
  predicate Terminator(rest: seq<char>)
  {
    rest == [] || (rest[0] != ',' && rest[0] != ';' && !IsAlpha(rest[0]) && !IsDigit(rest[0]))
  }

  lemma CubeParserOfShow(c: Cube, rest: seq<char>)
    requires c.count < U32_LIMIT
    requires rest == [] || !IsAlpha(rest[0])
    ensures CubeParser(ShowCube(c) + rest) == Some((c, rest))
  {
    var name := ColorName(c.color);
    var x := [' '] + (name + rest);
    assert ShowCube(c) + rest == ShowNat(c.count) + x;
    ParseU32OfShowNat(c.count, x);
    ColorNameReadsBack(c.color);
    assert !IsSpace(name[0]);
    Space1OfBlank(name + rest);
    Alpha1OfConcat(name, rest);
    assert Space1(x) == Some(name + rest);
    assert Alpha1(name + rest) == Some((name, rest));
  }

  /** One round of the cube loop: a separator, a cube, and the rest of the list. */
  lemma CubeListTailCons(c: Cube, tail: seq<Cube>, rest: seq<char>, after: seq<char>, mid: seq<char>)
    requires CubeParser(mid) == Some((c, after))
    requires CubeListTail(after) == (tail, rest)
    ensures CubeListTail(", " + mid) == ([c] + tail, rest)
  {
    TagOfConcat(", ", mid);
  }

  lemma ShowCubesTailCons(cs: seq<Cube>, rest: seq<char>)
    requires cs != []
    ensures ShowCubesTail(cs) + rest == ", " + (ShowCube(cs[0]) + (ShowCubesTail(cs[1..]) + rest))
  {
  }

  /** The first cube of a printed list reads back, whatever list follows it. */
  lemma FirstCubeOfShow(cs: seq<Cube>, rest: seq<char>)
    requires cs != [] && Small(cs)
    requires rest == [] || (rest[0] != ',' && !IsAlpha(rest[0]))
    ensures CubeParser(ShowCube(cs[0]) + (ShowCubesTail(cs[1..]) + rest)) == Some((cs[0], ShowCubesTail(cs[1..]) + rest))
  {
    CubeParserOfShow(cs[0], ShowCubesTail(cs[1..]) + rest);
  }

  lemma CubeListTailOfShowStep(cs: seq<Cube>, rest: seq<char>)
    requires cs != [] && Small(cs)
    requires rest == [] || (rest[0] != ',' && !IsAlpha(rest[0]))
    requires CubeListTail(ShowCubesTail(cs[1..]) + rest) == (cs[1..], rest)
    ensures CubeListTail(ShowCubesTail(cs) + rest) == ([cs[0]] + cs[1..], rest)
  {
    var after := ShowCubesTail(cs[1..]) + rest;
    FirstCubeOfShow(cs, rest);
    ShowCubesTailCons(cs, rest);
    CubeListTailCons(cs[0], cs[1..], rest, after, ShowCube(cs[0]) + after);
  }

  lemma {:induction false} CubeListTailOfShow(cs: seq<Cube>, rest: seq<char>)
    requires Small(cs)
    requires rest == [] || (rest[0] != ',' && !IsAlpha(rest[0]))
    ensures CubeListTail(ShowCubesTail(cs) + rest) == (cs, rest)
  {
    if cs == [] {
      assert ShowCubesTail(cs) + rest == rest;
    } else {
      CubeListTailOfShow(cs[1..], rest);
      CubeListTailOfShowStep(cs, rest);
      HeadTail(cs);
    }
  }

  lemma CubeListCons(c: Cube, tail: seq<Cube>, rest: seq<char>, after: seq<char>, mid: seq<char>)
    requires CubeParser(mid) == Some((c, after))
    requires CubeListTail(after) == (tail, rest)
    ensures CubeList(mid) == ([c] + tail, rest)
  {
  }

  lemma ShowCubesCons(cs: seq<Cube>, rest: seq<char>)
    requires cs != []
    ensures ShowCubes(cs) + rest == ShowCube(cs[0]) + (ShowCubesTail(cs[1..]) + rest)
  {
  }

  /** Text that does not start with a digit holds no cube list. */
  lemma CubeListOfNonDigit(rest: seq<char>)
    requires rest == [] || !IsDigit(rest[0])
    ensures CubeList(rest) == ([], rest)
  {
    assert ParseU32(rest) == None;
  }

  lemma CubeListOfShow(cs: seq<Cube>, rest: seq<char>)
    requires Small(cs)
    requires rest == [] || (rest[0] != ',' && !IsAlpha(rest[0]) && !IsDigit(rest[0]))
    ensures CubeList(ShowCubes(cs) + rest) == (cs, rest)
  {
    if cs == [] {
      assert ShowCubes(cs) + rest == rest;
      CubeListOfNonDigit(rest);
    } else {
      CubeListOfShowCons(cs, rest);
    }
  }

  lemma CubeListOfShowCons(cs: seq<Cube>, rest: seq<char>)
    requires cs != [] && Small(cs)
    requires rest == [] || (rest[0] != ',' && !IsAlpha(rest[0]) && !IsDigit(rest[0]))
    ensures CubeList(ShowCubes(cs) + rest) == (cs, rest)
  {
    var after := ShowCubesTail(cs[1..]) + rest;
    var mid := ShowCube(cs[0]) + after;
    FirstCubeOfShow(cs, rest);
    assert Small(cs[1..]) by {
      forall i | 0 <= i < |cs[1..]| ensures cs[1..][i].count < U32_LIMIT {
        assert cs[1..][i] == cs[i + 1];
      }
    }
    CubeListTailOfShow(cs[1..], rest);
    CubeListCons(cs[0], cs[1..], rest, after, mid);
    ShowCubesCons(cs, rest);
    assert ShowCubes(cs) + rest == mid;
    HeadTail(cs);
  }

  /** One round of the set loop: a separator, a set, and the rest of the list. */
  lemma SetListTailCons(g: GameSet, tail: seq<GameSet>, rest: seq<char>, after: seq<char>, mid: seq<char>)
    requires GameSetParser(mid) == (g, after)
    requires SetListTail(after) == (tail, rest)
    ensures SetListTail("; " + mid) == ([g] + tail, rest)
  {
    TagOfConcat("; ", mid);
  }

  lemma ShowSetsTailCons(sets: seq<seq<Cube>>, rest: seq<char>)
    requires sets != []
    ensures ShowSetsTail(sets) + rest == "; " + (ShowCubes(sets[0]) + (ShowSetsTail(sets[1..]) + rest))
  {
  }

  /** The first set of a printed list reads back, whatever sets follow it. */
  lemma FirstSetOfShow(sets: seq<seq<Cube>>, rest: seq<char>)
    requires sets != [] && forall i | 0 <= i < |sets| :: Small(sets[i])
    requires Terminator(rest)
    ensures GameSetParser(ShowCubes(sets[0]) + (ShowSetsTail(sets[1..]) + rest))
      == (CubeTotal(sets[0]), ShowSetsTail(sets[1..]) + rest)
  {
    CubeListOfShow(sets[0], ShowSetsTail(sets[1..]) + rest);
  }

  lemma SetListTailOfShowStep(sets: seq<seq<Cube>>, rest: seq<char>)
    requires sets != [] && forall i | 0 <= i < |sets| :: Small(sets[i])
    requires Terminator(rest)
    requires SetListTail(ShowSetsTail(sets[1..]) + rest) == (Totals(sets[1..]), rest)
    ensures SetListTail(ShowSetsTail(sets) + rest) == ([CubeTotal(sets[0])] + Totals(sets[1..]), rest)
  {
    var after := ShowSetsTail(sets[1..]) + rest;
    FirstSetOfShow(sets, rest);
    ShowSetsTailCons(sets, rest);
    SetListTailCons(CubeTotal(sets[0]), Totals(sets[1..]), rest, after, ShowCubes(sets[0]) + after);
  }

  lemma {:induction false} SetListTailOfShow(sets: seq<seq<Cube>>, rest: seq<char>)
    requires forall i | 0 <= i < |sets| :: Small(sets[i])
    requires Terminator(rest)
    ensures SetListTail(ShowSetsTail(sets) + rest) == (Totals(sets), rest)
  {
    if sets == [] {
      assert ShowSetsTail(sets) + rest == rest;
    } else {
      SetListTailOfShow(sets[1..], rest);
      SetListTailOfShowStep(sets, rest);
    }
  }

  lemma GameIdOfShow(id: nat, body: seq<char>)
    requires id < U32_LIMIT
    ensures GameIdParser("Game " + (ShowNat(id) + (": " + body))) == Some((id, body))
  {
    TagOfConcat("Game ", ShowNat(id) + (": " + body));
    ParseU32OfShowNat(id, ": " + body);
    TagOfConcat(": ", body);
  }

  lemma SetListCons(g: GameSet, tail: seq<GameSet>, rest: seq<char>, after: seq<char>, mid: seq<char>)
    requires GameSetParser(mid) == (g, after)
    requires SetListTail(after) == (tail, rest)
    ensures SetList(mid) == ([g] + tail, rest)
  {
  }

  lemma SetListOfShow(sets: seq<seq<Cube>>, rest: seq<char>)
    requires sets != [] && forall i | 0 <= i < |sets| :: Small(sets[i])
    requires Terminator(rest)
    ensures SetList(ShowCubes(sets[0]) + (ShowSetsTail(sets[1..]) + rest)) == (Totals(sets), rest)
  {
    var after := ShowSetsTail(sets[1..]) + rest;
    FirstSetOfShow(sets, rest);
    SetListTailOfShow(sets[1..], rest);
    SetListCons(CubeTotal(sets[0]), Totals(sets[1..]), rest, after, ShowCubes(sets[0]) + after);
  }

  lemma ParseGameCons(s: seq<char>, id: nat, body: seq<char>, gs: seq<GameSet>, rest: seq<char>)
    requires GameIdParser(s) == Some((id, body))
    requires SetList(body) == (gs, rest)
    ensures ParseGame(s) == Some(Game(id, gs))
  {
  }

  lemma ShowGameCons(id: nat, sets: seq<seq<Cube>>, rest: seq<char>)
    requires sets != []
    ensures ShowGame(id, sets) + rest
      == "Game " + (ShowNat(id) + (": " + (ShowCubes(sets[0]) + (ShowSetsTail(sets[1..]) + rest))))
  {
  }

  /** Round trip: the printed form of a game parses back to its id and its added-up sets. */
  lemma ParseGameOfShow(id: nat, sets: seq<seq<Cube>>, rest: seq<char>)
    requires id < U32_LIMIT && sets != []
    requires forall i | 0 <= i < |sets| :: Small(sets[i])
    requires Terminator(rest)
    ensures ParseGame(ShowGame(id, sets) + rest) == Some(Game(id, Totals(sets)))
  {
    var body := ShowCubes(sets[0]) + (ShowSetsTail(sets[1..]) + rest);
    ShowGameCons(id, sets, rest);
    GameIdOfShow(id, body);
    SetListOfShow(sets, rest);
    ParseGameCons(ShowGame(id, sets) + rest, id, body, Totals(sets), rest);
  }

  /** The cubes of the game of `line_test`, set by set: "3 blue, 4 red", "1 red, 2 green, 6 blue", "2 green". */
  function ExampleCubes(): seq<seq<Cube>>
  {
    [[Cube(3, Blue), Cube(4, Red)], [Cube(1, Red), Cube(2, Green), Cube(6, Blue)], [Cube(2, Green)]]
  }

  lemma ExampleTotals()
    ensures Totals(ExampleCubes()) == [GameSet(4, 0, 3), GameSet(1, 2, 6), GameSet(0, 2, 0)]
  {
    var sets := ExampleCubes();
    assert sets[0][..1] == [Cube(3, Blue)] && sets[0][..1][..0] == [];
    assert CubeTotal(sets[0]) == GameSet(4, 0, 3);
    assert sets[1][..2] == [Cube(1, Red), Cube(2, Green)] && sets[1][..2][..1] == [Cube(1, Red)] && sets[1][..2][..1][..0] == [];
    assert CubeTotal(sets[1]) == GameSet(1, 2, 6);
    assert sets[2][..0] == [];
    assert CubeTotal(sets[2]) == GameSet(0, 2, 0);
    assert sets[1..][1..][1..] == [];
  }

  /** `line_test`: the test line, printed from its cubes, parses to game 1 with the sets (4, 0, 3),
      (1, 2, 6) and (0, 2, 0). */
  lemma ExampleGame()
    ensures ParseGame(ShowGame(1, ExampleCubes())) == Some(Game(1, [GameSet(4, 0, 3), GameSet(1, 2, 6), GameSet(0, 2, 0)]))
  {
    var sets := ExampleCubes();
    ExampleTotals();
    ParseGameOfShow(1, sets, []);
    assert ShowGame(1, sets) + [] == ShowGame(1, sets);
  }

  /** `line_test`: the parsed game has id 1, maximum (4, 2, 6), is within that limit and has power 48. */
  lemma ExampleGameFacts()
    ensures var r := ParseGame(ShowGame(1, ExampleCubes()));
      && r.Some? && r.value.id == 1
      && MaxOf(r.value.sets) == GameSet(4, 2, 6) && Check(r.value, GameSet(4, 2, 6)) && Power(r.value) == 48
  {
    ExampleGame();
    ExampleSetFacts();
  }

  lemma ExampleSetFacts()
    ensures var g := Game(1, [GameSet(4, 0, 3), GameSet(1, 2, 6), GameSet(0, 2, 0)]);
      MaxOf(g.sets) == GameSet(4, 2, 6) && Check(g, GameSet(4, 2, 6)) && Power(g) == 48
  {
    var sets := [GameSet(4, 0, 3), GameSet(1, 2, 6), GameSet(0, 2, 0)];
    assert sets[..2][..1][..0] == [];
    assert sets[..2][..1] == [GameSet(4, 0, 3)];
    assert sets[..2] == [GameSet(4, 0, 3), GameSet(1, 2, 6)];
    assert MaxOf(sets[..1]) == GameSet(4, 0, 3);
    assert MaxOf(sets[..2]) == GameSet(4, 2, 6);
    assert MaxOf(sets) == GameSet(4, 2, 6);
  }
}
