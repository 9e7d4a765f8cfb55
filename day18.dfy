/** Day 18: a dig plan of moves outlines a lagoon; its size is the polygon's area from the
    trapezoid (shoelace) sum plus a boundary term. Part two reads each move from the colour
    code instead. */
module Day18 {
  import opened Common

  // ---------------------------------------------------------------------------------------
  // Parsing: `R 6 (#70c710)` then a newline, `many1` of them.

  /** A plan line: direction letter, count, the colour's five-digit distance and its last
      digit. */
  datatype DataLine = DataLine(dir: char, count: nat, hexDistance: nat, hexDir: nat)

  predicate IsDirChar(c: char) { c == 'R' || c == 'L' || c == 'U' || c == 'D' }

  function HexDigitValue(c: char): (d: nat)
    requires IsHexDigit(c)
    ensures d < 16
  {
    if IsDigit(c) then DigitValue(c)
    else if 'a' <= c <= 'f' then c as int - 'a' as int + 10
    else c as int - 'A' as int + 10
  }

  function HexChar(d: nat): (c: char)
    requires d < 16
    ensures IsHexDigit(c) && HexDigitValue(c) == d
  {
    if d < 10 then DigitChar(d) else ('a' as int + d - 10) as char
  }

  predicate AllHex(s: seq<char>) { forall i | 0 <= i < |s| :: IsHexDigit(s[i]) }

  /** `from_hex`: the value of hexadecimal digits, most significant first. */
  function HexValue(ds: seq<char>): (v: nat)
    requires AllHex(ds)
  {
    if ds == [] then 0 else HexValue(ds[..|ds| - 1]) * 16 + HexDigitValue(ds[|ds| - 1])
  }

  const HEX5_LIMIT: nat := 0x10_0000

  /** `hex_primary`: exactly five hexadecimal digits (`take_while_m_n(5, 5, …)`). */
  function HexPrimary(s: seq<char>): (r: Option<(nat, seq<char>)>)
    ensures r.Some? <==> |s| >= 5 && AllHex(s[..5])
    ensures r.Some? ==> r.value.0 < HEX5_LIMIT && r.value.1 == s[5..]
  {
    if |s| >= 5 && AllHex(s[..5]) then
      HexValueBound(s[..5]);
      assert Pow16(5) == HEX5_LIMIT;
      Some((HexValue(s[..5]), s[5..]))
    else None
  }

  lemma {:induction false} HexValueBound(ds: seq<char>)
    requires AllHex(ds)
    ensures HexValue(ds) < Pow16(|ds|)
  {
    if ds != [] {
      HexValueBound(ds[..|ds| - 1]);
    }
  }

  /** The direction digit: one hexadecimal digit (`take_while_m_n(1, 1, …)`). */
  function HexDir(s: seq<char>): (r: Option<(nat, seq<char>)>)
    ensures r.Some? <==> s != [] && IsHexDigit(s[0])
    ensures r.Some? ==> r.value.0 < 16 && r.value.1 == s[1..]
  {
    if s != [] && IsHexDigit(s[0]) then Some((HexDigitValue(s[0]), s[1..])) else None
  }

  /** `parse_line`. */
  function ParseLine(s: seq<char>): (r: Option<(DataLine, seq<char>)>)
    ensures r.Some? ==> |r.value.1| < |s| && IsDirChar(r.value.0.dir)
    ensures r.Some? ==> r.value.0.count < U32_LIMIT && r.value.0.hexDistance < HEX5_LIMIT && r.value.0.hexDir < 16
  {
    if s == [] || !IsDirChar(s[0]) then None
    else
      match Space1(s[1..])
      case None => None
      case Some(a) =>
        match ParseU32(a)
        case None => None
        case Some((count, b)) =>
          match Tag(" (#", b)
          case None => None
          case Some(c) =>
            match HexPrimary(c)
            case None => None
            case Some((distance, d)) =>
              match HexDir(d)
              case None => None
              case Some((hexDir, e)) =>
                match Tag(")\n", e)
                case None => None
                case Some(rest) => Some((DataLine(s[0], count, distance, hexDir), rest))
  }

  /** The lines as long as they parse, appended to acc, and what follows them. */
  function ParseLines(s: seq<char>, acc: seq<DataLine>): (r: (seq<DataLine>, seq<char>))
    ensures |r.1| <= |s| && |r.0| >= |acc|
    ensures |r.0| == |acc| <==> ParseLine(s).None?
    decreases |s|
  {
    match ParseLine(s)
    case None => (acc, s)
    case Some((l, rest)) => ParseLines(rest, acc + [l])
  }

  /** `parse`: `many1(parse_line)`; what follows is returned unread. */
  function Parse(s: seq<char>): (r: Option<(seq<DataLine>, seq<char>)>)
    ensures r.Some? ==> r.value.0 != []
  {
    var lines := ParseLines(s, []);
    if lines.0 == [] then None else Some(lines)
  }

  /** k hexadecimal digits of n, most significant first. */
  function HexDigits(n: nat, k: nat): (s: seq<char>)
    ensures |s| == k && AllHex(s)
  {
    if k == 0 then [] else HexDigits(n / 16, k - 1) + [HexChar(n % 16)]
  }

  function Pow16(k: nat): nat { if k == 0 then 1 else 16 * Pow16(k - 1) }

  lemma {:induction false} HexValueOfDigits(n: nat, k: nat)
    requires n < Pow16(k)
    ensures HexValue(HexDigits(n, k)) == n
  {
    if k > 0 {
      var s := HexDigits(n, k);
      assert s[..|s| - 1] == HexDigits(n / 16, k - 1);
      HexValueOfDigits(n / 16, k - 1);
    }
  }

  predicate WellFormed(l: DataLine)
  {
    IsDirChar(l.dir) && l.count < U32_LIMIT && l.hexDistance < HEX5_LIMIT && l.hexDir < 16
  }

  /** A plan line as written in the input, followed by rest. */
  function ShowLineThen(l: DataLine, rest: seq<char>): seq<char>
    requires WellFormed(l)
  {
    [l.dir] + (" " + (ShowNat(l.count) + (" (#" + (HexDigits(l.hexDistance, 5) + ([HexChar(l.hexDir)] + (")\n" + rest))))))
  }

  lemma HexPrimaryOfShow(n: nat, rest: seq<char>)
    requires n < HEX5_LIMIT
    ensures HexPrimary(HexDigits(n, 5) + rest) == Some((n, rest))
  {
    var s := HexDigits(n, 5) + rest;
    assert s[..5] == HexDigits(n, 5) && s[5..] == rest;
    assert Pow16(5) == HEX5_LIMIT;
    HexValueOfDigits(n, 5);
  }

  /** A printed plan line parses back to itself. */
  lemma ParseLineOfShow(l: DataLine, rest: seq<char>)
    requires WellFormed(l)
    ensures ParseLine(ShowLineThen(l, rest)) == Some((l, rest))
  {
    var e := ")\n" + rest;
    var d := [HexChar(l.hexDir)] + e;
    var c := HexDigits(l.hexDistance, 5) + d;
    var b := " (#" + c;
    var a := ShowNat(l.count) + b;
    var s := ShowLineThen(l, rest);
    assert s == [l.dir] + (" " + a) && s[1..] == " " + a;
    Space1OfBlank(a);
    ParseU32OfShowNat(l.count, b);
    TagOfConcat(" (#", c);
    HexPrimaryOfShow(l.hexDistance, d);
    assert HexDir(d) == Some((l.hexDir, e));
    TagOfConcat(")\n", rest);
  }

  function ShowLinesThen(ls: seq<DataLine>, rest: seq<char>): seq<char>
    requires forall i | 0 <= i < |ls| :: WellFormed(ls[i])
  {
    if ls == [] then rest else ShowLineThen(ls[0], ShowLinesThen(ls[1..], rest))
  }

  lemma {:induction false} ParseLinesOfShow(ls: seq<DataLine>, rest: seq<char>, acc: seq<DataLine>)
    requires forall i | 0 <= i < |ls| :: WellFormed(ls[i])
    requires ParseLine(rest).None?
    ensures ParseLines(ShowLinesThen(ls, rest), acc) == (acc + ls, rest)
  {
    if ls == [] {
      assert acc + ls == acc;
    } else {
      assert acc + ls == (acc + [ls[0]]) + ls[1..];
      var tail := ShowLinesThen(ls[1..], rest);
      ParseLineOfShow(ls[0], tail);
      ParseLinesOfShow(ls[1..], rest, acc + [ls[0]]);
    }
  }

  /** A printed non-empty plan parses back whole, with what follows it left unread. */
  lemma ParseOfShow(ls: seq<DataLine>, rest: seq<char>)
    requires ls != [] && forall i | 0 <= i < |ls| :: WellFormed(ls[i])
    requires ParseLine(rest).None?
    ensures Parse(ShowLinesThen(ls, rest)) == Some((ls, rest))
  {
    ParseLinesOfShow(ls, rest, []);
    assert [] + ls == ls;
  }

  // ---------------------------------------------------------------------------------------
  // From moves to vertices. x grows to the right and y upwards.

  datatype Part = One | Two

  /** How far a line moves: the count, or in part two the colour's distance. */
  function Inc(part: Part, l: DataLine): nat
  {
    if part == One then l.count else l.hexDistance
  }

  /** The step of one line; None where the source reaches `unreachable!()`. */
  function Step(part: Part, l: DataLine): (r: Option<(int, int)>)
    ensures r.Some? ==> (r.value.0 == 0 || r.value.1 == 0) && Abs(r.value.0) + Abs(r.value.1) == Inc(part, l)
  {
    var inc: int := Inc(part, l);
    match part
    case One =>
      if l.dir == 'R' then Some((inc, 0))
      else if l.dir == 'L' then Some((-inc, 0))
      else if l.dir == 'U' then Some((0, inc))
      else if l.dir == 'D' then Some((0, -inc))
      else None
    case Two =>
      if l.hexDir == 0 then Some((inc, 0))
      else if l.hexDir == 2 then Some((-inc, 0))
      else if l.hexDir == 3 then Some((0, inc))
      else if l.hexDir == 1 then Some((0, -inc))
      else None
  }

  function Abs(n: int): nat { if n < 0 then -n else n }

  /** Every line's step, or None when one of them has none. */
  function Moves(part: Part, data: seq<DataLine>): (r: Option<seq<(int, int)>>)
    ensures r.Some? ==> |r.value| == |data|
  {
    if data == [] then Some([])
    else
      match Moves(part, data[..|data| - 1])
      case None => None
      case Some(ms) =>
        match Step(part, data[|data| - 1])
        case None => None
        case Some(m) => Some(ms + [m])
  }

  /** The moves exist exactly when every line has a step, and then they are those steps. */
  lemma {:induction false} MovesMeaning(part: Part, data: seq<DataLine>)
    ensures Moves(part, data).None? <==> exists i :: 0 <= i < |data| && Step(part, data[i]).None?
    ensures Moves(part, data).Some? ==> forall i | 0 <= i < |data| :: Step(part, data[i]) == Some(Moves(part, data).value[i])
  {
    if data != [] {
      var p := data[..|data| - 1];
      MovesMeaning(part, p);
      assert forall i | 0 <= i < |p| :: p[i] == data[i];
      if Moves(part, p).None? {
        var i :| 0 <= i < |p| && Step(part, p[i]).None?;
        assert Step(part, data[i]).None?;
      }
    }
  }

  /** The sum of the distances moved. */
  function Total(part: Part, data: seq<DataLine>): nat
  {
    if data == [] then 0 else Total(part, data[..|data| - 1]) + Inc(part, data[|data| - 1])
  }

  function Position(ms: seq<(int, int)>): (int, int)
  {
    if ms == [] then (0, 0)
    else
      var before := Position(ms[..|ms| - 1]);
      (before.0 + ms[|ms| - 1].0, before.1 + ms[|ms| - 1].1)
  }

  /** The position after each move, starting from the origin (which is not listed). */
  function Vertices(ms: seq<(int, int)>): (vs: seq<(int, int)>)
    ensures |vs| == |ms|
  {
    if ms == [] then [] else Vertices(ms[..|ms| - 1]) + [Position(ms)]
  }

  /** The boundary term `p / 2 + 1` with `p` starting at 1. */
  function Boundary(total: nat): nat { (1 + total) / 2 + 1 }

  /** What both coordinate builders return for a part. */
  function Expected(part: Part, data: seq<DataLine>): Option<(seq<(int, int)>, nat)>
  {
    match Moves(part, data)
    case None => None
    case Some(ms) => Some((Vertices(ms), Boundary(Total(part, data))))
  }

  lemma MovesSnoc(part: Part, data: seq<DataLine>, i: nat, ms: seq<(int, int)>, m: (int, int))
    requires i < |data| && Moves(part, data[..i]) == Some(ms) && Step(part, data[i]) == Some(m)
    ensures Moves(part, data[..i + 1]) == Some(ms + [m])
    ensures Total(part, data[..i + 1]) == Total(part, data[..i]) + Inc(part, data[i])
  {
    assert data[..i + 1][..i] == data[..i];
  }

  lemma VerticesSnoc(ms: seq<(int, int)>, m: (int, int))
    ensures Vertices(ms + [m]) == Vertices(ms) + [Position(ms + [m])]
    ensures Position(ms + [m]) == (Position(ms).0 + m.0, Position(ms).1 + m.1)
  {
    assert (ms + [m])[..|ms|] == ms;
  }

  lemma WalkStep(part: Part, data: seq<DataLine>, i: nat, ms: seq<(int, int)>, m: (int, int), x: int, y: int)
    requires i < |data| && Moves(part, data[..i]) == Some(ms) && Step(part, data[i]) == Some(m)
    requires x == Position(ms).0 + m.0 && y == Position(ms).1 + m.1
    ensures Moves(part, data[..i + 1]) == Some(ms + [m])
    ensures Total(part, data[..i + 1]) == Total(part, data[..i]) + Inc(part, data[i])
    ensures Vertices(ms + [m]) == Vertices(ms) + [(x, y)]
    ensures Position(ms + [m]).0 == x && Position(ms + [m]).1 == y
  {
    MovesSnoc(part, data, i, ms, m);
    VerticesSnoc(ms, m);
  }

  lemma MovesStop(part: Part, data: seq<DataLine>, i: nat)
    requires i < |data| && Step(part, data[i]).None?
    ensures Moves(part, data) == None
  {
    MovesMeaning(part, data);
  }

  /** `data_to_coordinates`: walks the plan by the letters and counts, listing each corner and
      adding up the distances. */
  method DataToCoordinates(data: seq<DataLine>) returns (r: Option<(seq<(int, int)>, int)>)
    ensures r.None? <==> Expected(One, data).None?
    ensures r.Some? ==> r.value.0 == Expected(One, data).value.0 && r.value.1 == Expected(One, data).value.1
  {
    var x: int := 0;
    var y: int := 0;
    var res: seq<(int, int)> := [];
    var p: int := 1;
    ghost var ms := [];
    for i := 0 to |data|
      invariant Moves(One, data[..i]) == Some(ms)
      invariant res == Vertices(ms) && x == Position(ms).0 && y == Position(ms).1
      invariant p == 1 + Total(One, data[..i])
    {
      var line := data[i];
      var inc: int := line.count;
      ghost var (x0, y0) := (x, y);
      match line.dir {
        case 'R' => x := x + inc;
        case 'L' => x := x - inc;
        case 'U' => y := y + inc;
        case 'D' => y := y - inc;
        case _ =>
          MovesStop(One, data, i);
          return None;
      }
      ghost var m := (x - x0, y - y0);
      assert Step(One, line) == Some(m);
      WalkStep(One, data, i, ms, m, x, y);
      ms := ms + [m];
      res := res + [(x, y)];
      p := p + inc;
    }
    assert data[..|data|] == data;
    return Some((res, p / 2 + 1));
  }

  /** `data_to_coordinates_2`: the same walk with distance and direction read from the colour:
      0 right, 1 down, 2 left, 3 up. */
  method DataToCoordinates2(data: seq<DataLine>) returns (r: Option<(seq<(int, int)>, int)>)
    ensures r.None? <==> Expected(Two, data).None?
    ensures r.Some? ==> r.value.0 == Expected(Two, data).value.0 && r.value.1 == Expected(Two, data).value.1
  {
    var x: int := 0;
    var y: int := 0;
    var res: seq<(int, int)> := [];
    var p: int := 1;
    ghost var ms := [];
    for i := 0 to |data|
      invariant Moves(Two, data[..i]) == Some(ms)
      invariant res == Vertices(ms) && x == Position(ms).0 && y == Position(ms).1
      invariant p == 1 + Total(Two, data[..i])
    {
      var line := data[i];
      var inc: int := line.hexDistance;
      ghost var (x0, y0) := (x, y);
      match line.hexDir {
        case 0 => x := x + inc;
        case 2 => x := x - inc;
        case 3 => y := y + inc;
        case 1 => y := y - inc;
        case _ =>
          MovesStop(Two, data, i);
          return None;
      }
      ghost var m := (x - x0, y - y0);
      assert Step(Two, line) == Some(m);
      WalkStep(Two, data, i, ms, m, x, y);
      ms := ms + [m];
      res := res + [(x, y)];
      p := p + inc;
    }
    assert data[..|data|] == data;
    return Some((res, p / 2 + 1));
  }

  /** The corners: one per line, the first one move from the origin and each next one move
      from the one before, x changing for R and L (part two: 0 and 2) and y for U and D (3
      and 1). */
  lemma {:induction false} VerticesMeaning(ms: seq<(int, int)>, i: nat)
    requires i < |ms|
    ensures Vertices(ms)[i] == Position(ms[..i + 1])
    ensures i == 0 ==> Vertices(ms)[i] == ms[0]
    ensures i > 0 ==> Vertices(ms)[i] == (Vertices(ms)[i - 1].0 + ms[i].0, Vertices(ms)[i - 1].1 + ms[i].1)
    decreases |ms|
  {
    var p := ms[..|ms| - 1];
    if i < |ms| - 1 {
      VerticesMeaning(p, i);
      assert p[..i + 1] == ms[..i + 1];
      if i > 0 {
        VerticesMeaning(p, i - 1);
      }
    } else {
      assert ms[..i + 1] == ms;
      if i > 0 {
        VerticesMeaning(p, i - 1);
        assert p[..i] == p;
        assert ms[..i] == p;
      } else {
        assert p == [];
      }
    }
  }

  /** Total minus the coordinates of the end point, which changes by 0 or by twice the
      distance on each move. */
  function Slack(part: Part, data: seq<DataLine>): int
    requires Moves(part, data).Some?
  {
    Total(part, data) - Position(Moves(part, data).value).0 - Position(Moves(part, data).value).1
  }

  lemma SlackStep(part: Part, data: seq<DataLine>)
    requires data != [] && Moves(part, data).Some?
    ensures Moves(part, data[..|data| - 1]).Some?
    ensures Slack(part, data) == Slack(part, data[..|data| - 1])
         || Slack(part, data) == Slack(part, data[..|data| - 1]) + 2 * Inc(part, data[|data| - 1])
  {
    var ms := Moves(part, data[..|data| - 1]).value;
    var m := Step(part, data[|data| - 1]).value;
    VerticesSnoc(ms, m);
  }

  /** The boundary term counts half the distance moved: the total distance of a route that
      returns to its start is even, so the term is that half plus one. */
  lemma {:induction false} TotalParity(part: Part, data: seq<DataLine>)
    requires Moves(part, data).Some?
    ensures Slack(part, data) % 2 == 0
  {
    if data != [] {
      TotalParity(part, data[..|data| - 1]);
      SlackStep(part, data);
    }
  }

  lemma ClosedBoundary(part: Part, data: seq<DataLine>)
    requires Moves(part, data).Some? && Position(Moves(part, data).value) == (0, 0)
    ensures Total(part, data) % 2 == 0 && Boundary(Total(part, data)) == Total(part, data) / 2 + 1
  {
    TotalParity(part, data);
  }

  // ---------------------------------------------------------------------------------------
  // The area.

  /** Σ (y_i + y_{i+1}) (x_i − x_{i+1}) over consecutive corners, no wrap-around term. */
  function Trapezoid(vs: seq<(int, int)>): int
  {
    if |vs| < 2 then 0 else (vs[0].1 + vs[1].1) * (vs[0].0 - vs[1].0) + Trapezoid(vs[1..])
  }

  /** `calc_area`. */
  function CalcArea(vs: seq<(int, int)>): (a: nat)
    ensures 2 * a <= Abs(Trapezoid(vs)) < 2 * a + 2
  {
    Abs(Trapezoid(vs)) / 2
  }

  /** Σ (x_i y_{i+1} − x_{i+1} y_i) over consecutive corners. */
  function Cross(vs: seq<(int, int)>): int
  {
    if |vs| < 2 then 0 else (vs[0].0 * vs[1].1 - vs[1].0 * vs[0].1) + Cross(vs[1..])
  }

  /** The shoelace sum of the closed polygon: Cross plus the edge from the last corner back to
      the first. */
  function CyclicCross(vs: seq<(int, int)>): int
  {
    if vs == [] then 0 else Cross(vs) + (vs[|vs| - 1].0 * vs[0].1 - vs[0].0 * vs[|vs| - 1].1)
  }

  lemma TermSplit(a: (int, int), b: (int, int))
    ensures (a.1 + b.1) * (a.0 - b.0) == (a.0 * b.1 - b.0 * a.1) + (a.0 * a.1 - b.0 * b.1)
  {
  }

  /** The trapezoid sum is the cross-product sum plus a telescoping part that depends only on
      the first and last corners. */
  lemma {:induction false} TrapezoidIsCross(vs: seq<(int, int)>)
    requires vs != []
    ensures Trapezoid(vs) == Cross(vs) + vs[0].0 * vs[0].1 - vs[|vs| - 1].0 * vs[|vs| - 1].1
    decreases |vs|
  {
    if |vs| >= 2 {
      TrapezoidIsCross(vs[1..]);
      TermSplit(vs[0], vs[1]);
    }
  }

  lemma ClosedTrapezoid(vs: seq<(int, int)>)
    requires vs != [] && vs[|vs| - 1] == (0, 0) && (vs[0].0 == 0 || vs[0].1 == 0)
    ensures Trapezoid(vs) == CyclicCross(vs)
  {
    TrapezoidIsCross(vs);
    assert vs[0].0 * vs[0].1 == 0;
  }

  /** For a plan whose route returns to the origin, the sum without the wrap-around term is
      the polygon's full shoelace sum, so `calc_area` is half its absolute value: the area of
      the polygon through the corners. */
  lemma ClosedArea(part: Part, data: seq<DataLine>)
    requires Moves(part, data).Some? && data != []
    requires Position(Moves(part, data).value) == (0, 0)
    ensures CalcArea(Vertices(Moves(part, data).value)) == Abs(CyclicCross(Vertices(Moves(part, data).value))) / 2
  {
    var ms := Moves(part, data).value;
    var vs := Vertices(ms);
    VerticesMeaning(ms, 0);
    VerticesMeaning(ms, |ms| - 1);
    assert ms[..|ms|] == ms;
    MovesMeaning(part, data);
    assert Step(part, data[0]) == Some(ms[0]);
    ClosedTrapezoid(vs);
  }

  // ---------------------------------------------------------------------------------------
  // Answers.

  /** The puzzle answer for a plan: the area inside the corners plus the boundary term. */
  function Answer(part: Part, data: seq<DataLine>): Option<nat>
  {
    match Expected(part, data)
    case None => None
    case Some((vs, p)) => Some(CalcArea(vs) + p)
  }

  lemma AnswerIs(part: Part, data: seq<DataLine>, vs: seq<(int, int)>, p: int)
    requires Expected(part, data).Some? && vs == Expected(part, data).value.0 && p == Expected(part, data).value.1
    ensures p >= 0 && Answer(part, data) == Some(CalcArea(vs) + p)
  {
  }

  /** The shared tail of `proc_1` and `proc_2`: the corners and boundary term of the part's
      walk, then the area plus that term. */
  method Dig(part: Part, data: seq<DataLine>) returns (r: Option<nat>)
    ensures r == Answer(part, data)
  {
    var c;
    if part == One {
      c := DataToCoordinates(data);
    } else {
      c := DataToCoordinates2(data);
    }
    if c.None? {
      return None;
    }
    var (res, p) := c.value;
    AnswerIs(part, data, res, p);
    var area := CalcArea(res);
    return Some(area + p);
  }

  /** `proc_1`: the area plus the boundary term; a failed parse or a line without a step gives
      None. What follows the plan is ignored. */
  method Proc1(input: seq<char>) returns (r: Option<nat>)
    ensures Parse(input).None? ==> r.None?
    ensures Parse(input).Some? ==> r == Answer(One, Parse(input).value.0)
  {
    var parsed := Parse(input);
    if parsed.None? {
      return None;
    }
    r := Dig(One, parsed.value.0);
  }

  /** `proc_2`: the same with the moves read from the colours. */
  method Proc2(input: seq<char>) returns (r: Option<nat>)
    ensures Parse(input).None? ==> r.None?
    ensures Parse(input).Some? ==> r == Answer(Two, Parse(input).value.0)
  {
    var parsed := Parse(input);
    if parsed.None? {
      return None;
    }
    r := Dig(Two, parsed.value.0);
  }

  /** Parsed plans always yield moves in part one. */
  lemma ParsedMoves(input: seq<char>)
    requires Parse(input).Some?
    ensures Moves(One, Parse(input).value.0).Some?
  {
    var data := Parse(input).value.0;
    ParsedDirs(input);
    MovesMeaning(One, data);
  }

  lemma {:induction false} ParseLinesDirs(s: seq<char>, acc: seq<DataLine>)
    requires forall i | 0 <= i < |acc| :: IsDirChar(acc[i].dir)
    ensures forall i | 0 <= i < |ParseLines(s, acc).0| :: IsDirChar(ParseLines(s, acc).0[i].dir)
    decreases |s|
  {
    match ParseLine(s)
    case None =>
    case Some((l, rest)) =>
      ParseLinesDirs(rest, acc + [l]);
  }

  lemma ParsedDirs(input: seq<char>)
    requires Parse(input).Some?
    ensures forall i | 0 <= i < |Parse(input).value.0| :: IsDirChar(Parse(input).value.0[i].dir)
  {
    ParseLinesDirs(input, []);
  }
}
