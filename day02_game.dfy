/** Day 2, game.rs: cube colours, the sets of cubes drawn in one game, and
    the per-game maximum, limit check and power. */
module Day02Game {
  import opened Common

  datatype CubeColor = Red | Green | Blue

  /** A set of cubes drawn at once; `GameSet::build` is this constructor. */
  datatype GameSet = GameSet(red: nat, green: nat, blue: nat)

  datatype Game = Game(id: nat, sets: seq<GameSet>)

  function ColorName(c: CubeColor): string
  {
    match c
    case Red => "red"
    case Green => "green"
    case Blue => "blue"
  }

  /** `CubeColor::from_str`: exactly the three lower-case names are accepted. */
  function ColorFromStr(s: string): (r: Option<CubeColor>)
    ensures r.Some? <==> s == "red" || s == "green" || s == "blue"
    ensures r.Some? ==> ColorName(r.value) == s
    ensures forall c: CubeColor :: s == ColorName(c) ==> r == Some(c)
  {
    if s == "red" then Some(Red)
    else if s == "green" then Some(Green)
    else if s == "blue" then Some(Blue)
    else None
  }

  /** Colour names are non-empty words that `from_str` reads back. */
  lemma ColorNameReadsBack(c: CubeColor)
    ensures ColorName(c) != [] && AllAlpha(ColorName(c))
    ensures ColorFromStr(ColorName(c)) == Some(c)
  {
  }

  /** The larger of two sets, colour by colour. */
  function Join(a: GameSet, b: GameSet): GameSet
  {
    GameSet(Max(a.red, b.red), Max(a.green, b.green), Max(a.blue, b.blue))
  }

  /** The component-wise maximum of a list of sets; (0, 0, 0) for no sets. */
  function MaxOf(sets: seq<GameSet>): GameSet
  {
    if sets == [] then GameSet(0, 0, 0) else Join(MaxOf(sets[..|sets| - 1]), sets[|sets| - 1])
  }

  /** `Game::max_set`: folds the sets into a running maximum, one field at a time. */
  method MaxSet(g: Game) returns (ret: GameSet)
    ensures ret == MaxOf(g.sets)
  {
    ret := GameSet(0, 0, 0);
    var i := 0;
    while i < |g.sets|
      invariant 0 <= i <= |g.sets|
      invariant ret == MaxOf(g.sets[..i])
    {
      assert g.sets[..i + 1][..i] == g.sets[..i];
      var s := g.sets[i];
      ret := ret.(red := Max(ret.red, s.red));
      ret := ret.(green := Max(ret.green, s.green));
      ret := ret.(blue := Max(ret.blue, s.blue));
      i := i + 1;
    }
    assert g.sets[..i] == g.sets;
  }

  predicate Within(s: GameSet, limit: GameSet)
  {
    s.red <= limit.red && s.green <= limit.green && s.blue <= limit.blue
  }

  /** The maximum dominates every set, and each of its colours is 0 or drawn in some set. */
  lemma {:induction false} MaxOfIsMaximum(sets: seq<GameSet>)
    ensures forall i | 0 <= i < |sets| :: Within(sets[i], MaxOf(sets))
    ensures MaxOf(sets).red == 0 || exists i :: 0 <= i < |sets| && sets[i].red == MaxOf(sets).red
    ensures MaxOf(sets).green == 0 || exists i :: 0 <= i < |sets| && sets[i].green == MaxOf(sets).green
    ensures MaxOf(sets).blue == 0 || exists i :: 0 <= i < |sets| && sets[i].blue == MaxOf(sets).blue
  {
    if sets != [] {
      var init := sets[..|sets| - 1];
      MaxOfIsMaximum(init);
      assert forall i | 0 <= i < |init| :: sets[i] == init[i];
    }
  }

  /** `Game::check`: the game's maximum is within the limit, that is, every one of its sets is. */
  function Check(g: Game, limit: GameSet): (ok: bool)
    ensures ok <==> forall i | 0 <= i < |g.sets| :: Within(g.sets[i], limit)
  {
    WithinMaxIff(g.sets, limit);
    Within(MaxOf(g.sets), limit)
  }

  /** The maximum is within a limit exactly when every set is. */
  lemma WithinMaxIff(sets: seq<GameSet>, limit: GameSet)
    ensures Within(MaxOf(sets), limit) <==> forall i | 0 <= i < |sets| :: Within(sets[i], limit)
  {
    MaxOfIsMaximum(sets);
    var m := MaxOf(sets);
    if forall i | 0 <= i < |sets| :: Within(sets[i], limit) {
      if m.red != 0 {
        var i :| 0 <= i < |sets| && sets[i].red == m.red;
      }
      if m.green != 0 {
        var i :| 0 <= i < |sets| && sets[i].green == m.green;
      }
      if m.blue != 0 {
        var i :| 0 <= i < |sets| && sets[i].blue == m.blue;
      }
    }
  }

  /** `Game::power`: the product of the three maximum counts, zero exactly when some colour is never drawn. */
  function Power(g: Game): (p: nat)
    ensures p == 0 <==>
      (forall i | 0 <= i < |g.sets| :: g.sets[i].red == 0) ||
      (forall i | 0 <= i < |g.sets| :: g.sets[i].green == 0) ||
      (forall i | 0 <= i < |g.sets| :: g.sets[i].blue == 0)
  {
    var m := MaxOf(g.sets);
    MaxProductZero(g.sets);
    ProductZero(m.red, m.green, m.blue);
    m.red * m.green * m.blue
  }

  /** The product of the maximum counts is zero exactly when some colour is never drawn. */
  lemma MaxProductZero(sets: seq<GameSet>)
    ensures var m := MaxOf(sets);
      m.red * m.green * m.blue == 0 <==>
      (forall i | 0 <= i < |sets| :: sets[i].red == 0) ||
      (forall i | 0 <= i < |sets| :: sets[i].green == 0) ||
      (forall i | 0 <= i < |sets| :: sets[i].blue == 0)
  {
    MaxOfIsMaximum(sets);
    var m := MaxOf(sets);
    ProductZero(m.red, m.green, m.blue);
    if m.red != 0 {
      var i :| 0 <= i < |sets| && sets[i].red == m.red;
    }
    if m.green != 0 {
      var i :| 0 <= i < |sets| && sets[i].green == m.green;
    }
    if m.blue != 0 {
      var i :| 0 <= i < |sets| && sets[i].blue == m.blue;
    }
  }

  lemma ProductZero(a: nat, b: nat, c: nat)
    ensures a * b * c >= 0
    ensures a * b * c == 0 <==> a == 0 || b == 0 || c == 0
  {
    assert a * b >= 0;
    if a != 0 && b != 0 && c != 0 {
      assert a * b >= 1;
      assert a * b * c >= 1;
    }
  }
}
