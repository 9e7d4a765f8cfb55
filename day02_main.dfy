/** Day 2, main.rs: the answers add up, over the lines of the input, the ids
    of the games possible with a given bag (part one) and the powers of all
    games (part two). A line that is not a game is the panic of `unwrap`. */
module Day02Main {
  import opened Common
  import opened Day02Game
  import opened Day02GameParser

  /** `proc_line`: the id of a game within the limit, 0 for any other game. */
  function LineScore(line: seq<char>, limit: GameSet): (r: Option<int>)
    ensures r.Some? <==> ParseGame(line).Some?
    ensures r.Some? ==> var g := ParseGame(line).value;
      r.value == (if forall i | 0 <= i < |g.sets| :: Within(g.sets[i], limit) then g.id else 0)
  {
    match ParseGame(line)
    case None => None
    case Some(g) => Some(if Check(g, limit) then g.id else 0)
  }

  function Scores(lines: seq<seq<char>>, limit: GameSet): (xs: seq<Option<int>>)
    ensures |xs| == |lines| && forall i | 0 <= i < |lines| :: xs[i] == LineScore(lines[i], limit)
  {
    seq(|lines|, i requires 0 <= i < |lines| => LineScore(lines[i], limit))
  }

  /** `proc`: the sum of the line scores; it succeeds exactly when every line is a game. */
  function Proc(data: seq<char>, limit: GameSet): (r: Option<int>)
    ensures r.Some? <==> forall i | 0 <= i < |Lines(data)| :: ParseGame(Lines(data)[i]).Some?
  {
    ScoresFail(Lines(data), limit);
    assert SumOf(Scores(Lines(data), limit)).Some? <==> AllSome(Scores(Lines(data), limit));
    SumOf(Scores(Lines(data), limit))
  }

  lemma ScoresFail(lines: seq<seq<char>>, limit: GameSet)
    ensures AllSome(Scores(lines, limit)) <==> forall i | 0 <= i < |lines| :: ParseGame(lines[i]).Some?
  {
    var xs := Scores(lines, limit);
    if !AllSome(xs) {
      var i :| 0 <= i < |xs| && xs[i].None?;
      assert ParseGame(lines[i]).None?;
    } else {
      forall i | 0 <= i < |lines| ensures ParseGame(lines[i]).Some? {
        assert xs[i].Some?;
      }
    }
  }

  /** No answer exceeds the sum of the ids, and it reaches it when every game is possible. */
  lemma {:induction false} ScoresBound(lines: seq<seq<char>>, limit: GameSet, ids: seq<int>)
    requires |ids| == |lines|
    requires forall i | 0 <= i < |lines| :: ParseGame(lines[i]).Some? && ParseGame(lines[i]).value.id == ids[i]
    ensures AllSome(Scores(lines, limit))
    ensures 0 <= Sum(Values(Scores(lines, limit))) <= Sum(ids)
    ensures (forall i | 0 <= i < |lines| :: Check(ParseGame(lines[i]).value, limit)) ==>
      Sum(Values(Scores(lines, limit))) == Sum(ids)
  {
    var xs := Scores(lines, limit);
    if lines != [] {
      ScoresBound(lines[1..], limit, ids[1..]);
      assert Scores(lines[1..], limit) == xs[1..];
      assert Values(xs)[0] == xs[0].value;
      assert Values(xs)[1..] == Values(xs[1..]);
    }
  }

  /** `parse_game(line).unwrap().power()`. */
  function LinePower(line: seq<char>): (r: Option<int>)
    ensures r.Some? <==> ParseGame(line).Some?
    ensures r.Some? ==> r.value >= 0
  {
    match ParseGame(line)
    case None => None
    case Some(g) => Some(Power(g) as int)
  }

  function Powers(lines: seq<seq<char>>): (xs: seq<Option<int>>)
    ensures |xs| == |lines| && forall i | 0 <= i < |lines| :: xs[i] == LinePower(lines[i])
  {
    seq(|lines|, i requires 0 <= i < |lines| => LinePower(lines[i]))
  }

  /** `proc_2`: the sum of the powers, never negative; it succeeds exactly when every line is a game. */
  function Proc2(data: seq<char>): (r: Option<int>)
    ensures r.Some? <==> forall i | 0 <= i < |Lines(data)| :: ParseGame(Lines(data)[i]).Some?
    ensures r.Some? ==> r.value >= 0
  {
    PowersFail(Lines(data));
    if AllSome(Powers(Lines(data))) then
      PowersNonNegative(Lines(data));
      SumOf(Powers(Lines(data)))
    else
      SumOf(Powers(Lines(data)))
  }

  lemma PowersFail(lines: seq<seq<char>>)
    ensures AllSome(Powers(lines)) <==> forall i | 0 <= i < |lines| :: ParseGame(lines[i]).Some?
  {
    var xs := Powers(lines);
    if !AllSome(xs) {
      var i :| 0 <= i < |xs| && xs[i].None?;
      assert ParseGame(lines[i]).None?;
    } else {
      forall i | 0 <= i < |lines| ensures ParseGame(lines[i]).Some? {
        assert xs[i].Some?;
      }
    }
  }

  /** The answer of part two is a sum of non-negative powers. */
  lemma {:induction false} PowersNonNegative(lines: seq<seq<char>>)
    requires AllSome(Powers(lines))
    ensures Sum(Values(Powers(lines))) >= 0
  {
    if lines != [] {
      var xs := Powers(lines);
      assert Powers(lines[1..]) == xs[1..];
      assert Values(xs)[1..] == Values(xs[1..]);
      PowersNonNegative(lines[1..]);
    }
  }
}
