/** Day 4: a scratchcard lists winning numbers and the numbers one has; it
    scores 0 when they share nothing and 2^(k-1) for k distinct shared
    numbers. The answer is the sum of the scores of all cards. */
module Day04 {
  import opened Common

  datatype Card = Card(id: nat, winning: seq<nat>, have: seq<nat>)

  /** `parse_line`: "Card", blanks, the id, ":", blanks, the winning numbers, " |", blanks, the numbers one has. */
  function ParseLine(s: seq<char>): (r: Option<(Card, seq<char>)>)
    ensures r.Some? ==> r.value.0.winning != [] && r.value.0.have != [] && |r.value.1| < |s|
  {
    match Tag("Card", s)
    case None => None
    case Some(r1) =>
      match Space1(r1)
      case None => None
      case Some(r2) =>
        match ParseU32(r2)
        case None => None
        case Some((id, r3)) =>
          match Tag(":", r3)
          case None => None
          case Some(r4) =>
            match Space1(r4)
            case None => None
            case Some(r5) =>
              match U32List(r5)
              case None => None
              case Some((winning, r6)) =>
                match Tag(" |", r6)
                case None => None
                case Some(r7) =>
                  match Space1(r7)
                  case None => None
                  case Some(r8) =>
                    match U32List(r8)
                    case None => None
                    case Some((have, r9)) => Some((Card(id, winning, have), r9))
  }

  function Elements(xs: seq<nat>): set<nat>
  {
    set x | x in xs
  }

  function Pow2(k: nat): (p: nat)
    ensures p >= 1
  {
    if k == 0 then 1 else 2 * Pow2(k - 1)
  }

  predicate Disjoint(have: seq<nat>, winning: seq<nat>)
  {
    forall i, j | 0 <= i < |have| && 0 <= j < |winning| :: have[i] != winning[j]
  }

  /** The two lists share no number exactly when their sets do not meet. */
  lemma SharedEmpty(have: seq<nat>, winning: seq<nat>)
    ensures |Elements(have) * Elements(winning)| == 0 <==> Disjoint(have, winning)
  {
    if !Disjoint(have, winning) {
      var i, j :| 0 <= i < |have| && 0 <= j < |winning| && have[i] == winning[j];
      assert have[i] in Elements(have) * Elements(winning);
    } else {
      assert Elements(have) * Elements(winning) == {};
    }
  }

  /** `calc_points`: the numbers are compared as sets, so repeated numbers count once. */
  function CalcPoints(have: seq<nat>, winning: seq<nat>): (score: nat)
    ensures score == 0 <==> Disjoint(have, winning)
  {
    var count := |Elements(have) * Elements(winning)|;
    SharedEmpty(have, winning);
    if count == 0 then 0 else Pow2(count - 1)
  }

  lemma {:induction false} ElementsBound(xs: seq<nat>)
    ensures |Elements(xs)| <= |xs|
  {
    if xs != [] {
      var init := xs[..|xs| - 1];
      ElementsBound(init);
      assert Elements(xs) == Elements(init) + {xs[|xs| - 1]} by {
        assert xs == init + [xs[|xs| - 1]];
      }
    }
  }

  lemma {:induction false} Pow2Monotone(a: nat, b: nat)
    requires a <= b
    ensures Pow2(a) <= Pow2(b)
    decreases b
  {
    if a < b {
      Pow2Monotone(a, b - 1);
    }
  }

  /** The score is 2^(k-1) for k distinct shared numbers, so it is at most 2^(n-1) for n numbers on either side. */
  lemma PointsBound(have: seq<nat>, winning: seq<nat>)
    ensures CalcPoints(have, winning) == 0 ||
      (have != [] && winning != [] && CalcPoints(have, winning) <= Pow2(Min(|have|, |winning|) - 1))
  {
    var shared := Elements(have) * Elements(winning);
    if |shared| > 0 {
      ElementsBound(have);
      ElementsBound(winning);
      SubsetCard(shared, Elements(have));
      SubsetCard(shared, Elements(winning));
      Pow2Monotone(|shared| - 1, Min(|have|, |winning|) - 1);
    }
  }

  /** Swapping the two lists does not change the score. */
  lemma PointsSymmetric(have: seq<nat>, winning: seq<nat>)
    ensures CalcPoints(have, winning) == CalcPoints(winning, have)
  {
    assert Elements(have) * Elements(winning) == Elements(winning) * Elements(have);
  }

  /** A number repeated on the card is counted once. */
  lemma PointsIgnoreDuplicates(have: seq<nat>, winning: seq<nat>, i: nat)
    requires i < |have|
    ensures CalcPoints(have + [have[i]], winning) == CalcPoints(have, winning)
  {
    assert Elements(have + [have[i]]) == Elements(have);
  }

  const ExampleHave: seq<nat> := [83, 86, 6, 31, 17, 9, 48, 53]
  const ExampleWinning: seq<nat> := [41, 48, 83, 86, 17]

  lemma ExampleShared()
    ensures Elements(ExampleHave) * Elements(ExampleWinning) == {48, 83, 86, 17}
  {
    assert Elements(ExampleHave) == {83, 86, 6, 31, 17, 9, 48, 53};
    assert Elements(ExampleWinning) == {41, 48, 83, 86, 17};
  }

  /** The card printed inline in the tests: four distinct numbers, 48, 83, 86 and 17, are shared, so it scores 8. */
  lemma ExampleScore()
    ensures CalcPoints([83, 86, 6, 31, 17, 9, 48, 53], [41, 48, 83, 86, 17]) == 8
  {
    ExampleShared();
    var shared: set<nat> := {48, 83, 86, 17};
    assert |shared| == 4;
    assert Pow2(3) == 8;
  }

  /** The score of one line; None where the source unwraps a failed parse and panics. */
  function LinePoints(line: seq<char>): (r: Option<int>)
    ensures r.Some? <==> ParseLine(line).Some?
    ensures r.Some? ==> r.value == CalcPoints(ParseLine(line).value.0.have, ParseLine(line).value.0.winning)
  {
    match ParseLine(line)
    case None => None
    case Some((card, _)) => Some(CalcPoints(card.have, card.winning))
  }

  function AllPoints(lines: seq<seq<char>>): (ps: seq<Option<int>>)
    ensures |ps| == |lines| && forall i | 0 <= i < |lines| :: ps[i] == LinePoints(lines[i])
  {
    seq(|lines|, i requires 0 <= i < |lines| => LinePoints(lines[i]))
  }

  /** `proc`: adds up the score of every line; a line that does not parse makes the whole run fail. */
  method Proc(data: seq<char>) returns (r: Option<int>)
    ensures r == SumOf(AllPoints(Lines(data)))
    ensures r.None? <==> exists i | 0 <= i < |Lines(data)| :: ParseLine(Lines(data)[i]).None?
  {
    var lines := Lines(data);
    ghost var ps := AllPoints(lines);
    var ret := 0;
    for i := 0 to |lines|
      invariant AllSome(ps[..i])
      invariant ret == Sum(Values(ps[..i]))
    {
      match ParseLine(lines[i])
      case None =>
        assert !AllSome(ps);
        return None;
      case Some((card, _)) =>
        var score := CalcPoints(card.have, card.winning);
        ValuesAppend(ps[..i], ps[i]);
        SumAppend(Values(ps[..i]), score);
        PrefixStep(ps, i);
        ret := ret + score;
    }
    assert ps[..|lines|] == ps;
    r := Some(ret);
  }

  /** A card line: "Card", blanks, the id, ":", the winning numbers, " |", the numbers one has. */
  function ShowCard(idGap: nat, id: nat, winning: seq<(nat, nat)>, have: seq<(nat, nat)>): seq<char>
  {
    "Card" + Blanks(idGap + 1) + ShowNat(id) + ":" + ShowPadded(winning) + " |" + ShowPadded(have)
  }

  lemma StopsAtBar(rest: seq<char>)
    ensures EndsList(" |" + rest)
  {
    var s := " |" + rest;
    Space1OfBlanks(1, "|" + rest);
    assert Blanks(1) + ("|" + rest) == s;
  }

  lemma ShowCardSplit(idGap: nat, id: nat, w: seq<char>, h: seq<char>, rest: seq<char>)
    ensures "Card" + Blanks(idGap + 1) + ShowNat(id) + ":" + w + " |" + h + rest ==
      "Card" + (Blanks(idGap + 1) + (ShowNat(id) + (":" + (w + (" |" + (h + rest))))))
  {
  }

  lemma ParseLineSteps(s: seq<char>, r1: seq<char>, r2: seq<char>, id: nat, r3: seq<char>, r4: seq<char>,
                       r5: seq<char>, winning: seq<nat>, r6: seq<char>, r7: seq<char>, r8: seq<char>,
                       have: seq<nat>, rest: seq<char>)
    requires Tag("Card", s) == Some(r1) && Space1(r1) == Some(r2) && ParseU32(r2) == Some((id, r3))
    requires Tag(":", r3) == Some(r4) && Space1(r4) == Some(r5) && U32List(r5) == Some((winning, r6))
    requires Tag(" |", r6) == Some(r7) && Space1(r7) == Some(r8) && U32List(r8) == Some((have, rest))
    ensures ParseLine(s) == Some((Card(id, winning, have), rest))
  {
  }

  /** The two lists of a printed card, from the blanks after ":" to the end. */
  lemma {:induction false} ListsOfShow(winning: seq<(nat, nat)>, have: seq<(nat, nat)>, rest: seq<char>)
    returns (r5: seq<char>, r6: seq<char>, r7: seq<char>, r8: seq<char>)
    requires winning != [] && have != [] && FitsU32(winning) && FitsU32(have)
    requires rest == [] || (!IsSpace(rest[0]) && !IsDigit(rest[0]))
    ensures Space1(ShowPadded(winning) + (" |" + (ShowPadded(have) + rest))) == Some(r5)
    ensures U32List(r5) == Some((PaddedValues(winning), r6))
    ensures Tag(" |", r6) == Some(r7) && Space1(r7) == Some(r8) && U32List(r8) == Some((PaddedValues(have), rest))
  {
    r7 := ShowPadded(have) + rest;
    r6 := " |" + r7;
    StopsAtBar(r7);
    r5 := BlanksThenList(winning, r6);
    TagOfConcat(" |", r7);
    EndsListAtOther(rest);
    r8 := BlanksThenList(have, rest);
  }

  /** `parse_line` reads back any printed card, whatever the padding between its numbers. */
  lemma ParseLineOfShow(idGap: nat, id: nat, winning: seq<(nat, nat)>, have: seq<(nat, nat)>, rest: seq<char>)
    requires id < U32_LIMIT
    requires winning != [] && have != [] && FitsU32(winning) && FitsU32(have)
    requires rest == [] || (!IsSpace(rest[0]) && !IsDigit(rest[0]))
    ensures ParseLine(ShowCard(idGap, id, winning, have) + rest) ==
      Some((Card(id, PaddedValues(winning), PaddedValues(have)), rest))
  {
    var w, h := ShowPadded(winning), ShowPadded(have);
    ShowCardSplit(idGap, id, w, h, rest);
    var r4 := w + (" |" + (h + rest));
    var r3 := ":" + r4;
    var r2 := ShowNat(id) + r3;
    var r1 := Blanks(idGap + 1) + r2;
    TagOfConcat("Card", r1);
    Space1OfBlanks(idGap + 1, r2);
    ParseU32OfShowNat(id, r3);
    TagOfConcat(":", r4);
    var r5, r6, r7, r8 := ListsOfShow(winning, have, rest);
    ParseLineSteps(ShowCard(idGap, id, winning, have) + rest, r1, r2, id, r3, r4, r5, PaddedValues(winning), r6, r7, r8,
                   PaddedValues(have), rest);
  }

  /** The card of `test_parse`, "Card 1: 41 48 83 86 17 | 83 86  6 31 17  9 48 53", as (extra blanks, number) pairs. */
  const FirstWinning: seq<(nat, nat)> := [(0, 41), (0, 48), (0, 83), (0, 86), (0, 17)]
  const FirstHave: seq<(nat, nat)> := [(0, 83), (0, 86), (1, 6), (0, 31), (0, 17), (1, 9), (0, 48), (0, 53)]

  lemma FirstWinningNumbers()
    ensures FitsU32(FirstWinning) && PaddedValues(FirstWinning) == [41, 48, 83, 86, 17]
  {
    var w := FirstWinning;
    assert PaddedValues(w[4..]) == [17];
    assert PaddedValues(w[3..]) == [86, 17];
    assert PaddedValues(w[2..]) == [83, 86, 17];
    assert PaddedValues(w[1..]) == [48, 83, 86, 17];
  }

  lemma FirstHaveNumbers()
    ensures FitsU32(FirstHave) && PaddedValues(FirstHave) == [83, 86, 6, 31, 17, 9, 48, 53]
  {
    var h := FirstHave;
    assert PaddedValues(h[7..]) == [53];
    assert PaddedValues(h[6..]) == [48, 53];
    assert PaddedValues(h[5..]) == [9, 48, 53];
    assert PaddedValues(h[4..]) == [17, 9, 48, 53];
    assert PaddedValues(h[3..]) == [31, 17, 9, 48, 53];
    assert PaddedValues(h[2..]) == [6, 31, 17, 9, 48, 53];
    assert PaddedValues(h[1..]) == [86, 6, 31, 17, 9, 48, 53];
  }

  /** `test_parse`: card 1 reads back as id 1 with both lists and nothing left, and scores 8. */
  lemma ExampleFirstCard()
    ensures ParseLine(ShowCard(0, 1, FirstWinning, FirstHave))
      == Some((Card(1, [41, 48, 83, 86, 17], [83, 86, 6, 31, 17, 9, 48, 53]), []))
    ensures LinePoints(ShowCard(0, 1, FirstWinning, FirstHave)) == Some(8)
  {
    FirstWinningNumbers();
    FirstHaveNumbers();
    ParseLineOfShow(0, 1, FirstWinning, FirstHave, []);
    assert ShowCard(0, 1, FirstWinning, FirstHave) + [] == ShowCard(0, 1, FirstWinning, FirstHave);
    ExampleScore();
  }

  const PaddedWinning: seq<(nat, nat)> := [(1, 1), (0, 21), (0, 53), (0, 59), (0, 44)]
  const PaddedHave: seq<(nat, nat)> := [(0, 69), (0, 82), (0, 63), (0, 72), (0, 16), (0, 21), (0, 14), (1, 1)]

  lemma PaddedWinningNumbers()
    ensures FitsU32(PaddedWinning) && PaddedValues(PaddedWinning) == [1, 21, 53, 59, 44]
  {
    var w := PaddedWinning;
    assert PaddedValues(w[4..]) == [44];
    assert PaddedValues(w[3..]) == [59, 44];
    assert PaddedValues(w[2..]) == [53, 59, 44];
    assert PaddedValues(w[1..]) == [21, 53, 59, 44];
  }

  lemma PaddedHaveNumbers()
    ensures FitsU32(PaddedHave) && PaddedValues(PaddedHave) == [69, 82, 63, 72, 16, 21, 14, 1]
  {
    var h := PaddedHave;
    assert PaddedValues(h[7..]) == [1];
    assert PaddedValues(h[6..]) == [14, 1];
    assert PaddedValues(h[5..]) == [21, 14, 1];
    assert PaddedValues(h[4..]) == [16, 21, 14, 1];
    assert PaddedValues(h[3..]) == [72, 16, 21, 14, 1];
    assert PaddedValues(h[2..]) == [63, 72, 16, 21, 14, 1];
    assert PaddedValues(h[1..]) == [82, 63, 72, 16, 21, 14, 1];
  }

  /** The padded card of the tests, "Card 3:  1 21 53 59 44 | 69 82 63 72 16 21 14  1": the extra blank before a one-digit number is skipped. */
  lemma ExamplePadded()
    ensures ParseLine(ShowCard(0, 3, PaddedWinning, PaddedHave))
      == Some((Card(3, [1, 21, 53, 59, 44], [69, 82, 63, 72, 16, 21, 14, 1]), []))
  {
    PaddedWinningNumbers();
    PaddedHaveNumbers();
    ParseLineOfShow(0, 3, PaddedWinning, PaddedHave, []);
    assert ShowCard(0, 3, PaddedWinning, PaddedHave) + [] == ShowCard(0, 3, PaddedWinning, PaddedHave);
  }
}
