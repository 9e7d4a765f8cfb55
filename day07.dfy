/** Day 7: Camel Cards. Hands of five cards are ranked by their type and
    then card by card; the winnings are the bids weighted by rank. */
module Day07 {
  import opened Common

  /** The card orders, strongest first: without jokers, and with 'J' as the weakest card. */
  const Cards: seq<char> := "AKQJT98765432"
  const Cards2: seq<char> := "AKQT98765432J"

  /** `card_to_int`: the card's position in its order; None where the source unwraps a card that is in neither. */
  function CardToInt(card: char, useJokers: bool): (r: Option<nat>)
    ensures var table := if useJokers then Cards2 else Cards;
      && (r.Some? <==> card in table)
      && (r.Some? ==> r.value < 13 && table[r.value] == card)
  {
    match card
    case 'A' => Some(0)
    case 'K' => Some(1)
    case 'Q' => Some(2)
    case 'J' => if useJokers then Some(12) else Some(3)
    case 'T' => if useJokers then Some(3) else Some(4)
    case _ =>
      if '2' <= card <= '9' then Some(if useJokers then 11 - (card as int - '2' as int) + 0 else 12 - (card as int - '2' as int))
      else None
  }

  /** The positions in an order are distinct, so the position of a card is the only index holding it. */
  lemma CardsDistinct()
    ensures forall i, j | 0 <= i < j < 13 :: Cards[i] != Cards[j] && Cards2[i] != Cards2[j]
  {
  }

  /** With jokers, 'J' is card 12 and every other card keeps its strength order. */
  lemma JokerIsWeakest()
    ensures CardToInt('J', true) == Some(12) && IsJoker(12)
    ensures CardToInt('J', false) == Some(3)
  {
  }

  /** `process_hand`: every card converted. */
  function ProcessHand(cards: seq<char>, useJokers: bool): (r: Option<seq<nat>>)
    ensures r.Some? <==> forall i | 0 <= i < |cards| :: CardToInt(cards[i], useJokers).Some?
    ensures r.Some? ==> (|r.value| == |cards| &&
      forall i | 0 <= i < |cards| :: Some(r.value[i]) == CardToInt(cards[i], useJokers) && r.value[i] < 13)
  {
    if cards == [] then Some([])
    else
      match (CardToInt(cards[0], useJokers), ProcessHand(cards[1..], useJokers))
      case (Some(v), Some(vs)) => Some([v] + vs)
      case _ =>
        assert forall i | 0 <= i < |cards[1..]| :: cards[1..][i] == cards[i + 1];
        None
  }

  /** `is_jocker`: the last card of the joker order. */
  predicate IsJoker(card: nat)
  {
    card == |Cards2| - 1
  }

  // Counting and classifying.

  /** The number of entries of xs equal to v. */
  function Count(xs: seq<nat>, v: nat): (n: nat)
    ensures n <= |xs|
  {
    if xs == [] then 0 else Count(xs[..|xs| - 1], v) + (if xs[|xs| - 1] == v then 1 else 0)
  }

  lemma CountAppend(xs: seq<nat>, x: nat, v: nat)
    ensures Count(xs + [x], v) == Count(xs, v) + (if x == v then 1 else 0)
  {
    assert (xs + [x])[..|xs|] == xs;
  }

  /** Changing one entry moves it from one tally to another. */
  lemma {:induction false} CountUpdate(xs: seq<nat>, i: nat, x: nat, v: nat)
    requires i < |xs|
    ensures Count(xs[i := x], v) == Count(xs, v) - (if xs[i] == v then 1 else 0) + (if x == v then 1 else 0)
  {
    var init := xs[..|xs| - 1];
    if i == |xs| - 1 {
      assert xs[i := x] == init + [x];
      CountAppend(init, x, v);
    } else {
      assert xs[i := x][..|xs| - 1] == init[i := x];
      CountUpdate(init, i, x, v);
    }
  }

  /** The cards of each kind as `card_types` counts them: jokers (when they are wild) are not counted. */
  function Histogram(hand: seq<nat>, useJokers: bool): (h: seq<nat>)
    ensures |h| == 13
  {
    seq(13, k requires 0 <= k => KindCount(hand, useJokers, k))
  }

  function KindCount(hand: seq<nat>, useJokers: bool, k: nat): nat
  {
    if useJokers && IsJoker(k) then 0 else Count(hand, k)
  }

  function JokerCount(hand: seq<nat>, useJokers: bool): nat
  {
    if useJokers then Count(hand, 12) else 0
  }

  /** The largest entry; 0 for none. */
  function MaxCount(h: seq<nat>): (m: nat)
    ensures forall k | 0 <= k < |h| :: h[k] <= m
    ensures h != [] ==> exists k | 0 <= k < |h| :: h[k] == m
  {
    if h == [] then 0
    else
      var init := h[..|h| - 1];
      var m := MaxCount(init);
      assert forall k | 0 <= k < |init| :: h[k] == init[k];
      if m < h[|h| - 1] then h[|h| - 1] else m
  }

  lemma MaxCountAt(h: seq<nat>, i: nat)
    requires i < |h| && forall k | 0 <= k < |h| :: h[k] <= h[i]
    ensures MaxCount(h) == h[i]
  {
  }

  /** How many kinds have n cards once the jokers have joined the largest group. */
  function Promoted(h: seq<nat>, jokers: nat, n: nat): int
  {
    Count(h, n) - (if MaxCount(h) == n then 1 else 0) + (if MaxCount(h) + jokers == n then 1 else 0)
  }

  /** The type code from the number of kinds with five, four, three and two cards:
      0 five of a kind, 1 four, 2 full house, 3 three, 4 two pair, 5 one pair, 6 high card. */
  function HandType(fives: int, fours: int, threes: int, twos: int): (t: nat)
    ensures t <= 6
    ensures t == 0 <==> fives == 1
    ensures t == 1 <==> fives != 1 && fours == 1
    ensures t == 2 <==> fives != 1 && fours != 1 && threes == 1 && twos == 1
    ensures t == 3 <==> fives != 1 && fours != 1 && threes == 1 && twos != 1
    ensures t == 4 <==> fives != 1 && fours != 1 && threes != 1 && twos == 2
    ensures t == 5 <==> fives != 1 && fours != 1 && threes != 1 && twos == 1
    ensures t == 6 <==> fives != 1 && fours != 1 && threes != 1 && twos != 1 && twos != 2
  {
    if fives == 1 then 0
    else if fours == 1 then 1
    else if threes == 1 && twos == 1 then 2
    else if threes == 1 then 3
    else if twos == 2 then 4
    else if twos == 1 then 5
    else 6
  }

  /** The type of a hand. */
  function HandKind(hand: seq<nat>, useJokers: bool): nat
  {
    var h := Histogram(hand, useJokers);
    var j := JokerCount(hand, useJokers);
    HandType(Promoted(h, j, 5), Promoted(h, j, 4), Promoted(h, j, 3), Promoted(h, j, 2))
  }

  lemma HistogramStep(hand: seq<nat>, n: nat, useJokers: bool)
    requires n < |hand| && hand[n] < 13
    ensures var h := Histogram(hand[..n], useJokers);
      Histogram(hand[..n + 1], useJokers) ==
        if useJokers && IsJoker(hand[n]) then h else h[hand[n] := h[hand[n]] + 1]
  {
    assert hand[..n + 1] == hand[..n] + [hand[n]];
    forall k | 0 <= k < 13
      ensures Count(hand[..n + 1], k) == Count(hand[..n], k) + (if hand[n] == k then 1 else 0)
    {
      CountAppend(hand[..n], hand[n], k);
    }
  }

  /** The first loop of `get_hand_score`: the kinds counted into `card_types`, the jokers
      counted apart, and the index of a largest count. */
  method CountKinds(hand: seq<nat>, useJokers: bool) returns (cardTypes: array<nat>, jokers: nat, maxIndex: nat)
    requires forall i | 0 <= i < |hand| :: hand[i] < 13
    ensures fresh(cardTypes) && cardTypes.Length == 13
    ensures cardTypes[..] == Histogram(hand, useJokers)
    ensures jokers == JokerCount(hand, useJokers)
    ensures maxIndex < 13 && forall k | 0 <= k < 13 :: cardTypes[k] <= cardTypes[maxIndex]
  {
    cardTypes := new nat[13](_ => 0);
    jokers := 0;
    maxIndex := 0;
    assert cardTypes[..] == Histogram(hand[..0], useJokers);
    for n := 0 to |hand|
      invariant maxIndex < 13
      invariant cardTypes[..] == Histogram(hand[..n], useJokers)
      invariant jokers == JokerCount(hand[..n], useJokers)
      invariant forall k | 0 <= k < 13 :: cardTypes[k] <= cardTypes[maxIndex]
    {
      var c := hand[n];
      HistogramStep(hand, n, useJokers);
      CountAppend(hand[..n], c, 12);
      assert hand[..n + 1] == hand[..n] + [c];
      if useJokers && IsJoker(c) {
        jokers := jokers + 1;
      } else {
        cardTypes[c] := cardTypes[c] + 1;
      }
      if cardTypes[c] > cardTypes[maxIndex] {
        maxIndex := c;
      }
    }
    assert hand[..|hand|] == hand;
  }

  /** The second loop of `get_hand_score`: how many kinds have five, four, three and two cards. */
  method TallyGroups(cardTypes: array<nat>) returns (fives: nat, fours: nat, threes: nat, twos: nat)
    ensures fives == Count(cardTypes[..], 5) && fours == Count(cardTypes[..], 4)
    ensures threes == Count(cardTypes[..], 3) && twos == Count(cardTypes[..], 2)
  {
    fives, fours, threes, twos := 0, 0, 0, 0;
    for k := 0 to cardTypes.Length
      invariant fives == Count(cardTypes[..k], 5) && fours == Count(cardTypes[..k], 4)
      invariant threes == Count(cardTypes[..k], 3) && twos == Count(cardTypes[..k], 2)
    {
      var c := cardTypes[k];
      assert cardTypes[..k + 1] == cardTypes[..k] + [c];
      CountAppend(cardTypes[..k], c, 5);
      CountAppend(cardTypes[..k], c, 4);
      CountAppend(cardTypes[..k], c, 3);
      CountAppend(cardTypes[..k], c, 2);
      if c == 5 {
        fives := fives + 1;
      } else if c == 4 {
        fours := fours + 1;
      } else if c == 3 {
        threes := threes + 1;
      } else if c == 2 {
        twos := twos + 1;
      }
    }
    assert cardTypes[..cardTypes.Length] == cardTypes[..];
  }

  /** `get_hand_score`: counts the kinds, lets the jokers join the largest group, tallies the
      groups by size and puts the type in front of the hand. */
  method GetHandScore(hand: seq<nat>, useJokers: bool) returns (ret: seq<nat>)
    requires forall i | 0 <= i < |hand| :: hand[i] < 13
    ensures ret == [HandKind(hand, useJokers)] + hand
  {
    var cardTypes, jokers, maxIndex := CountKinds(hand, useJokers);
    ret := hand;
    ghost var h := cardTypes[..];
    MaxCountAt(h, maxIndex);
    if useJokers {
      cardTypes[maxIndex] := cardTypes[maxIndex] + jokers;
    }
    ghost var top: nat := MaxCount(h) + jokers;
    assert cardTypes[..] == h[maxIndex := top];
    var fives, fours, threes, twos := TallyGroups(cardTypes);
    CountUpdate(h, maxIndex, top, 5);
    CountUpdate(h, maxIndex, top, 4);
    CountUpdate(h, maxIndex, top, 3);
    CountUpdate(h, maxIndex, top, 2);
    var score := HandType(fives, fours, threes, twos);
    ret := [score] + ret;
  }

  // Properties of the classification.

  function SumTo(h: seq<nat>, n: nat): nat
    requires n <= |h|
  {
    if n == 0 then 0 else SumTo(h, n - 1) + h[n - 1]
  }

  lemma {:induction false} SumToUpdate(h: seq<nat>, n: nat, i: nat, x: nat)
    requires i < |h| && n <= |h|
    ensures SumTo(h[i := x], n) == SumTo(h, n) + (if i < n then x - h[i] else 0)
  {
    if n > 0 {
      SumToUpdate(h, n - 1, i, x);
    }
  }

  lemma {:induction false} SumToZero(h: seq<nat>, n: nat)
    requires n <= |h| && forall k | 0 <= k < n :: h[k] == 0
    ensures SumTo(h, n) == 0
  {
    if n > 0 {
      SumToZero(h, n - 1);
    }
  }

  /** The last card adds one to the kinds or one to the jokers. */
  lemma HistogramSumStep(hand: seq<nat>, useJokers: bool)
    requires hand != [] && forall i | 0 <= i < |hand| :: hand[i] < 13
    ensures var n := |hand| - 1;
      SumTo(Histogram(hand, useJokers), 13) + JokerCount(hand, useJokers) ==
      SumTo(Histogram(hand[..n], useJokers), 13) + JokerCount(hand[..n], useJokers) + 1
  {
    var n := |hand| - 1;
    assert hand[..n + 1] == hand && hand[..n] + [hand[n]] == hand;
    HistogramStep(hand, n, useJokers);
    CountAppend(hand[..n], hand[n], 12);
    assert |Cards2| == 13;
    var h := Histogram(hand[..n], useJokers);
    if !(useJokers && IsJoker(hand[n])) {
      SumToUpdate(h, 13, hand[n], h[hand[n]] + 1);
      assert JokerCount(hand, useJokers) == JokerCount(hand[..n], useJokers);
      assert Histogram(hand, useJokers) == h[hand[n] := h[hand[n]] + 1];
    } else {
      assert Histogram(hand, useJokers) == h;
    }
  }

  /** Every card is counted once: the kinds plus the jokers make up the hand. */
  lemma {:induction false} HistogramSum(hand: seq<nat>, useJokers: bool)
    requires forall i | 0 <= i < |hand| :: hand[i] < 13
    ensures SumTo(Histogram(hand, useJokers), 13) + JokerCount(hand, useJokers) == |hand|
  {
    if hand != [] {
      HistogramSum(hand[..|hand| - 1], useJokers);
      HistogramSumStep(hand, useJokers);
    } else {
      SumToZero(Histogram(hand, useJokers), 13);
    }
  }

  function Joined(group: nat, jokers: nat): nat { group + jokers }

  /** After the jokers join the largest group, the group sizes still add up to the hand size. */
  lemma PromotedSum(hand: seq<nat>, useJokers: bool, i: nat)
    requires forall k | 0 <= k < |hand| :: hand[k] < 13
    requires i < 13 && Histogram(hand, useJokers)[i] == MaxCount(Histogram(hand, useJokers))
    ensures var h := Histogram(hand, useJokers);
      SumTo(h[i := Joined(h[i], JokerCount(hand, useJokers))], 13) == |hand|
  {
    var h := Histogram(hand, useJokers);
    HistogramSum(hand, useJokers);
    SumToUpdate(h, 13, i, Joined(h[i], JokerCount(hand, useJokers)));
  }

  /** Without wild jokers, a hand is five of a kind exactly when one kind has all five cards. */
  lemma FiveOfAKind(hand: seq<nat>)
    requires |hand| == 5 && forall i | 0 <= i < 5 :: hand[i] < 13
    ensures HandKind(hand, false) == 0 <==> exists k | 0 <= k < 13 :: Count(hand, k) == 5
  {
    if exists k | 0 <= k < 13 :: Count(hand, k) == 5 {
      var k :| 0 <= k < 13 && Count(hand, k) == 5;
      FiveIf(hand, k);
    }
    if HandKind(hand, false) == 0 {
      FiveOnlyIf(hand);
    }
  }

  lemma FiveIf(hand: seq<nat>, k: nat)
    requires |hand| == 5 && forall i | 0 <= i < 5 :: hand[i] < 13
    requires k < 13 && Count(hand, k) == 5
    ensures HandKind(hand, false) == 0
  {
    var h := Histogram(hand, false);
    HistogramSum(hand, false);
    assert h[k] == 5;
    FiveOnlyOnce(h, k);
    assert Promoted(h, 0, 5) == 1;
  }

  lemma FiveOnlyIf(hand: seq<nat>)
    requires |hand| == 5 && forall i | 0 <= i < 5 :: hand[i] < 13
    requires HandKind(hand, false) == 0
    ensures exists k | 0 <= k < 13 :: Count(hand, k) == 5
  {
    var h := Histogram(hand, false);
    assert Promoted(h, 0, 5) == 1;
    assert Promoted(h, 0, 5) == Count(h, 5);
    CountPositive(h, 5);
    var k :| 0 <= k < |h| && h[k] == 5;
    assert Count(hand, k) == 5;
  }

  lemma {:induction false} CountPositive(h: seq<nat>, v: nat)
    requires Count(h, v) >= 1
    ensures exists k | 0 <= k < |h| :: h[k] == v
  {
    var init := h[..|h| - 1];
    if h[|h| - 1] != v {
      CountPositive(init, v);
      var k :| 0 <= k < |init| && init[k] == v;
      assert h[k] == v;
    }
  }

  /** In thirteen group sizes adding up to five, a group of five is the only non-empty one. */
  lemma FiveOnlyOnce(h: seq<nat>, k: nat)
    requires |h| == 13 && k < 13 && h[k] == 5 && SumTo(h, 13) == 5
    ensures Count(h, 5) == 1
  {
    forall i | 0 <= i < 13 && i != k
      ensures h[i] == 0
    {
      SumAtLeastTwo(h, 13, i, k);
    }
    UniqueCount(h, 13, k, 5);
    assert h[..13] == h;
  }

  lemma {:induction false} SumAtLeastTwo(h: seq<nat>, n: nat, i: nat, k: nat)
    requires i < n && k < n && i != k && n <= |h|
    ensures SumTo(h, n) >= h[i] + h[k]
  {
    if n - 1 != i && n - 1 != k {
      SumAtLeastTwo(h, n - 1, i, k);
    } else if n - 1 == i {
      SumAtLeast(h, n - 1, k);
    } else {
      SumAtLeast(h, n - 1, i);
    }
  }

  lemma {:induction false} SumAtLeast(h: seq<nat>, n: nat, i: nat)
    requires i < n <= |h|
    ensures SumTo(h, n) >= h[i]
  {
    if n - 1 != i {
      SumAtLeast(h, n - 1, i);
    }
  }

  lemma {:induction false} UniqueCount(h: seq<nat>, n: nat, k: nat, v: nat)
    requires n <= |h| && k < |h| && h[k] == v
    requires forall i | 0 <= i < |h| && i != k :: h[i] != v
    ensures Count(h[..n], v) == if k < n then 1 else 0
  {
    if n > 0 {
      assert h[..n][..n - 1] == h[..n - 1];
      UniqueCount(h, n - 1, k, v);
    }
  }

  lemma {:induction false} CountAbsent(h: seq<nat>, v: nat)
    requires forall i | 0 <= i < |h| :: h[i] != v
    ensures Count(h, v) == 0
  {
    if h != [] {
      CountAbsent(h[..|h| - 1], v);
    }
  }

  /** The tally of v is its multiplicity in the multiset of entries. */
  lemma {:induction false} CountMultiset(xs: seq<nat>, v: nat)
    ensures Count(xs, v) == multiset(xs)[v]
  {
    if xs != [] {
      var init := xs[..|xs| - 1];
      assert xs == init + [xs[|xs| - 1]];
      CountMultiset(init, v);
    }
  }

  /** Without wild jokers, a five-card hand has type 1 exactly when one kind has four of its cards. */
  lemma FourOfAKind(hand: seq<nat>)
    requires |hand| == 5 && forall i | 0 <= i < 5 :: hand[i] < 13
    ensures HandKind(hand, false) == 1 <==> exists k | 0 <= k < 13 :: Count(hand, k) == 4
  {
    var h := Histogram(hand, false);
    assert forall n :: Promoted(h, 0, n) == Count(h, n);
    if exists k | 0 <= k < 13 :: Count(hand, k) == 4 {
      var k :| 0 <= k < 13 && Count(hand, k) == 4;
      HistogramSum(hand, false);
      forall i | 0 <= i < 13 && i != k
        ensures h[i] <= 1
      {
        SumAtLeastTwo(h, 13, i, k);
      }
      CountAbsent(h, 5);
      UniqueCount(h, 13, k, 4);
      assert h[..13] == h;
    }
    if HandKind(hand, false) == 1 {
      CountPositive(h, 4);
      var k :| 0 <= k < |h| && h[k] == 4;
      assert Count(hand, k) == 4;
    }
  }

  /** The hand with every joker replaced by the kind m. */
  function WildAs(hand: seq<nat>, m: nat): seq<nat>
  {
    seq(|hand|, i requires 0 <= i < |hand| => if IsJoker(hand[i]) then m else hand[i])
  }

  lemma {:induction false} CountWild(hand: seq<nat>, m: nat, k: nat)
    requires !IsJoker(m)
    ensures Count(WildAs(hand, m), k) ==
      if k == m then Count(hand, m) + Count(hand, 12) else if IsJoker(k) then 0 else Count(hand, k)
  {
    if hand != [] {
      var n := |hand| - 1;
      assert WildAs(hand, m)[..n] == WildAs(hand[..n], m);
      CountWild(hand[..n], m, k);
    }
  }

  /** Some kind other than the joker has a largest count, so the jokers always have a group to join. */
  lemma LargestKindExists(hand: seq<nat>)
    ensures exists m | 0 <= m < 12 :: Histogram(hand, true)[m] == MaxCount(Histogram(hand, true))
  {
    var h := Histogram(hand, true);
    var k :| 0 <= k < 13 && h[k] == MaxCount(h);
    if k == 12 {
      assert h[0] == MaxCount(h);
    }
  }

  /** Turning the jokers into the kind m adds them to m's count and leaves the other counts. */
  lemma WildHistogram(hand: seq<nat>, m: nat)
    requires m < 12
    ensures var h := Histogram(hand, true);
      Histogram(WildAs(hand, m), false) == h[m := h[m] + JokerCount(hand, true)] &&
      JokerCount(WildAs(hand, m), false) == 0
  {
    var h := Histogram(hand, true);
    var h2 := Histogram(WildAs(hand, m), false);
    forall k | 0 <= k < 13
      ensures h2[k] == h[m := h[m] + JokerCount(hand, true)][k]
    {
      CountWild(hand, m, k);
    }
  }

  /** With wild jokers, a hand has the type that the hand without wild jokers has once every joker
      is turned into a most frequent other kind. */
  lemma JokersJoinLargest(hand: seq<nat>, m: nat)
    requires forall i | 0 <= i < |hand| :: hand[i] < 13
    requires m < 12 && Histogram(hand, true)[m] == MaxCount(Histogram(hand, true))
    ensures HandKind(hand, true) == HandKind(WildAs(hand, m), false)
  {
    var h := Histogram(hand, true);
    var j := JokerCount(hand, true);
    WildHistogram(hand, m);
    PromotedWild(h, m, j, 5);
    PromotedWild(h, m, j, 4);
    PromotedWild(h, m, j, 3);
    PromotedWild(h, m, j, 2);
  }

  /** Adding the jokers to a largest group gives the same tallies as promoting them. */
  lemma PromotedWild(h: seq<nat>, m: nat, j: nat, n: nat)
    requires m < |h| && h[m] == MaxCount(h)
    ensures Promoted(h[m := h[m] + j], 0, n) == Promoted(h, j, n)
  {
    var h2 := h[m := h[m] + j];
    forall k | 0 <= k < |h2|
      ensures h2[k] <= h2[m]
    {
      assert h[k] <= MaxCount(h);
    }
    MaxCountAt(h2, m);
    assert MaxCount(h2) == h[m] + j;
    CountUpdate(h, m, h[m] + j, n);
  }

  /** The tally of a five-entry hand, entry by entry. */
  lemma CountFive(a: nat, b: nat, c: nat, d: nat, e: nat, v: nat)
    ensures Count([a, b, c, d, e], v) ==
      (if a == v then 1 else 0) + (if b == v then 1 else 0) + (if c == v then 1 else 0) +
      (if d == v then 1 else 0) + (if e == v then 1 else 0)
  {
    CountAppend([], a, v);
    assert [] + [a] == [a];
    CountAppend([a], b, v);
    assert [a] + [b] == [a, b];
    CountAppend([a, b], c, v);
    assert [a, b] + [c] == [a, b, c];
    CountAppend([a, b, c], d, v);
    assert [a, b, c] + [d] == [a, b, c, d];
    CountAppend([a, b, c, d], e, v);
    assert [a, b, c, d] + [e] == [a, b, c, d, e];
  }

  lemma ExampleHistogram()
    ensures Histogram([11, 12, 4, 11, 1], false) == [0, 1, 0, 0, 1, 0, 0, 0, 0, 0, 0, 2, 1]
  {
    forall k | 0 <= k < 13
      ensures Histogram([11, 12, 4, 11, 1], false)[k] == [0, 1, 0, 0, 1, 0, 0, 0, 0, 0, 0, 2, 1][k]
    {
      CountFive(11, 12, 4, 11, 1, k);
    }
  }

  lemma ExampleJokerHistogram()
    ensures Histogram([3, 8, 8, 12, 8], true) == [0, 0, 0, 1, 0, 0, 0, 0, 3, 0, 0, 0, 0]
    ensures JokerCount([3, 8, 8, 12, 8], true) == 1
  {
    forall k | 0 <= k < 13
      ensures Histogram([3, 8, 8, 12, 8], true)[k] == [0, 0, 0, 1, 0, 0, 0, 0, 3, 0, 0, 0, 0][k]
    {
      CountFive(3, 8, 8, 12, 8, k);
    }
    CountFive(3, 8, 8, 12, 8, 12);
  }

  /** `get_hand_score` of the hand of `test_parse`: one pair. */
  lemma ExampleHandKind()
    ensures HandKind([11, 12, 4, 11, 1], false) == 5
  {
    var hand: seq<nat> := [11, 12, 4, 11, 1];
    var h: seq<nat> := [0, 1, 0, 0, 1, 0, 0, 0, 0, 0, 0, 2, 1];
    ExampleHistogram();
    ExampleGroups();
    HandKindOf(hand, false, h, 0, 2, 0, 0, 1);
  }

  lemma ExampleGroups()
    ensures var h: seq<nat> := [0, 1, 0, 0, 1, 0, 0, 0, 0, 0, 0, 2, 1];
      MaxCount(h) == 2 && Count(h, 5) == 0 && Count(h, 4) == 0 && Count(h, 3) == 0 && Count(h, 2) == 1
  {
    var h: seq<nat> := [0, 1, 0, 0, 1, 0, 0, 0, 0, 0, 0, 2, 1];
    MaxCountAt(h, 11);
    CountAbsent(h, 5);
    CountAbsent(h, 4);
    CountAbsent(h, 3);
    UniqueCount(h, 13, 11, 2);
    assert h[..13] == h;
  }

  /** `get_hand_score` of the hand of `test_parse2`: the joker joins the three fives, four of a kind. */
  lemma ExampleJokerHandKind()
    ensures HandKind([3, 8, 8, 12, 8], true) == 1
  {
    var hand: seq<nat> := [3, 8, 8, 12, 8];
    var h: seq<nat> := [0, 0, 0, 1, 0, 0, 0, 0, 3, 0, 0, 0, 0];
    ExampleJokerHistogram();
    ExampleJokerGroups();
    HandKindOf(hand, true, h, 1, 3, 0, 1, 0);
  }

  lemma ExampleJokerGroups()
    ensures var h: seq<nat> := [0, 0, 0, 1, 0, 0, 0, 0, 3, 0, 0, 0, 0];
      MaxCount(h) == 3 && Count(h, 5) == 0 && Count(h, 4) == 0 && Count(h, 3) == 1 && Count(h, 2) == 0
  {
    var h: seq<nat> := [0, 0, 0, 1, 0, 0, 0, 0, 3, 0, 0, 0, 0];
    MaxCountAt(h, 8);
    CountAbsent(h, 5);
    CountAbsent(h, 4);
    CountAbsent(h, 2);
    UniqueCount(h, 13, 8, 3);
    assert h[..13] == h;
  }

  /** The type of a hand from its histogram and joker count. */
  lemma HandKindOf(hand: seq<nat>, useJokers: bool, h: seq<nat>, j: nat, m: nat, fours: nat, threes: nat, twos: nat)
    requires Histogram(hand, useJokers) == h && JokerCount(hand, useJokers) == j && MaxCount(h) == m
    requires Count(h, 5) == 0 && Count(h, 4) == fours && Count(h, 3) == threes && Count(h, 2) == twos
    ensures HandKind(hand, useJokers) == HandType(
      (if m + j == 5 then 1 else 0) - (if m == 5 then 1 else 0),
      fours - (if m == 4 then 1 else 0) + (if m + j == 4 then 1 else 0),
      threes - (if m == 3 then 1 else 0) + (if m + j == 3 then 1 else 0),
      twos - (if m == 2 then 1 else 0) + (if m + j == 2 then 1 else 0))
  {
  }

  // Examples.

  /** `test_parse`: "32T3K" converts card by card and scores as one pair, 5 followed by the cards. */
  lemma ExampleProcessHand()
    ensures ProcessHand(['3', '2', 'T', '3', 'K'], false) == Some([11, 12, 4, 11, 1])
    ensures ScoreLine((['3', '2', 'T', '3', 'K'], 765), false) == Some(([5, 11, 12, 4, 11, 1], 765))
  {
    ExampleProcessCards();
    ExampleHandKind();
    assert [5] + [11, 12, 4, 11, 1] == [5, 11, 12, 4, 11, 1];
  }

  lemma ExampleProcessCards()
    ensures ProcessHand(['3', '2', 'T', '3', 'K'], false) == Some([11, 12, 4, 11, 1])
  {
    var e: seq<char> := [];
    assert ProcessHand(e, false) == Some([]);
    assert ['K'][1..] == e;
    assert CardToInt('K', false) == Some(1);
    assert ProcessHand(['K'], false) == Some([1] + []);
    assert [1] + [] == [1];
    assert ProcessHand(['K'], false) == Some([1]);
    assert ['3', 'K'][1..] == ['K'];
    assert CardToInt('3', false) == Some(11);
    assert ProcessHand(['3', 'K'], false) == Some([11] + [1]);
    assert [11] + [1] == [11, 1];
    assert ProcessHand(['3', 'K'], false) == Some([11, 1]);
    assert ['T', '3', 'K'][1..] == ['3', 'K'];
    assert CardToInt('T', false) == Some(4);
    assert ProcessHand(['T', '3', 'K'], false) == Some([4] + [11, 1]);
    assert [4] + [11, 1] == [4, 11, 1];
    assert ProcessHand(['T', '3', 'K'], false) == Some([4, 11, 1]);
    assert ['2', 'T', '3', 'K'][1..] == ['T', '3', 'K'];
    assert CardToInt('2', false) == Some(12);
    assert ProcessHand(['2', 'T', '3', 'K'], false) == Some([12] + [4, 11, 1]);
    assert [12] + [4, 11, 1] == [12, 4, 11, 1];
    assert ProcessHand(['2', 'T', '3', 'K'], false) == Some([12, 4, 11, 1]);
    assert ['3', '2', 'T', '3', 'K'][1..] == ['2', 'T', '3', 'K'];
    assert CardToInt('3', false) == Some(11);
    assert ProcessHand(['3', '2', 'T', '3', 'K'], false) == Some([11] + [12, 4, 11, 1]);
    assert [11] + [12, 4, 11, 1] == [11, 12, 4, 11, 1];
    assert ProcessHand(['3', '2', 'T', '3', 'K'], false) == Some([11, 12, 4, 11, 1]);
  }

  /** `test_parse2`: with jokers "T55J5" converts card by card and scores as four of a kind, 1 followed by the cards. */
  lemma ExampleProcessJokerHand()
    ensures ProcessHand(['T', '5', '5', 'J', '5'], true) == Some([3, 8, 8, 12, 8])
    ensures ScoreLine((['T', '5', '5', 'J', '5'], 684), true) == Some(([1, 3, 8, 8, 12, 8], 684))
  {
    ExampleProcessJokerCards();
    ExampleJokerHandKind();
    assert [1] + [3, 8, 8, 12, 8] == [1, 3, 8, 8, 12, 8];
  }

  lemma ExampleProcessJokerCards()
    ensures ProcessHand(['T', '5', '5', 'J', '5'], true) == Some([3, 8, 8, 12, 8])
  {
    var e: seq<char> := [];
    assert ProcessHand(e, true) == Some([]);
    assert ['5'][1..] == e;
    assert CardToInt('5', true) == Some(8);
    assert ProcessHand(['5'], true) == Some([8] + []);
    assert [8] + [] == [8];
    assert ProcessHand(['5'], true) == Some([8]);
    assert ['J', '5'][1..] == ['5'];
    assert CardToInt('J', true) == Some(12);
    assert ProcessHand(['J', '5'], true) == Some([12] + [8]);
    assert [12] + [8] == [12, 8];
    assert ProcessHand(['J', '5'], true) == Some([12, 8]);
    assert ['5', 'J', '5'][1..] == ['J', '5'];
    assert CardToInt('5', true) == Some(8);
    assert ProcessHand(['5', 'J', '5'], true) == Some([8] + [12, 8]);
    assert [8] + [12, 8] == [8, 12, 8];
    assert ProcessHand(['5', 'J', '5'], true) == Some([8, 12, 8]);
    assert ['5', '5', 'J', '5'][1..] == ['5', 'J', '5'];
    assert CardToInt('5', true) == Some(8);
    assert ProcessHand(['5', '5', 'J', '5'], true) == Some([8] + [8, 12, 8]);
    assert [8] + [8, 12, 8] == [8, 8, 12, 8];
    assert ProcessHand(['5', '5', 'J', '5'], true) == Some([8, 8, 12, 8]);
    assert ['T', '5', '5', 'J', '5'][1..] == ['5', '5', 'J', '5'];
    assert CardToInt('T', true) == Some(3);
    assert ProcessHand(['T', '5', '5', 'J', '5'], true) == Some([3] + [8, 8, 12, 8]);
    assert [3] + [8, 8, 12, 8] == [3, 8, 8, 12, 8];
    assert ProcessHand(['T', '5', '5', 'J', '5'], true) == Some([3, 8, 8, 12, 8]);
  }

  // Ordering the hands.

  /** Rust's order on `Vec<u32>`: element by element, a proper prefix first. */
  predicate SeqLe(a: seq<nat>, b: seq<nat>)
    decreases |a|
  {
    a == [] || (b != [] && (a[0] < b[0] || (a[0] == b[0] && SeqLe(a[1..], b[1..]))))
  }

  lemma {:induction false} SeqLeTotal(a: seq<nat>, b: seq<nat>)
    ensures SeqLe(a, b) || SeqLe(b, a)
    decreases |a|
  {
    if a != [] && b != [] && a[0] == b[0] {
      SeqLeTotal(a[1..], b[1..]);
    }
  }

  lemma {:induction false} SeqLeAntisymmetric(a: seq<nat>, b: seq<nat>)
    requires SeqLe(a, b) && SeqLe(b, a)
    ensures a == b
    decreases |a|
  {
    if a != [] {
      SeqLeAntisymmetric(a[1..], b[1..]);
      assert a == [a[0]] + a[1..] && b == [b[0]] + b[1..];
    }
  }

  lemma {:induction false} SeqLeTransitive(a: seq<nat>, b: seq<nat>, c: seq<nat>)
    requires SeqLe(a, b) && SeqLe(b, c)
    ensures SeqLe(a, c)
    decreases |a|
  {
    if a != [] && a[0] == b[0] && b[0] == c[0] {
      SeqLeTransitive(a[1..], b[1..], c[1..]);
    }
  }

  type Scored = (seq<nat>, nat)

  /** Rust's order on `(Vec<u32>, u32)`: by score, then by bid. */
  predicate PairLe(p: Scored, q: Scored)
  {
    if p.0 == q.0 then p.1 <= q.1 else SeqLe(p.0, q.0)
  }

  lemma PairLeTotal(p: Scored, q: Scored)
    ensures PairLe(p, q) || PairLe(q, p)
  {
    SeqLeTotal(p.0, q.0);
  }

  lemma PairLeAntisymmetric(p: Scored, q: Scored)
    requires PairLe(p, q) && PairLe(q, p)
    ensures p == q
  {
    if p.0 != q.0 {
      SeqLeAntisymmetric(p.0, q.0);
    }
  }

  lemma PairLeTransitive(p: Scored, q: Scored, r: Scored)
    requires PairLe(p, q) && PairLe(q, r)
    ensures PairLe(p, r)
  {
    if p.0 == q.0 {
    } else if q.0 == r.0 {
    } else if p.0 == r.0 {
      SeqLeAntisymmetric(p.0, q.0);
    } else {
      SeqLeTransitive(p.0, q.0, r.0);
    }
  }

  predicate Sorted(xs: seq<Scored>)
  {
    forall i, j | 0 <= i < j < |xs| :: PairLe(xs[i], xs[j])
  }

  function Insert(x: Scored, ys: seq<Scored>): (zs: seq<Scored>)
    ensures multiset(zs) == multiset(ys) + multiset{x}
    ensures |zs| == |ys| + 1
  {
    if ys == [] then [x]
    else if PairLe(x, ys[0]) then [x] + ys
    else
      assert ys == [ys[0]] + ys[1..];
      [ys[0]] + Insert(x, ys[1..])
  }

  lemma {:induction false} InsertSorted(x: Scored, ys: seq<Scored>)
    requires Sorted(ys)
    ensures Sorted(Insert(x, ys))
  {
    if ys == [] {
    } else if PairLe(x, ys[0]) {
      forall j | 0 < j < |ys| + 1
        ensures PairLe(x, ([x] + ys)[j])
      {
        PairLeTransitive(x, ys[0], ys[j - 1]);
      }
    } else {
      PairLeTotal(x, ys[0]);
      var tail := ys[1..];
      assert Sorted(tail);
      InsertSorted(x, tail);
      var zs := Insert(x, tail);
      forall j | 0 <= j < |zs|
        ensures PairLe(ys[0], zs[j])
      {
        assert zs[j] in multiset(zs);
        if zs[j] != x {
          assert zs[j] in multiset(tail);
          var k :| 0 <= k < |tail| && tail[k] == zs[j];
          assert ys[k + 1] == zs[j];
        }
      }
      assert Sorted([ys[0]] + zs);
    }
  }

  /** `hands.sort()`: an ascending permutation. */
  function SortHands(xs: seq<Scored>): (ys: seq<Scored>)
    ensures Sorted(ys) && multiset(ys) == multiset(xs)
  {
    if xs == [] then []
    else
      var rest := SortHands(xs[1..]);
      InsertSorted(xs[0], rest);
      assert xs == [xs[0]] + xs[1..];
      Insert(xs[0], rest)
  }

  /** Two ascending arrangements of the same hands start with the same hand. */
  lemma SortedSameHead(xs: seq<Scored>, ys: seq<Scored>)
    requires xs != [] && ys != [] && Sorted(xs) && Sorted(ys) && multiset(xs) == multiset(ys)
    ensures xs[0] == ys[0]
  {
    assert xs[0] in multiset(ys) && ys[0] in multiset(xs);
    var i :| 0 <= i < |ys| && ys[i] == xs[0];
    var j :| 0 <= j < |xs| && xs[j] == ys[0];
    assert PairLe(ys[0], ys[i]) || i == 0;
    assert PairLe(xs[0], xs[j]) || j == 0;
    PairLeAntisymmetric(xs[0], ys[0]);
  }

  /** Two ascending arrangements of the same hands are the same: the order is total and antisymmetric. */
  lemma {:induction false} SortedUnique(xs: seq<Scored>, ys: seq<Scored>)
    requires Sorted(xs) && Sorted(ys) && multiset(xs) == multiset(ys)
    ensures xs == ys
    decreases |xs|
  {
    assert |ys| == |xs| by {
      assert |multiset(xs)| == |xs| && |multiset(ys)| == |ys|;
    }
    if xs != [] {
      SortedSameHead(xs, ys);
      var xt, yt := xs[1..], ys[1..];
      assert xs == [xs[0]] + xt && ys == [ys[0]] + yt;
      assert multiset(xt) == multiset(yt) by {
        assert multiset(xs) == multiset{xs[0]} + multiset(xt);
        assert multiset(ys) == multiset{xs[0]} + multiset(yt);
        forall z
          ensures multiset(xt)[z] == multiset(yt)[z]
        {
          assert multiset(xs)[z] == multiset{xs[0]}[z] + multiset(xt)[z];
          assert multiset(ys)[z] == multiset{xs[0]}[z] + multiset(yt)[z];
        }
      }
      assert Sorted(xt) && Sorted(yt) by {
        assert forall i | 0 <= i < |xt| :: xt[i] == xs[i + 1];
        assert forall i | 0 <= i < |yt| :: yt[i] == ys[i + 1];
      }
      SortedUnique(xt, yt);
    }
  }

  /** The winnings of an ascending list: the first hand has the highest rank, |hs|. */
  function RankSum(hs: seq<Scored>): nat
  {
    if hs == [] then 0 else hs[0].1 * |hs| + RankSum(hs[1..])
  }

  /** The winnings depend only on which hands there are, not on the order they are listed in. */
  lemma WinningsIgnoreOrder(xs: seq<Scored>, ys: seq<Scored>)
    requires multiset(xs) == multiset(ys)
    ensures RankSum(SortHands(xs)) == RankSum(SortHands(ys))
  {
    SortedUnique(SortHands(xs), SortHands(ys));
  }

  // Parsing and the answer.

  /** `parse_line`: five characters, blanks, the bid and a newline. */
  function ParseLine(s: seq<char>): (r: Option<((seq<char>, nat), seq<char>)>)
    ensures r.Some? ==> |r.value.0.0| == 5 && |r.value.1| < |s|
  {
    if |s| < 5 then None
    else
      match Space1(s[5..])
      case None => None
      case Some(r1) =>
        match ParseU32(r1)
        case None => None
        case Some((bid, r2)) =>
          match Newline(r2)
          case None => None
          case Some(r3) => Some(((s[..5], bid), r3))
  }

  /** Lines as long as they parse; `parse` (`many1`) is this list when it is not empty. */
  function ParseLines(s: seq<char>): (r: (seq<(seq<char>, nat)>, seq<char>))
    ensures forall i | 0 <= i < |r.0| :: |r.0[i].0| == 5
    decreases |s|
  {
    match ParseLine(s)
    case None => ([], s)
    case Some((line, rest)) =>
      var tail := ParseLines(rest);
      ([line] + tail.0, tail.1)
  }

  function Parse(s: seq<char>): (r: Option<seq<(seq<char>, nat)>>)
    ensures r.Some? ==> r.value != [] && forall i | 0 <= i < |r.value| :: |r.value[i].0| == 5
  {
    var lines := ParseLines(s).0;
    if lines == [] then None else Some(lines)
  }

  /** A line of the puzzle input: the five cards, one blank, the bid and a newline. */
  function ShowHandLine(line: (seq<char>, nat)): seq<char>
  {
    line.0 + ([' '] + (ShowNat(line.1) + ['\n']))
  }

  function ShowHands(lines: seq<(seq<char>, nat)>): seq<char>
  {
    if lines == [] then [] else ShowHandLine(lines[0]) + ShowHands(lines[1..])
  }

  predicate Printable(lines: seq<(seq<char>, nat)>)
  {
    forall i | 0 <= i < |lines| :: |lines[i].0| == 5 && lines[i].1 < U32_LIMIT
  }

  /** `parse_line` reads back a printed line, whatever the five characters are. */
  lemma ParseLineOfShow(line: (seq<char>, nat), rest: seq<char>)
    requires |line.0| == 5 && line.1 < U32_LIMIT
    ensures ParseLine(ShowHandLine(line) + rest) == Some((line, rest))
  {
    var num := ShowNat(line.1) + (['\n'] + rest);
    ShowHandLineSplit(line, rest);
    Space1OfBlank(num);
    ParseU32OfShowNat(line.1, ['\n'] + rest);
    ParseLineCons(ShowHandLine(line) + rest, num, line.1, ['\n'] + rest);
    assert (['\n'] + rest)[1..] == rest;
  }

  lemma ShowHandLineSplit(line: (seq<char>, nat), rest: seq<char>)
    requires |line.0| == 5
    ensures var s := ShowHandLine(line) + rest;
      |s| >= 5 && s[..5] == line.0 && s[5..] == [' '] + (ShowNat(line.1) + (['\n'] + rest))
  {
    var s := ShowHandLine(line) + rest;
    var num := ShowNat(line.1) + (['\n'] + rest);
    assert s == line.0 + ([' '] + num);
  }

  /** A line is five characters, blanks, a number and a newline. */
  lemma ParseLineCons(s: seq<char>, r1: seq<char>, bid: nat, r2: seq<char>)
    requires |s| >= 5 && Space1(s[5..]) == Some(r1) && ParseU32(r1) == Some((bid, r2))
    requires r2 != [] && r2[0] == '\n'
    ensures ParseLine(s) == Some(((s[..5], bid), r2[1..]))
  {
  }

  /** The line read from printed lines is the first one, and what is left is the printed rest. */
  lemma ParseLineOfShowHands(lines: seq<(seq<char>, nat)>)
    requires lines != [] && Printable(lines)
    ensures Printable(lines[1..]) && lines == [lines[0]] + lines[1..]
    ensures ParseLine(ShowHands(lines)) == Some((lines[0], ShowHands(lines[1..])))
  {
    PrintableTail(lines);
    assert ShowHands(lines) == ShowHandLine(lines[0]) + ShowHands(lines[1..]);
    ParseLineOfShow(lines[0], ShowHands(lines[1..]));
  }

  /** `parse` (`many1(parse_line)`) reads back every printed line and stops at the end of the input. */
  lemma {:induction false} ParseLinesOfShow(lines: seq<(seq<char>, nat)>)
    requires Printable(lines)
    ensures ParseLines(ShowHands(lines)) == (lines, [])
  {
    if lines != [] {
      var tail := lines[1..];
      ParseLineOfShowHands(lines);
      ParseLinesOfShow(tail);
      ParseLinesStep(ShowHands(lines), lines[0], ShowHands(tail), tail, []);
    }
  }

  lemma PrintableTail(lines: seq<(seq<char>, nat)>)
    requires lines != [] && Printable(lines)
    ensures |lines[0].0| == 5 && lines[0].1 < U32_LIMIT && Printable(lines[1..])
    ensures lines == [lines[0]] + lines[1..]
  {
    assert forall i | 0 <= i < |lines[1..]| :: lines[1..][i] == lines[i + 1];
  }

  lemma ParseLinesStep(s: seq<char>, line: (seq<char>, nat), rest: seq<char>, tail: seq<(seq<char>, nat)>, after: seq<char>)
    requires ParseLine(s) == Some((line, rest)) && ParseLines(rest) == (tail, after)
    ensures ParseLines(s) == ([line] + tail, after)
  {
  }

  lemma ParseOfShow(lines: seq<(seq<char>, nat)>)
    requires lines != [] && Printable(lines)
    ensures Parse(ShowHands(lines)) == Some(lines)
  {
    ParseLinesOfShow(lines);
  }

  /** The line of `test_parse`: "32T3K 765" parses to its cards and bid 765 with nothing left. */
  lemma ExampleLine()
    ensures ParseLine("32T3K 765\n") == Some(((['3', '2', 'T', '3', 'K'], 765), []))
  {
    ExampleLineText();
    ParseLineOfShow((['3', '2', 'T', '3', 'K'], 765), []);
    assert ShowHandLine((['3', '2', 'T', '3', 'K'], 765)) + [] == ShowHandLine((['3', '2', 'T', '3', 'K'], 765));
  }

  lemma ExampleLineText()
    ensures ShowHandLine((['3', '2', 'T', '3', 'K'], 765)) == "32T3K 765\n"
  {
    assert ShowNat(765) == ['7', '6', '5'];
  }

  /** The line of `test_parse2`: "T55J5 684" parses to its cards and bid 684. */
  lemma ExampleJokerLine()
    ensures ParseLine("T55J5 684\n") == Some(((['T', '5', '5', 'J', '5'], 684), []))
  {
    ExampleJokerLineText();
    ParseLineOfShow((['T', '5', '5', 'J', '5'], 684), []);
    assert ShowHandLine((['T', '5', '5', 'J', '5'], 684)) + [] == ShowHandLine((['T', '5', '5', 'J', '5'], 684));
  }

  lemma ExampleJokerLineText()
    ensures ShowHandLine((['T', '5', '5', 'J', '5'], 684)) == "T55J5 684\n"
  {
    assert ShowNat(684) == ['6', '8', '4'];
  }

  /** One line scored as `get_hand_score` scores it, with its bid; None where a card is unknown. */
  function ScoreLine(line: (seq<char>, nat), useJokers: bool): Option<Scored>
  {
    match ProcessHand(line.0, useJokers)
    case None => None
    case Some(hand) => Some(([HandKind(hand, useJokers)] + hand, line.1))
  }

  /** The hands as the loop of `proc` collects them, in the order of the lines; None when one line
      has an unknown card. */
  function ScoreAll(lines: seq<(seq<char>, nat)>, useJokers: bool): (r: Option<seq<Scored>>)
    ensures r.Some? <==> forall i | 0 <= i < |lines| :: ScoreLine(lines[i], useJokers).Some?
    ensures r.Some? ==> |r.value| == |lines| && forall i | 0 <= i < |lines| :: Some(r.value[i]) == ScoreLine(lines[i], useJokers)
  {
    var scored := seq(|lines|, i requires 0 <= i < |lines| => ScoreLine(lines[i], useJokers));
    assert forall i | 0 <= i < |lines| :: scored[i] == ScoreLine(lines[i], useJokers);
    if AllSome(scored) then Some(Values(scored)) else None
  }

  /** The body of the loop of `proc`: `process_hand`, then `get_hand_score`, beside the bid. */
  method ScoreOne(line: (seq<char>, nat), useJokers: bool) returns (r: Option<Scored>)
    ensures r == ScoreLine(line, useJokers)
  {
    var hand := ProcessHand(line.0, useJokers);
    if hand.None? {
      return None;
    }
    var handScore := GetHandScore(hand.value, useJokers);
    r := Some((handScore, line.1));
  }

  /** The loop of `proc` that scores and collects the hands. */
  method ScoreHands(lines: seq<(seq<char>, nat)>, useJokers: bool) returns (r: Option<seq<Scored>>)
    ensures r == ScoreAll(lines, useJokers)
  {
    var hands: seq<Scored> := [];
    for i := 0 to |lines|
      invariant |hands| == i
      invariant forall k | 0 <= k < i :: ScoreLine(lines[k], useJokers) == Some(hands[k])
    {
      var scored := ScoreOne(lines[i], useJokers);
      if scored.None? {
        ScoreAllFails(lines, i, useJokers);
        return None;
      }
      hands := hands + [scored.value];
    }
    ScoreAllOf(lines, hands, useJokers);
    r := Some(hands);
  }

  lemma ScoreAllFails(lines: seq<(seq<char>, nat)>, i: nat, useJokers: bool)
    requires i < |lines| && ScoreLine(lines[i], useJokers).None?
    ensures ScoreAll(lines, useJokers).None?
  {
  }

  lemma ScoreAllOf(lines: seq<(seq<char>, nat)>, hands: seq<Scored>, useJokers: bool)
    requires |hands| == |lines| && forall k | 0 <= k < |lines| :: ScoreLine(lines[k], useJokers) == Some(hands[k])
    ensures ScoreAll(lines, useJokers) == Some(hands)
  {
    var all := ScoreAll(lines, useJokers);
    assert all.Some?;
    forall k | 0 <= k < |lines|
      ensures all.value[k] == hands[k]
    {
      assert Some(all.value[k]) == ScoreLine(lines[k], useJokers);
    }
    assert all.value == hands;
  }

  /** A line scores exactly when its cards are known; its hand is its type followed by its cards. */
  lemma ScoreLineMeaning(line: (seq<char>, nat), useJokers: bool)
    ensures ScoreLine(line, useJokers).Some? <==> forall i | 0 <= i < |line.0| :: CardToInt(line.0[i], useJokers).Some?
    ensures ScoreLine(line, useJokers).Some? ==> var h := ScoreLine(line, useJokers).value;
      && |h.0| == |line.0| + 1 && h.1 == line.1
      && h.0[0] == HandKind(h.0[1..], useJokers) && h.0[0] <= 6
      && forall i | 0 <= i < |line.0| :: Some(h.0[i + 1]) == CardToInt(line.0[i], useJokers)
  {
  }

  /** The sum in `proc`: walking the sorted hands from the strongest, the i-th one (from 0) has rank i + 1. */
  method SumRanks(sorted: seq<Scored>) returns (total: nat)
    ensures total == RankSum(sorted)
  {
    var n := |sorted|;
    total := 0;
    for i := 0 to n
      invariant total == RankSum(sorted[n - i..])
    {
      assert sorted[n - i - 1..] == [sorted[n - i - 1]] + sorted[n - i..];
      total := total + sorted[n - 1 - i].1 * (i + 1);
    }
    assert sorted[n - n..] == sorted;
  }

  /** `proc`: scores every hand, sorts, and adds up each bid times its rank counted from the weakest hand. */
  method Proc(data: seq<char>, useJokers: bool) returns (r: Option<nat>)
    ensures r == match Parse(data)
      case None => None
      case Some(lines) =>
        match ScoreAll(lines, useJokers)
        case None => None
        case Some(hands) => Some(RankSum(SortHands(hands)))
  {
    var parsed := Parse(data);
    if parsed.None? {
      return None;
    }
    var hands := ScoreHands(parsed.value, useJokers);
    if hands.None? {
      return None;
    }
    var total := SumRanks(SortHands(hands.value));
    r := Some(total);
  }
}
