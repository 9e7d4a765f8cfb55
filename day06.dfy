/** Day 6: boat races. A race of time t is won by holding the button for x
    milliseconds when x * (t - x) beats the record distance d. */
module Day06 {
  import opened Common

  const U64_LIMIT: nat := 0x1_0000_0000_0000_0000

  predicate NotColon(c: char) { c != ':' }

  /** Every token is a non-empty run of digits. */
  predicate AllNumerals(toks: seq<seq<char>>)
  {
    forall i | 0 <= i < |toks| :: toks[i] != [] && AllDigits(toks[i])
  }

  lemma AllNumeralsTail(toks: seq<seq<char>>)
    requires toks != [] && AllNumerals(toks)
    ensures AllNumerals(toks[1..])
  {
    assert forall i | 0 <= i < |toks[1..]| :: toks[1..][i] == toks[i + 1];
  }

  lemma AllDigitsAppend(a: seq<char>, b: seq<char>)
    requires AllDigits(a) && AllDigits(b)
    ensures AllDigits(a + b)
  {
    assert forall i | 0 <= i < |a + b| :: (a + b)[i] == if i < |a| then a[i] else b[i - |a|];
  }

  /** `digit_parser`: any blanks (`many0(space1)`), then a run of digits. */
  function DigitParser(s: seq<char>): (r: Option<(seq<char>, seq<char>)>)
    ensures r.Some? ==> r.value.0 != [] && AllDigits(r.value.0) && |r.value.1| < |s|
    ensures r.Some? ==> r.value.1 == [] || !IsDigit(r.value.1[0])
  {
    Digit1(s[Span(s, IsSpace)..])
  }

  /** Repeated `digit_parser` until it fails; `many1` is this list when it is not empty. */
  function Numerals(s: seq<char>): (r: (seq<seq<char>>, seq<char>))
    ensures AllNumerals(r.0)
    ensures |r.1| <= |s|
    decreases |s|
  {
    var p := DigitParser(s);
    if p.None? then ([], s)
    else
      var tail := Numerals(p.value.1);
      ([p.value.0] + tail.0, tail.1)
  }

  /** `line_parser`: a non-empty caption up to the first ':', the colon, at least one numeral, then a newline. */
  function LineParser(s: seq<char>): (r: Option<(seq<seq<char>>, seq<char>)>)
    ensures r.Some? ==> r.value.0 != [] && AllNumerals(r.value.0) && |r.value.1| < |s|
  {
    var k := Span(s, NotColon);
    if k == 0 || k == |s| then None
    else
      var ns := Numerals(s[k + 1..]);
      if ns.0 == [] then None
      else
        match Newline(ns.1)
        case None => None
        case Some(r2) => Some((ns.0, r2))
  }

  /** `parse`: the line of times, then the line of distances. */
  function Parse(s: seq<char>): (r: Option<(seq<seq<char>>, seq<seq<char>>)>)
    ensures r.Some? ==> AllNumerals(r.value.0) && AllNumerals(r.value.1)
  {
    match LineParser(s)
    case None => None
    case Some((times, r1)) =>
      match LineParser(r1)
      case None => None
      case Some((dists, _)) => Some((times, dists))
  }

  /** `str::parse::<u64>` of a numeral; None where the source unwraps an overflow. */
  function ParseU64(tok: seq<char>): (r: Option<nat>)
    requires AllDigits(tok)
    ensures r.Some? <==> tok != [] && DecimalValue(tok) < U64_LIMIT
    ensures r.Some? ==> r.value == DecimalValue(tok)
  {
    if tok == [] then None
    else
      var v := DecimalValue(tok);
      if v < U64_LIMIT then Some(v) else None
  }

  /** `process_input_part_one`: every numeral on its own. */
  function PartOne(toks: seq<seq<char>>): (r: Option<seq<nat>>)
    requires AllNumerals(toks)
    ensures r.Some? <==> forall i | 0 <= i < |toks| :: DecimalValue(toks[i]) < U64_LIMIT
    ensures r.Some? ==> |r.value| == |toks| && forall i | 0 <= i < |toks| :: r.value[i] == DecimalValue(toks[i])
  {
    if toks == [] then Some([])
    else
      AllNumeralsTail(toks);
      match (ParseU64(toks[0]), PartOne(toks[1..]))
      case (Some(v), Some(vs)) => Some([v] + vs)
      case _ =>
        assert forall i | 0 <= i < |toks[1..]| :: toks[1..][i] == toks[i + 1];
        None
  }

  /** `join("")` of the numerals. */
  function Join(toks: seq<seq<char>>): (s: seq<char>)
    requires AllNumerals(toks)
    ensures AllDigits(s)
    ensures toks != [] ==> s != []
  {
    if toks == [] then []
    else
      AllNumeralsTail(toks);
      AllDigitsAppend(toks[0], Join(toks[1..]));
      toks[0] + Join(toks[1..])
  }

  /** `process_input_part_two`: the numerals read as one number, kerning away the blanks. */
  function PartTwo(toks: seq<seq<char>>): (r: Option<nat>)
    requires AllNumerals(toks)
    ensures r.Some? <==> toks != [] && DecimalValue(Join(toks)) < U64_LIMIT
    ensures r.Some? ==> r.value == DecimalValue(Join(toks))
  {
    ParseU64(Join(toks))
  }

  function Pow10(n: nat): (p: nat)
    ensures p >= 1
  {
    if n == 0 then 1 else 10 * Pow10(n - 1)
  }

  /** Writing b after a shifts a by the length of b. */
  lemma {:induction false} DecimalValueAppend(a: seq<char>, b: seq<char>)
    requires AllDigits(a) && AllDigits(b)
    ensures AllDigits(a + b) && DecimalValue(a + b) == DecimalValue(a) * Pow10(|b|) + DecimalValue(b)
    decreases |b|
  {
    AllDigitsAppend(a, b);
    if b == [] {
      assert a + b == a;
    } else {
      var b' := b[..|b| - 1];
      assert (a + b)[..|a + b| - 1] == a + b';
      DecimalValueAppend(a, b');
      assert DecimalValue(a + b) == DecimalValue(a + b') * 10 + DigitValue(b[|b| - 1]);
      assert DecimalValue(b) == DecimalValue(b') * 10 + DigitValue(b[|b| - 1]);
      assert Pow10(|b|) == 10 * Pow10(|b'|);
      Shift(DecimalValue(a), Pow10(|b'|), DecimalValue(b'), DigitValue(b[|b| - 1]));
    }
  }

  lemma Shift(v: nat, p: nat, w: nat, g: nat)
    ensures (v * p + w) * 10 + g == v * (10 * p) + (w * 10 + g)
  {
  }

  /** Part two reads the first numeral and shifts it past the digits of all the others. */
  lemma PartTwoShifts(toks: seq<seq<char>>)
    requires toks != [] && AllNumerals(toks)
    ensures AllNumerals(toks[1..])
    ensures DecimalValue(Join(toks)) == DecimalValue(toks[0]) * Pow10(|Join(toks[1..])|) + DecimalValue(Join(toks[1..]))
  {
    AllNumeralsTail(toks);
    DecimalValueAppend(toks[0], Join(toks[1..]));
  }

  /** For a single numeral both readings agree. */
  lemma PartsAgreeOnOne(tok: seq<char>)
    requires tok != [] && AllDigits(tok) && DecimalValue(tok) < U64_LIMIT
    ensures PartOne([tok]) == Some([DecimalValue(tok)]) && PartTwo([tok]) == Some(DecimalValue(tok))
  {
    assert [tok][1..] == [];
    assert PartOne([tok][1..]) == Some([]);
    assert ParseU64(tok) == Some(DecimalValue(tok));
    assert [DecimalValue(tok)] + [] == [DecimalValue(tok)];
    assert Join([tok]) == tok + [] == tok;
  }

  // Counting the ways to win.

  /** Holding for x of t milliseconds travels x * (t - x), `t * x - x.pow(2)` in the source. */
  predicate Beats(t: nat, d: nat, x: nat)
    requires x <= t
  {
    x * (t - x) > d
  }

  /** The number of x below n that beat the record. */
  function WinCount(t: nat, d: nat, n: nat): (c: nat)
    requires n <= t
    ensures c <= n
  {
    if n == 0 then 0 else WinCount(t, d, n - 1) + (if Beats(t, d, n - 1) then 1 else 0)
  }

  /** `calc_brute_force`: the count over 0 .. t, cast to u32. */
  function CalcBruteForce(t: nat, d: nat): (r: nat)
    ensures r < U32_LIMIT
  {
    WinCount(t, d, t) % U32_LIMIT
  }

  /** Holding for no time never wins, so at most t - 1 holds do. */
  lemma {:induction false} WinCountBound(t: nat, d: nat, n: nat)
    requires 1 <= n <= t
    ensures WinCount(t, d, n) <= n - 1
  {
    if n > 1 {
      WinCountBound(t, d, n - 1);
    }
  }

  /** Holding for x wins exactly when holding for t - x does. */
  lemma BeatsSymmetric(t: nat, d: nat, x: nat)
    requires x <= t
    ensures Beats(t, d, x) <==> Beats(t, d, t - x)
  {
    assert (t - x) * (t - (t - x)) == x * (t - x);
  }

  /** The winning holds form an interval: between two winning holds every hold wins. */
  lemma BeatsInterval(t: nat, d: nat, x: nat, z: nat, y: nat)
    requires x <= z <= y <= t
    requires Beats(t, d, x) && Beats(t, d, y)
    ensures Beats(t, d, z)
  {
    var a, b, c, T := x as int, y as int, z as int, t as int;
    if a + c <= T {
      assert c * (T - c) - a * (T - a) == (c - a) * (T - c - a);
      assert (c - a) * (T - c - a) >= 0;
    } else {
      assert c * (T - c) - b * (T - b) == (b - c) * (b + c - T);
      assert (b - c) * (b + c - T) >= 0;
    }
  }

  /** The count of x below n that lie in [a, b]. */
  lemma {:induction false} WinCountOfInterval(t: nat, d: nat, n: nat, a: nat, b: nat)
    requires n <= t && a <= b + 1
    requires forall x: nat | x < n :: Beats(t, d, x) <==> a <= x <= b
    ensures WinCount(t, d, n) == if n <= a then 0 else if n <= b + 1 then n - a else b + 1 - a
  {
    if n > 0 {
      WinCountOfInterval(t, d, n - 1, a, b);
    }
  }

  /** When the winning holds run from a to b, the count is b - a + 1. */
  lemma CountOfWinningRun(t: nat, d: nat, a: nat, b: nat)
    requires a <= b < t
    requires Beats(t, d, a) && Beats(t, d, b)
    requires a == 0 || !Beats(t, d, a - 1)
    requires b + 1 == t || !Beats(t, d, b + 1)
    ensures WinCount(t, d, t) == b - a + 1
  {
    forall x: nat | x < t
      ensures Beats(t, d, x) <==> a <= x <= b
    {
      if x < a && Beats(t, d, x) {
        BeatsInterval(t, d, x, a - 1, b);
      }
      if b < x && Beats(t, d, x) {
        BeatsInterval(t, d, a, b + 1, x);
      }
      if a <= x <= b {
        BeatsInterval(t, d, a, x, b);
      }
    }
    WinCountOfInterval(t, d, t, a, b);
  }

  lemma ExampleSeven()
    ensures CalcBruteForce(7, 9) == 4
  {
    CountOfWinningRun(7, 9, 2, 5);
  }

  lemma ExampleFifteen()
    ensures CalcBruteForce(15, 40) == 8
  {
    CountOfWinningRun(15, 40, 4, 11);
  }

  lemma ExampleThirty()
    ensures CalcBruteForce(30, 200) == 9
  {
    CountOfWinningRun(30, 200, 11, 19);
  }

  // The answers.

  /** The product over the races paired by `zip`, which stops at the shorter list. */
  function Product(ts: seq<nat>, ds: seq<nat>): nat
  {
    if ts == [] || ds == [] then 1 else CalcBruteForce(ts[0], ds[0]) * Product(ts[1..], ds[1..])
  }

  /** The product is zero exactly when some paired race has no winning hold (modulo the u32 cast). */
  lemma {:induction false} ProductZero(ts: seq<nat>, ds: seq<nat>)
    ensures Product(ts, ds) == 0 <==> exists i | 0 <= i < |ts| && i < |ds| :: CalcBruteForce(ts[i], ds[i]) == 0
  {
    if ts != [] && ds != [] {
      ProductZero(ts[1..], ds[1..]);
      if exists i | 0 <= i < |ts[1..]| && i < |ds[1..]| :: CalcBruteForce(ts[1..][i], ds[1..][i]) == 0 {
        var i :| 0 <= i < |ts[1..]| && i < |ds[1..]| && CalcBruteForce(ts[1..][i], ds[1..][i]) == 0;
        assert CalcBruteForce(ts[i + 1], ds[i + 1]) == 0;
      }
      if exists i | 0 <= i < |ts| && i < |ds| :: CalcBruteForce(ts[i], ds[i]) == 0 {
        var i :| 0 <= i < |ts| && i < |ds| && CalcBruteForce(ts[i], ds[i]) == 0;
        if i > 0 {
          assert CalcBruteForce(ts[1..][i - 1], ds[1..][i - 1]) == 0;
        }
      }
    }
  }

  /** `proc_1`: the product of the ways to win each race; None where the source unwraps a failure. */
  function Proc1(data: seq<char>): (r: Option<nat>)
    ensures r.Some? <==> (Parse(data).Some? &&
      PartOne(Parse(data).value.0).Some? && PartOne(Parse(data).value.1).Some?)
    ensures r.Some? ==> r.value == Product(PartOne(Parse(data).value.0).value, PartOne(Parse(data).value.1).value)
  {
    match Parse(data)
    case None => None
    case Some((times, dists)) =>
      match (PartOne(times), PartOne(dists))
      case (Some(ts), Some(ds)) => Some(Product(ts, ds))
      case _ => None
  }

  /** `proc_2` and `proc_2_brute_force`: one race, read from the numerals with the blanks taken out. */
  function Proc2(data: seq<char>): (r: Option<nat>)
    ensures r.Some? <==> (Parse(data).Some? &&
      PartTwo(Parse(data).value.0).Some? && PartTwo(Parse(data).value.1).Some?)
    ensures r.Some? ==> r.value == CalcBruteForce(PartTwo(Parse(data).value.0).value, PartTwo(Parse(data).value.1).value)
  {
    match Parse(data)
    case None => None
    case Some((times, dists)) =>
      match (PartTwo(times), PartTwo(dists))
      case (Some(t), Some(d)) => Some(CalcBruteForce(t, d))
      case _ => None
  }

  // Reading a printed sheet back.

  /** The numerals of a padded list, each as ShowNat prints it. */
  function Shown(es: seq<(nat, nat)>): (toks: seq<seq<char>>)
    ensures |toks| == |es| && forall i | 0 <= i < |es| :: toks[i] == ShowNat(es[i].1)
  {
    if es == [] then [] else [ShowNat(es[0].1)] + Shown(es[1..])
  }

  /** What follows a list of numerals without continuing it. */
  predicate StopsNumerals(rest: seq<char>)
  {
    rest == [] || (!IsSpace(rest[0]) && !IsDigit(rest[0]))
  }

  lemma {:induction false} NumeralsOfShow(es: seq<(nat, nat)>, rest: seq<char>)
    requires StopsNumerals(rest)
    ensures Numerals(ShowPadded(es) + rest) == (Shown(es), rest)
  {
    if es == [] {
      assert Span(rest, IsSpace) == 0;
      assert rest[0..] == rest;
    } else {
      var tail := ShowPadded(es[1..]) + rest;
      NumeralsOfShow(es[1..], rest);
      ShowPaddedSplit(es, rest);
      var n := ShowNat(es[0].1);
      var s := Blanks(es[0].0 + 1) + (n + tail);
      SpanOfConcat(Blanks(es[0].0 + 1), n + tail, IsSpace);
      assert s[|Blanks(es[0].0 + 1)|..] == n + tail;
      assert tail == [] || !IsDigit(tail[0]) by {
        if es[1..] != [] {
          assert tail[0] == ' ';
        }
      }
      SpanOfConcat(n, tail, IsDigit);
      assert (n + tail)[..|n|] == n && (n + tail)[|n|..] == tail;
      assert DigitParser(s) == Some((n, tail));
    }
  }

  /** A caption without colons, a colon, padded numbers and a newline. */
  function ShowLine(caption: seq<char>, es: seq<(nat, nat)>): seq<char>
  {
    caption + ([':'] + (ShowPadded(es) + "\n"))
  }

  lemma LineParserStep(s: seq<char>, k: nat, body: seq<char>, toks: seq<seq<char>>, rest: seq<char>)
    requires 0 < k < |s| && Span(s, NotColon) == k && s[k + 1..] == body
    requires Numerals(body) == (toks, "\n" + rest) && toks != []
    ensures LineParser(s) == Some((toks, rest))
  {
    assert ("\n" + rest)[1..] == rest;
  }

  lemma CaptionColon(caption: seq<char>, body: seq<char>)
    requires forall i | 0 <= i < |caption| :: NotColon(caption[i])
    ensures Span(caption + ([':'] + body), NotColon) == |caption|
    ensures (caption + ([':'] + body))[|caption| + 1..] == body
  {
    var tail := [':'] + body;
    assert !NotColon(tail[0]);
    SpanOfConcat(caption, tail, NotColon);
    assert (caption + tail)[|caption|..] == tail;
    assert tail[1..] == body;
  }

  lemma LineParserOfShow(caption: seq<char>, es: seq<(nat, nat)>, rest: seq<char>)
    requires caption != [] && forall i | 0 <= i < |caption| :: NotColon(caption[i])
    requires es != []
    ensures LineParser(ShowLine(caption, es) + rest) == Some((Shown(es), rest))
  {
    var body := ShowPadded(es) + ("\n" + rest);
    var s := caption + ([':'] + body);
    assert ShowLine(caption, es) + rest == s;
    NumeralsOfShow(es, "\n" + rest);
    CaptionColon(caption, body);
    LineParserStep(s, |caption|, body, Shown(es), rest);
  }

  /** A printed sheet parses back to the numerals of both lines. */
  lemma ParseOfShow(tl: seq<char>, times: seq<(nat, nat)>, dl: seq<char>, dists: seq<(nat, nat)>)
    requires tl != [] && forall i | 0 <= i < |tl| :: NotColon(tl[i])
    requires dl != [] && forall i | 0 <= i < |dl| :: NotColon(dl[i])
    requires times != [] && dists != []
    ensures Parse(ShowLine(tl, times) + ShowLine(dl, dists)) == Some((Shown(times), Shown(dists)))
  {
    LineParserOfShow(tl, times, ShowLine(dl, dists));
    LineParserOfShow(dl, dists, []);
    assert ShowLine(dl, dists) + [] == ShowLine(dl, dists);
  }

  /** Numbers below 2^64 printed on a sheet come back from `process_input_part_one`. */
  lemma PartOneOfShown(es: seq<(nat, nat)>)
    requires forall i | 0 <= i < |es| :: es[i].1 < U64_LIMIT
    ensures AllNumerals(Shown(es))
    ensures PartOne(Shown(es)) == Some(PaddedValues(es))
  {
    forall i | 0 <= i < |es|
      ensures DecimalValue(Shown(es)[i]) == es[i].1
    {
      DecimalValueOfShowNat(es[i].1);
    }
    var r := PartOne(Shown(es));
    assert r.value == PaddedValues(es);
  }
}
