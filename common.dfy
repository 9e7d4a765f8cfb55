/** Shared vocabulary of the puzzle solutions: an option type, character
    classes, decimal numerals, and the handful of text primitives every
    parser is written with (a maximal digit run, a literal prefix, a run of
    blanks, a run of letters, and Rust's line splitting). */
module Common {

  datatype Option<T> = None | Some(value: T)

  /** 2^32: one past the largest u32. */
  const U32_LIMIT: nat := 0x1_0000_0000

  predicate IsDigit(c: char) { '0' <= c <= '9' }

  predicate IsAlpha(c: char) { 'a' <= c <= 'z' || 'A' <= c <= 'Z' }

  /** The blanks that nom's `space1` accepts. */
  predicate IsSpace(c: char) { c == ' ' || c == '\t' }

  predicate IsHexDigit(c: char) { IsDigit(c) || 'a' <= c <= 'f' || 'A' <= c <= 'F' }

  predicate AllDigits(s: seq<char>) { forall i | 0 <= i < |s| :: IsDigit(s[i]) }

  predicate AllAlpha(s: seq<char>) { forall i | 0 <= i < |s| :: IsAlpha(s[i]) }

  function DigitValue(c: char): (d: nat)
    requires IsDigit(c)
    ensures d < 10
  {
    c as int - '0' as int
  }

  function DigitChar(d: nat): (c: char)
    requires d < 10
    ensures IsDigit(c) && DigitValue(c) == d
  {
    ('0' as int + d) as char
  }

  /** The value of a decimal numeral, most significant digit first. */
  function DecimalValue(ds: seq<char>): nat
    requires AllDigits(ds)
  {
    if ds == [] then 0 else DecimalValue(ds[..|ds| - 1]) * 10 + DigitValue(ds[|ds| - 1])
  }

  /** The decimal numeral of n without leading zeros. */
  function ShowNat(n: nat): (s: seq<char>)
    ensures |s| > 0 && AllDigits(s)
  {
    if n < 10 then [DigitChar(n)] else ShowNat(n / 10) + [DigitChar(n % 10)]
  }

  lemma {:induction false} DecimalValueOfShowNat(n: nat)
    ensures DecimalValue(ShowNat(n)) == n
  {
    if n >= 10 {
      var s := ShowNat(n);
      assert s[..|s| - 1] == ShowNat(n / 10);
      DecimalValueOfShowNat(n / 10);
    }
  }

  /** Length of the longest prefix of s whose characters all satisfy p. */
  function Span(s: seq<char>, p: char -> bool): (k: nat)
    ensures k <= |s|
    ensures forall i | 0 <= i < k :: p(s[i])
    ensures k < |s| ==> !p(s[k])
  {
    if s == [] || !p(s[0]) then 0 else 1 + Span(s[1..], p)
  }

  lemma {:induction false} SpanOfConcat(a: seq<char>, b: seq<char>, p: char -> bool)
    requires forall i | 0 <= i < |a| :: p(a[i])
    requires b == [] || !p(b[0])
    ensures Span(a + b, p) == |a|
  {
    if a != [] {
      assert (a + b)[1..] == a[1..] + b;
      SpanOfConcat(a[1..], b, p);
    }
  }

  /** nom's `digit1`: the maximal non-empty run of ASCII digits. */
  function Digit1(s: seq<char>): (r: Option<(seq<char>, seq<char>)>)
    ensures r.Some? <==> s != [] && IsDigit(s[0])
    ensures r.Some? ==> r.value.0 != [] && AllDigits(r.value.0) && s == r.value.0 + r.value.1
    ensures r.Some? ==> r.value.1 == [] || !IsDigit(r.value.1[0])
  {
    var k := Span(s, IsDigit);
    if k == 0 then None else Some((s[..k], s[k..]))
  }

  /** `digit1` followed by `str::parse::<u32>`, which fails on values of 2^32 and above. */
  function ParseU32(s: seq<char>): (r: Option<(nat, seq<char>)>)
    ensures r.Some? ==> r.value.0 < U32_LIMIT && |r.value.1| < |s|
    ensures r.Some? ==> exists k :: 0 < k <= |s| && AllDigits(s[..k]) && r.value == (DecimalValue(s[..k]), s[k..])
  {
    match Digit1(s)
    case None => None
    case Some((ds, rest)) =>
      var v := DecimalValue(ds);
      assert ds == s[..|ds|] && rest == s[|ds|..];
      if v < U32_LIMIT then Some((v, rest)) else None
  }

  /** A numeral written by ShowNat and followed by a non-digit parses back to its value. */
  lemma ParseU32OfShowNat(n: nat, rest: seq<char>)
    requires n < U32_LIMIT
    requires rest == [] || !IsDigit(rest[0])
    ensures ParseU32(ShowNat(n) + rest) == Some((n, rest))
  {
    SpanOfConcat(ShowNat(n), rest, IsDigit);
    assert (ShowNat(n) + rest)[..|ShowNat(n)|] == ShowNat(n);
    assert (ShowNat(n) + rest)[|ShowNat(n)|..] == rest;
    DecimalValueOfShowNat(n);
  }

  /** nom's `tag`: strips the literal prefix t. */
  function Tag(t: seq<char>, s: seq<char>): (r: Option<seq<char>>)
    ensures r.Some? <==> |t| <= |s| && s[..|t|] == t
    ensures r.Some? ==> s == t + r.value
  {
    if |t| <= |s| && s[..|t|] == t then Some(s[|t|..]) else None
  }

  /** nom's `space1`: one or more blanks. */
  function Space1(s: seq<char>): (r: Option<seq<char>>)
    ensures r.Some? <==> s != [] && IsSpace(s[0])
    ensures r.Some? ==> |r.value| < |s| && s[|s| - |r.value|..] == r.value
    ensures r.Some? ==> r.value == [] || !IsSpace(r.value[0])
  {
    var k := Span(s, IsSpace);
    if k == 0 then None else Some(s[k..])
  }

  /** nom's `alpha1`: the maximal non-empty run of ASCII letters. */
  function Alpha1(s: seq<char>): (r: Option<(seq<char>, seq<char>)>)
    ensures r.Some? <==> s != [] && IsAlpha(s[0])
    ensures r.Some? ==> r.value.0 != [] && AllAlpha(r.value.0) && s == r.value.0 + r.value.1
    ensures r.Some? ==> r.value.1 == [] || !IsAlpha(r.value.1[0])
  {
    var k := Span(s, IsAlpha);
    if k == 0 then None else Some((s[..k], s[k..]))
  }

  lemma TagOfConcat(t: seq<char>, rest: seq<char>)
    ensures Tag(t, t + rest) == Some(rest)
  {
    assert (t + rest)[..|t|] == t;
    assert (t + rest)[|t|..] == rest;
  }

  lemma Space1OfBlank(rest: seq<char>)
    requires rest == [] || !IsSpace(rest[0])
    ensures Space1([' '] + rest) == Some(rest)
  {
    assert ([' '] + rest)[1..] == rest;
    assert Span([' '] + rest, IsSpace) == 1;
  }

  lemma Alpha1OfConcat(w: seq<char>, rest: seq<char>)
    requires w != [] && AllAlpha(w)
    requires rest == [] || !IsAlpha(rest[0])
    ensures Alpha1(w + rest) == Some((w, rest))
  {
    SpanOfConcat(w, rest, IsAlpha);
    assert (w + rest)[..|w|] == w;
    assert (w + rest)[|w|..] == rest;
  }

  lemma Digit1OfConcat(ds: seq<char>, rest: seq<char>)
    requires ds != [] && AllDigits(ds)
    requires rest == [] || !IsDigit(rest[0])
    ensures Digit1(ds + rest) == Some((ds, rest))
  {
    SpanOfConcat(ds, rest, IsDigit);
    assert (ds + rest)[..|ds|] == ds;
    assert (ds + rest)[|ds|..] == rest;
  }

  /** nom's `newline`. */
  function Newline(s: seq<char>): (r: Option<seq<char>>)
    ensures r.Some? <==> s != [] && s[0] == '\n'
    ensures r.Some? ==> r.value == s[1..]
  {
    if s != [] && s[0] == '\n' then Some(s[1..]) else None
  }

  /** Index of the first '\n' in s, or |s| when there is none. */
  function LineEnd(s: seq<char>): (k: nat)
    ensures k <= |s|
    ensures forall i | 0 <= i < k :: s[i] != '\n'
    ensures k < |s| ==> s[k] == '\n'
  {
    if s == [] || s[0] == '\n' then 0 else 1 + LineEnd(s[1..])
  }

  /** Drops one trailing carriage return, as Rust's `str::lines` does. */
  function StripCR(l: seq<char>): seq<char>
  {
    if l != [] && l[|l| - 1] == '\r' then l[..|l| - 1] else l
  }

  /** Rust's `str::lines`: split at '\n', with no empty line after a final '\n'. */
  function Lines(s: seq<char>): (ls: seq<seq<char>>)
    ensures s == [] <==> ls == []
    decreases |s|
  {
    if s == [] then []
    else
      var k := LineEnd(s);
      if k == |s| then [StripCR(s)] else [StripCR(s[..k])] + Lines(s[k + 1..])
  }

  predicate IsLine(l: seq<char>)
  {
    (forall i | 0 <= i < |l| :: l[i] != '\n') && (l == [] || l[|l| - 1] != '\r')
  }

  /** Every line followed by '\n': the text a file of those lines holds. */
  function UnLines(ls: seq<seq<char>>): seq<char>
  {
    if ls == [] then [] else ls[0] + "\n" + UnLines(ls[1..])
  }

  lemma LineEndOfConcat(l: seq<char>, rest: seq<char>)
    requires forall i | 0 <= i < |l| :: l[i] != '\n'
    ensures LineEnd(l + "\n" + rest) == |l|
  {
    if l != [] {
      assert (l + "\n" + rest)[1..] == l[1..] + "\n" + rest;
      LineEndOfConcat(l[1..], rest);
    }
  }

  /** Splitting a '\n'-terminated text gives back its lines. */
  lemma {:induction false} LinesOfUnLines(ls: seq<seq<char>>)
    requires forall j | 0 <= j < |ls| :: IsLine(ls[j])
    ensures Lines(UnLines(ls)) == ls
  {
    if ls != [] {
      var s := UnLines(ls);
      var rest := UnLines(ls[1..]);
      assert s == ls[0] + "\n" + rest;
      LineEndOfConcat(ls[0], rest);
      assert s[..|ls[0]|] == ls[0];
      assert s[|ls[0]| + 1..] == rest;
      LinesOfUnLines(ls[1..]);
    }
  }

  /** A non-empty sequence is its head followed by its tail. */
  lemma HeadTail<T>(xs: seq<T>)
    requires xs != []
    ensures [xs[0]] + xs[1..] == xs
  {
  }

  lemma PrefixStep<T>(xs: seq<T>, i: nat)
    requires i < |xs|
    ensures xs[..i + 1] == xs[..i] + [xs[i]]
  {
  }

  /** A subset is no larger than its superset. */
  lemma {:induction false} SubsetCard<T>(a: set<T>, b: set<T>)
    requires a <= b
    ensures |a| <= |b|
    decreases a
  {
    if a != {} {
      var x :| x in a;
      SubsetCard(a - {x}, b - {x});
    }
  }

  /** Moving the head of xs onto the end of an accumulator. */
  lemma AccStep<T>(acc: seq<T>, xs: seq<T>)
    requires xs != []
    ensures acc + xs == (acc + [xs[0]]) + xs[1..]
  {
  }

  lemma AppendAssoc<T>(a: seq<T>, b: seq<T>, c: seq<T>)
    ensures (a + b) + c == a + (b + c)
  {
  }

  function Sum(xs: seq<int>): int
  {
    if xs == [] then 0 else xs[0] + Sum(xs[1..])
  }

  lemma {:induction false} SumAppend(xs: seq<int>, x: int)
    ensures Sum(xs + [x]) == Sum(xs) + x
  {
    if xs != [] {
      assert (xs + [x])[1..] == xs[1..] + [x];
      SumAppend(xs[1..], x);
    }
  }

  predicate AllSome<T>(xs: seq<Option<T>>)
  {
    forall i | 0 <= i < |xs| :: xs[i].Some?
  }

  function Values<T>(xs: seq<Option<T>>): (vs: seq<T>)
    requires AllSome(xs)
    ensures |vs| == |xs| && forall i | 0 <= i < |xs| :: xs[i] == Some(vs[i])
  {
    if xs == [] then [] else [xs[0].value] + Values(xs[1..])
  }

  lemma {:induction false} ValuesAppend<T>(xs: seq<Option<T>>, x: Option<T>)
    requires AllSome(xs) && x.Some?
    ensures AllSome(xs + [x]) && Values(xs + [x]) == Values(xs) + [x.value]
  {
    if xs != [] {
      assert (xs + [x])[1..] == xs[1..] + [x];
      ValuesAppend(xs[1..], x);
    }
  }

  /** `.map(|x| f(x).unwrap()).sum()`: None as soon as one of the terms is missing. */
  function SumOf(xs: seq<Option<int>>): (r: Option<int>)
    ensures r.Some? <==> AllSome(xs)
  {
    if AllSome(xs) then Some(Sum(Values(xs))) else None
  }

  function Max(a: int, b: int): int { if a < b then b else a }

  function Min(a: int, b: int): int { if a < b then a else b }

  /** `separated_list1(space1, u32)`: one number, then blanks and a number as long as both are there. */
  function U32List(s: seq<char>): (r: Option<(seq<nat>, seq<char>)>)
    ensures r.Some? ==> |r.value.0| >= 1 && |r.value.1| < |s|
  {
    match ParseU32(s)
    case None => None
    case Some((n, r1)) =>
      var tail := U32ListTail(r1);
      Some(([n] + tail.0, tail.1))
  }

  function U32ListTail(s: seq<char>): (r: (seq<nat>, seq<char>))
    ensures |r.1| <= |s|
    decreases |s|
  {
    match Space1(s)
    case None => ([], s)
    case Some(r1) =>
      match ParseU32(r1)
      case None => ([], s)
      case Some((n, r2)) =>
        var tail := U32ListTail(r2);
        ([n] + tail.0, tail.1)
  }

  /** n blanks. */
  function Blanks(n: nat): (b: seq<char>)
    ensures |b| == n && forall i | 0 <= i < n :: b[i] == ' '
  {
    seq(n, _ => ' ')
  }

  /** A list of numbers, each after 1 + gap blanks, so that narrow numbers may be padded. */
  function ShowPadded(es: seq<(nat, nat)>): (s: seq<char>)
    ensures s == [] <==> es == []
    ensures s != [] ==> s[0] == ' '
  {
    if es == [] then [] else Blanks(es[0].0 + 1) + ShowNat(es[0].1) + ShowPadded(es[1..])
  }

  function PaddedValues(es: seq<(nat, nat)>): (ns: seq<nat>)
    ensures |ns| == |es| && forall i | 0 <= i < |es| :: ns[i] == es[i].1
  {
    if es == [] then [] else [es[0].1] + PaddedValues(es[1..])
  }

  predicate FitsU32(es: seq<(nat, nat)>)
  {
    forall i | 0 <= i < |es| :: es[i].1 < U32_LIMIT
  }

  /** What may follow a list of numbers without being read as part of it. */
  predicate EndsList(rest: seq<char>)
  {
    U32ListTail(rest) == ([], rest) && (rest == [] || !IsDigit(rest[0]))
  }

  lemma Space1OfBlanks(n: nat, rest: seq<char>)
    requires n > 0
    requires rest == [] || !IsSpace(rest[0])
    ensures Space1(Blanks(n) + rest) == Some(rest)
  {
    SpanOfConcat(Blanks(n), rest, IsSpace);
    assert (Blanks(n) + rest)[n..] == rest;
  }

  lemma ShowPaddedSplit(es: seq<(nat, nat)>, rest: seq<char>)
    requires es != []
    ensures ShowPadded(es) + rest == Blanks(es[0].0 + 1) + (ShowNat(es[0].1) + (ShowPadded(es[1..]) + rest))
  {
    var a, b, c := Blanks(es[0].0 + 1), ShowNat(es[0].1), ShowPadded(es[1..]);
    assert ShowPadded(es) == a + b + c;
    AppendAssoc(a + b, c, rest);
    AppendAssoc(a, b, c + rest);
  }

  lemma U32ListTailCons(gap: nat, n: nat, after: seq<char>, ns: seq<nat>, rest: seq<char>)
    requires n < U32_LIMIT
    requires after == [] || !IsDigit(after[0])
    requires U32ListTail(after) == (ns, rest)
    ensures U32ListTail(Blanks(gap + 1) + (ShowNat(n) + after)) == ([n] + ns, rest)
  {
    Space1OfBlanks(gap + 1, ShowNat(n) + after);
    ParseU32OfShowNat(n, after);
  }

  lemma {:induction false} U32ListTailOfShow(es: seq<(nat, nat)>, rest: seq<char>)
    requires FitsU32(es) && EndsList(rest)
    ensures U32ListTail(ShowPadded(es) + rest) == (PaddedValues(es), rest)
    ensures ShowPadded(es) + rest == [] || !IsDigit((ShowPadded(es) + rest)[0])
  {
    if es != [] {
      U32ListTailOfShow(es[1..], rest);
      ShowPaddedSplit(es, rest);
      U32ListTailCons(es[0].0, es[0].1, ShowPadded(es[1..]) + rest, PaddedValues(es[1..]), rest);
      assert PaddedValues(es) == [es[0].1] + PaddedValues(es[1..]);
      assert (ShowPadded(es) + rest)[0] == ' ';
    } else {
      assert ShowPadded(es) + rest == rest;
    }
  }

  /** A printed list of numbers is read back by `separated_list1`, stopping where the list ends. */
  lemma U32ListOfShow(es: seq<(nat, nat)>, rest: seq<char>)
    requires es != [] && FitsU32(es) && EndsList(rest)
    ensures U32List(ShowNat(es[0].1) + (ShowPadded(es[1..]) + rest)) == Some((PaddedValues(es), rest))
  {
    U32ListTailOfShow(es[1..], rest);
    ParseU32OfShowNat(es[0].1, ShowPadded(es[1..]) + rest);
  }

  lemma EndsListAtOther(rest: seq<char>)
    requires rest == [] || (!IsSpace(rest[0]) && !IsDigit(rest[0]))
    ensures EndsList(rest)
  {
  }

  /** Blanks and then a printed list of numbers: `space1` followed by `separated_list1(space1, u32)`. */
  lemma BlanksThenList(es: seq<(nat, nat)>, rest: seq<char>) returns (r: seq<char>)
    requires es != [] && FitsU32(es) && EndsList(rest)
    ensures Space1(ShowPadded(es) + rest) == Some(r) && U32List(r) == Some((PaddedValues(es), rest))
  {
    r := ShowNat(es[0].1) + (ShowPadded(es[1..]) + rest);
    ShowPaddedSplit(es, rest);
    Space1OfBlanks(es[0].0 + 1, r);
    U32ListOfShow(es, rest);
  }
}
