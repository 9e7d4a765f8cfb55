/** Day 9: extrapolating a sequence by repeated differences. The next value is
    the sum of the last elements of the sequence and of each difference row,
    down to the first row that is all zeros. */
module Day09 {
  import opened Common

  /** 2^31: the magnitude bound of an i32 that `str::parse::<i32>` accepts from a run of digits. */
  const I32_LIMIT: int := 0x8000_0000

  /** A run of digits read as a non-negative i32, as `str::parse::<i32>` does with it. */
  function Unsigned(s: seq<char>): (r: Option<(int, seq<char>)>)
    ensures r.Some? ==> 0 <= r.value.0 < I32_LIMIT && |r.value.1| < |s|
    ensures r.Some? ==> r.value.1 == [] || !IsDigit(r.value.1[0])
  {
    match Digit1(s)
    case None => None
    case Some((ds, rest)) =>
      var v := DecimalValue(ds);
      if v < I32_LIMIT then Some((v, rest)) else None
  }

  /** `digit1_i32`: an optional '-', then a run of digits parsed as an i32 and negated when the
      sign was there. */
  function Digit1I32(s: seq<char>): (r: Option<(int, seq<char>)>)
    ensures r.Some? ==> -I32_LIMIT < r.value.0 < I32_LIMIT && |r.value.1| < |s|
    ensures r.Some? ==> r.value.1 == [] || !IsDigit(r.value.1[0])
    ensures r.Some? ==> (r.value.0 < 0 ==> s[0] == '-')
  {
    if s != [] && s[0] == '-' then
      match Unsigned(s[1..])
      case None => None
      case Some((v, rest)) => Some((-v, rest))
    else Unsigned(s)
  }

  /** `separated_list1(space1, digit1_i32)` after its first element: blanks and a number, as long as both are there. */
  function ListTail(s: seq<char>): (r: (seq<int>, seq<char>))
    ensures |r.1| <= |s|
    decreases |s|
  {
    match Space1(s)
    case None => ([], s)
    case Some(r1) =>
      match Digit1I32(r1)
      case None => ([], s)
      case Some((v, r2)) =>
        var tail := ListTail(r2);
        ([v] + tail.0, tail.1)
  }

  /** `pare_line`: one or more numbers separated by blanks, then a newline. */
  function ParseRow(s: seq<char>): (r: Option<(seq<int>, seq<char>)>)
    ensures r.Some? ==> r.value.0 != [] && |r.value.1| < |s|
  {
    match Digit1I32(s)
    case None => None
    case Some((v, r1)) =>
      var tail := ListTail(r1);
      match Newline(tail.1)
      case None => None
      case Some(r2) => Some(([v] + tail.0, r2))
  }

  /** Rows as long as they parse; `parse` (`many1`) is this list when it is not empty. */
  function ParseRows(s: seq<char>): (r: (seq<seq<int>>, seq<char>))
    ensures forall i | 0 <= i < |r.0| :: r.0[i] != []
    decreases |s|
  {
    match ParseRow(s)
    case None => ([], s)
    case Some((row, rest)) =>
      var tail := ParseRows(rest);
      ([row] + tail.0, tail.1)
  }

  function Parse(s: seq<char>): (r: Option<seq<seq<int>>>)
    ensures r.Some? ==> r.value != []
  {
    var rows := ParseRows(s).0;
    if rows == [] then None else Some(rows)
  }

  // Extrapolation.

  predicate AllZero(xs: seq<int>) { forall i | 0 <= i < |xs| :: xs[i] == 0 }

  /** The row of differences between neighbours. */
  function Diffs(xs: seq<int>): (ds: seq<int>)
    requires xs != []
    ensures |ds| == |xs| - 1
  {
    seq(|xs| - 1, i requires 0 <= i < |xs| - 1 => xs[i + 1] - xs[i])
  }

  /** The value `calc_line` computes: the last element plus the extrapolation of the differences,
      stopping at a row of zeros. None where the rows run out before a zero row, where
      `last().unwrap()` fails on the empty row. */
  function Extrapolate(xs: seq<int>): Option<int>
    decreases |xs|
  {
    if xs == [] then None
    else if AllZero(xs) then Some(xs[|xs| - 1])
    else
      match Extrapolate(Diffs(xs))
      case None => None
      case Some(v) => Some(xs[|xs| - 1] + v)
  }

  /** The k-th difference row. */
  function DiffsN(xs: seq<int>, k: nat): (ds: seq<int>)
    requires k <= |xs|
    ensures |ds| == |xs| - k
  {
    if k == 0 then xs else Diffs(DiffsN(xs, k - 1))
  }

  lemma {:induction false} DiffsNShift(xs: seq<int>, k: nat)
    requires xs != [] && k < |xs|
    ensures DiffsN(Diffs(xs), k) == DiffsN(xs, k + 1)
  {
    if k > 0 {
      DiffsNShift(xs, k - 1);
    }
  }

  /** The extrapolation succeeds exactly when some difference row before the rows run out is all zeros. */
  lemma {:induction false} ExtrapolateSomeIff(xs: seq<int>)
    ensures Extrapolate(xs).Some? <==> exists k | 0 <= k < |xs| :: AllZero(DiffsN(xs, k))
    decreases |xs|
  {
    if xs != [] && !AllZero(xs) {
      var ds := Diffs(xs);
      ExtrapolateSomeIff(ds);
      if Extrapolate(xs).Some? {
        var k :| 0 <= k < |ds| && AllZero(DiffsN(ds, k));
        DiffsNShift(xs, k);
      }
      if exists k | 0 <= k < |xs| :: AllZero(DiffsN(xs, k)) {
        var k :| 0 <= k < |xs| && AllZero(DiffsN(xs, k));
        assert k > 0;
        DiffsNShift(xs, k - 1);
      }
    } else if xs != [] {
      assert Extrapolate(xs).Some?;
      assert AllZero(DiffsN(xs, 0));
      assert exists k | 0 <= k < |xs| :: AllZero(DiffsN(xs, k));
    }
  }

  /** The extrapolated value continues the sequence: appending it extends each difference row by
      that row's own extrapolation, and keeps a zero row zero. */
  lemma ExtrapolateExtends(xs: seq<int>)
    requires Extrapolate(xs).Some?
    ensures AllZero(xs) ==> Extrapolate(xs).value == 0 && AllZero(xs + [Extrapolate(xs).value])
    ensures !AllZero(xs) ==> Diffs(xs + [Extrapolate(xs).value]) == Diffs(xs) + [Extrapolate(Diffs(xs)).value]
  {
    var v := Extrapolate(xs).value;
    var ys := xs + [v];
    assert forall i | 0 <= i < |xs| :: ys[i] == xs[i];
    if !AllZero(xs) {
      var e := Extrapolate(Diffs(xs)).value;
      assert v == xs[|xs| - 1] + e;
      var dy, dx := Diffs(ys), Diffs(xs) + [e];
      forall i | 0 <= i < |dy|
        ensures dy[i] == dx[i]
      {
        if i < |xs| - 1 {
          assert dy[i] == ys[i + 1] - ys[i] == xs[i + 1] - xs[i];
        } else {
          assert dy[i] == v - xs[|xs| - 1];
        }
      }
      assert |dy| == |dx|;
      assert dy == dx;
    } else {
      assert v == xs[|xs| - 1] == 0;
      assert forall i | 0 <= i < |ys| :: ys[i] == 0;
    }
  }

  /** A sequence that is not all zeros but has a single element cannot be extrapolated: its
      difference row is empty before any zero row. */
  lemma SingleNonZeroFails(x: int)
    requires x != 0
    ensures Extrapolate([x]).None?
  {
    assert [x][0] != 0;
    assert Diffs([x]) == [];
  }

  function Linear(a: int, b: int, n: nat): (xs: seq<int>)
    ensures |xs| == n
  {
    seq(n, i requires 0 <= i < n => a + b * i)
  }

  function Zeros(n: nat): seq<int> { seq(n, i => 0) }

  /** A constant row with at least two elements extrapolates to the same constant. */
  lemma ExtrapolateConstant(b: int, n: nat)
    requires n >= 2
    ensures Extrapolate(seq(n, i => b)) == Some(b)
  {
    var xs := seq(n, i => b);
    if b != 0 {
      assert xs[0] != 0;
      var ds := Diffs(xs);
      assert ds == Zeros(n - 1);
      assert AllZero(Zeros(n - 1));
      ExtrapolateStep(xs, ds, 0);
    } else {
      assert AllZero(xs);
    }
  }

  /** An arithmetic progression of at least three terms is continued by its next term. */
  lemma ExtrapolateLinear(a: int, b: int, n: nat)
    requires n >= 3
    ensures Extrapolate(Linear(a, b, n)) == Some(a + b * n)
  {
    var xs := Linear(a, b, n);
    var ds := Diffs(xs);
    assert ds == seq(n - 1, i => b) by {
      forall i | 0 <= i < n - 1
        ensures ds[i] == b
      {
        assert xs[i + 1] - xs[i] == a + b * (i + 1) - (a + b * i) == b;
      }
    }
    ExtrapolateConstant(b, n - 1);
    if AllZero(xs) {
      assert xs[0] == a == 0 && xs[1] == a + b == 0;
    } else {
      ExtrapolateStep(xs, ds, b);
      assert xs[n - 1] + b == a + b * (n - 1) + b == a + b * n;
    }
  }

  /** `calc_line`: add the last element, stop at a zero row, else move to the differences. */
  method CalcLine(data: seq<int>) returns (r: Option<int>)
    ensures r == Extrapolate(data)
  {
    var d := data;
    var res := 0;
    while true
      invariant Extrapolate(data) == match Extrapolate(d) case None => None case Some(v) => Some(res + v)
      decreases |d|
    {
      if d == [] {
        return None;
      }
      res := res + d[|d| - 1];
      if AllZero(d) {
        return Some(res);
      }
      d := Diffs(d);
    }
  }

  /** `calc_1`: the sum of every row's extrapolation; None when one of them fails. */
  function Calc1(rows: seq<seq<int>>): (r: Option<int>)
    ensures r.Some? <==> forall i | 0 <= i < |rows| :: Extrapolate(rows[i]).Some?
  {
    var xs := seq(|rows|, i requires 0 <= i < |rows| => Extrapolate(rows[i]));
    assert forall i | 0 <= i < |rows| :: xs[i] == Extrapolate(rows[i]);
    SumOf(xs)
  }

  /** `proc_1`: parse, then `calc_1`. */
  function Proc1(data: seq<char>): (r: Option<int>)
    ensures r.Some? <==> Parse(data).Some? && forall i | 0 <= i < |Parse(data).value| :: Extrapolate(Parse(data).value[i]).Some?
  {
    match Parse(data)
    case None => None
    case Some(rows) => Calc1(rows)
  }

  // The inline examples.

  /** One extrapolation step, over abstract values so that the examples below stay small. */
  lemma ExtrapolateStep(xs: seq<int>, ds: seq<int>, v: int)
    requires xs != [] && !AllZero(xs) && Diffs(xs) == ds && Extrapolate(ds) == Some(v)
    ensures Extrapolate(xs) == Some(xs[|xs| - 1] + v)
  {
  }

  lemma ExampleLinear()
    ensures Extrapolate([0, 3, 6, 9, 12, 15]) == Some(18)
  {
    var r0: seq<int> := [0, 3, 6, 9, 12, 15];
    var r1: seq<int> := [3, 3, 3, 3, 3];
    var r2: seq<int> := [0, 0, 0, 0];
    assert Diffs(r1) == r2;
    assert AllZero(r2);
    assert r1[0] != 0;
    ExtrapolateStep(r1, r2, 0);
    assert Diffs(r0) == r1;
    assert r0[1] != 0;
    ExtrapolateStep(r0, r1, 3);
  }

  lemma ExampleQuadratic()
    ensures Extrapolate([1, 3, 6, 10, 15, 21]) == Some(28)
  {
    var r0: seq<int> := [1, 3, 6, 10, 15, 21];
    var r1: seq<int> := [2, 3, 4, 5, 6];
    var r2: seq<int> := [1, 1, 1, 1];
    var r3: seq<int> := [0, 0, 0];
    assert Diffs(r2) == r3;
    assert AllZero(r3);
    assert r2[0] != 0;
    ExtrapolateStep(r2, r3, 0);
    QuadraticRows(r0, r1, r2);
    ExtrapolateStep(r1, r2, 1);
    ExtrapolateStep(r0, r1, 7);
  }

  lemma QuadraticRows(r0: seq<int>, r1: seq<int>, r2: seq<int>)
    requires r0 == [1, 3, 6, 10, 15, 21] && r1 == [2, 3, 4, 5, 6] && r2 == [1, 1, 1, 1]
    ensures Diffs(r0) == r1 && Diffs(r1) == r2 && !AllZero(r0) && !AllZero(r1)
  {
    assert r0[0] != 0 && r1[0] != 0;
  }

  lemma ExampleCubic()
    ensures Extrapolate([10, 13, 16, 21, 30, 45]) == Some(68)
  {
    var r0: seq<int> := [10, 13, 16, 21, 30, 45];
    var r1: seq<int> := [3, 3, 5, 9, 15];
    var r2: seq<int> := [0, 2, 4, 6];
    var r3: seq<int> := [2, 2, 2];
    var r4: seq<int> := [0, 0];
    assert Diffs(r3) == r4;
    assert AllZero(r4);
    assert r3[0] != 0;
    ExtrapolateStep(r3, r4, 0);
    CubicRows(r0, r1, r2, r3);
    ExtrapolateStep(r2, r3, 2);
    ExtrapolateStep(r1, r2, 8);
    ExtrapolateStep(r0, r1, 23);
  }

  lemma CubicRows(r0: seq<int>, r1: seq<int>, r2: seq<int>, r3: seq<int>)
    requires r0 == [10, 13, 16, 21, 30, 45] && r1 == [3, 3, 5, 9, 15]
    requires r2 == [0, 2, 4, 6] && r3 == [2, 2, 2]
    ensures Diffs(r0) == r1 && Diffs(r1) == r2 && Diffs(r2) == r3
    ensures !AllZero(r0) && !AllZero(r1) && !AllZero(r2)
  {
    assert r0[0] != 0 && r1[0] != 0 && r2[1] != 0;
  }

  // Printing and reading back.

  function ShowInt(v: int): seq<char>
  {
    if v < 0 then ['-'] + ShowNat(-v) else ShowNat(v)
  }

  lemma UnsignedOfShow(n: nat, rest: seq<char>)
    requires n < I32_LIMIT
    requires rest == [] || !IsDigit(rest[0])
    ensures Unsigned(ShowNat(n) + rest) == Some((n, rest))
  {
    Digit1OfConcat(ShowNat(n), rest);
    DecimalValueOfShowNat(n);
  }

  /** `digit1_i32` reads back a printed i32 other than -2^31. */
  lemma Digit1I32OfShow(v: int, rest: seq<char>)
    requires -I32_LIMIT < v < I32_LIMIT
    requires rest == [] || !IsDigit(rest[0])
    ensures Digit1I32(ShowInt(v) + rest) == Some((v, rest))
  {
    if v < 0 {
      var body := ShowNat(-v) + rest;
      UnsignedOfShow(-v, rest);
      assert ShowInt(v) + rest == ['-'] + body;
      assert (['-'] + body)[1..] == body;
    } else {
      UnsignedOfShow(v, rest);
      assert ShowNat(v)[0] != '-';
    }
  }

  /** The inline test: "-123" is -123 with nothing left. */
  lemma ExampleNegative()
    ensures Digit1I32("-123") == Some((-123, []))
  {
    ExampleNegativeText();
    Digit1I32OfShow(-123, []);
    assert ShowInt(-123) + [] == ShowInt(-123);
  }

  lemma ExampleNegativeText()
    ensures ShowInt(-123) == "-123"
  {
    assert ShowNat(123) == "123";
  }

  function ShowTail(vs: seq<int>): seq<char>
  {
    if vs == [] then [] else [' '] + (ShowInt(vs[0]) + ShowTail(vs[1..]))
  }

  predicate FitsI32(vs: seq<int>)
  {
    forall i | 0 <= i < |vs| :: -I32_LIMIT < vs[i] < I32_LIMIT
  }

  lemma ListTailCons(v: int, after: seq<char>, vs: seq<int>, rest: seq<char>)
    requires -I32_LIMIT < v < I32_LIMIT
    requires after == [] || !IsDigit(after[0])
    requires ListTail(after) == (vs, rest)
    ensures ListTail([' '] + (ShowInt(v) + after)) == ([v] + vs, rest)
  {
    Space1OfPrefix(ShowInt(v) + after);
    Digit1I32OfShow(v, after);
  }

  /** What follows a printed number is a blank or the newline, never a digit or a blank run that starts a number. */
  lemma Space1OfPrefix(s: seq<char>)
    requires s != [] && !IsSpace(s[0])
    ensures Space1([' '] + s) == Some(s)
  {
    Space1OfBlank(s);
  }

  lemma {:induction false} ListTailOfShow(vs: seq<int>)
    requires FitsI32(vs)
    ensures ListTail(ShowTail(vs) + "\n") == (vs, "\n")
    ensures (ShowTail(vs) + "\n")[0] != '-' && !IsDigit((ShowTail(vs) + "\n")[0])
  {
    var nl: seq<char> := "\n";
    if vs == [] {
      assert ShowTail(vs) + nl == nl;
    } else {
      var tail := vs[1..];
      assert FitsI32(tail) by {
        assert forall i | 0 <= i < |tail| :: tail[i] == vs[i + 1];
      }
      ListTailOfShow(tail);
      var after := ShowTail(tail) + nl;
      assert ShowTail(vs) + nl == [' '] + (ShowInt(vs[0]) + after) by {
        AppendAssoc(ShowInt(vs[0]), ShowTail(tail), nl);
        AppendAssoc([' '], ShowInt(vs[0]) + ShowTail(tail), nl);
      }
      assert ShowInt(vs[0]) != [] && !IsSpace(ShowInt(vs[0])[0]);
      ListTailCons(vs[0], after, tail, nl);
      assert vs == [vs[0]] + tail;
    }
  }

  /** A row as the input holds it: the numbers separated by single blanks, and a newline. */
  function ShowRow(vs: seq<int>): seq<char>
    requires vs != []
  {
    ShowInt(vs[0]) + (ShowTail(vs[1..]) + "\n")
  }

  /** `pare_line` reads back a printed row of i32 values. */
  lemma ParseRowOfShow(vs: seq<int>, rest: seq<char>)
    requires vs != [] && FitsI32(vs)
    ensures ParseRow(ShowRow(vs) + rest) == Some((vs, rest))
  {
    var tail := vs[1..];
    var after := ShowTail(tail) + "\n";
    FitsTail(vs);
    ListTailOfShow(tail);
    ListTailRest(after, tail, rest);
    ShowRowSplit(vs, rest);
    Digit1I32OfShow(vs[0], after + rest);
    ParseRowCons(ShowRow(vs) + rest, vs[0], after + rest, tail, rest);
  }

  lemma FitsTail(vs: seq<int>)
    requires vs != [] && FitsI32(vs)
    ensures FitsI32(vs[1..]) && vs == [vs[0]] + vs[1..]
  {
    assert forall i | 0 <= i < |vs[1..]| :: vs[1..][i] == vs[i + 1];
  }

  lemma ShowRowSplit(vs: seq<int>, rest: seq<char>)
    requires vs != []
    ensures ShowRow(vs) + rest == ShowInt(vs[0]) + ((ShowTail(vs[1..]) + "\n") + rest)
  {
    AppendAssoc(ShowInt(vs[0]), ShowTail(vs[1..]) + "\n", rest);
  }

  /** A row is a number, a list tail and the newline. */
  lemma ParseRowCons(s: seq<char>, v: int, r1: seq<char>, t: seq<int>, r2: seq<char>)
    requires Digit1I32(s) == Some((v, r1)) && ListTail(r1) == (t, "\n" + r2)
    ensures ParseRow(s) == Some(([v] + t, r2))
  {
    assert ("\n" + r2)[1..] == r2;
    assert Newline("\n" + r2) == Some(r2);
  }

  /** The list stops at the newline, whatever follows it. */
  lemma {:induction false} ListTailRest(s: seq<char>, vs: seq<int>, rest: seq<char>)
    requires ListTail(s) == (vs, "\n")
    ensures ListTail(s + rest) == (vs, "\n" + rest)
    decreases |s|
  {
    var nl: seq<char> := "\n";
    match Space1(s)
    case None =>
      assert s == nl;
      assert Space1(s + rest).None?;
    case Some(r1) =>
      assert s[..|s| - |r1|] + r1 == s;
      match Digit1I32(r1)
      case None =>
        assert false;
      case Some((v, r2)) =>
        var t := ListTail(r2);
        ListTailRest(r2, t.0, rest);
        assert Space1(s + rest) == Some(r1 + rest) by {
          SpanPrefix(s, rest, |s| - |r1|);
        }
        assert Digit1I32(r1 + rest) == Some((v, r2 + rest)) by {
          Digit1I32Prefix(r1, rest);
        }
  }

  lemma SpanPrefix(s: seq<char>, rest: seq<char>, k: nat)
    requires 0 < k < |s| && Span(s, IsSpace) == k
    ensures Span(s + rest, IsSpace) == k && (s + rest)[k..] == s[k..] + rest
  {
    SpanOfConcat(s[..k], s[k..] + rest, IsSpace);
    assert s + rest == s[..k] + (s[k..] + rest);
  }

  lemma UnsignedPrefix(s: seq<char>, rest: seq<char>)
    requires Unsigned(s).Some? && Unsigned(s).value.1 != []
    ensures Unsigned(s + rest) == Some((Unsigned(s).value.0, Unsigned(s).value.1 + rest))
  {
    var (ds, r) := Digit1(s).value;
    assert s + rest == ds + (r + rest);
    Digit1OfConcat(ds, r + rest);
  }

  lemma Digit1I32Prefix(s: seq<char>, rest: seq<char>)
    requires Digit1I32(s).Some? && Digit1I32(s).value.1 != []
    ensures Digit1I32(s + rest) == Some((Digit1I32(s).value.0, Digit1I32(s).value.1 + rest))
  {
    if s[0] == '-' {
      UnsignedPrefix(s[1..], rest);
      assert (s + rest)[1..] == s[1..] + rest;
    } else {
      UnsignedPrefix(s, rest);
    }
  }

  function ShowRows(rows: seq<seq<int>>): seq<char>
    requires forall i | 0 <= i < |rows| :: rows[i] != []
  {
    if rows == [] then [] else ShowRow(rows[0]) + ShowRows(rows[1..])
  }

  /** Rows the input can hold: none empty, every value an i32 other than -2^31. */
  predicate Printable(rows: seq<seq<int>>)
  {
    forall i | 0 <= i < |rows| :: rows[i] != [] && FitsI32(rows[i])
  }

  lemma ParseRowsStep(s: seq<char>, row: seq<int>, rest: seq<char>, tail: seq<seq<int>>, after: seq<char>)
    requires ParseRow(s) == Some((row, rest)) && ParseRows(rest) == (tail, after)
    ensures ParseRows(s) == ([row] + tail, after)
  {
  }

  lemma PrintableTail(rows: seq<seq<int>>)
    requires rows != [] && Printable(rows)
    ensures rows[0] != [] && FitsI32(rows[0]) && Printable(rows[1..]) && rows == [rows[0]] + rows[1..]
  {
    assert forall i | 0 <= i < |rows[1..]| :: rows[1..][i] == rows[i + 1];
  }

  lemma ShowRowsCons(rows: seq<seq<int>>)
    requires rows != [] && Printable(rows)
    ensures ShowRows(rows) == ShowRow(rows[0]) + ShowRows(rows[1..])
  {
  }

  /** The row read from the printed rows is the first one, and what is left is the printed rest. */
  lemma ParseRowOfShowRows(rows: seq<seq<int>>)
    requires rows != [] && Printable(rows)
    ensures Printable(rows[1..]) && rows == [rows[0]] + rows[1..]
    ensures ParseRow(ShowRows(rows)) == Some((rows[0], ShowRows(rows[1..])))
  {
    PrintableTail(rows);
    ShowRowsCons(rows);
    ParseRowOfShow(rows[0], ShowRows(rows[1..]));
  }

  /** Printed rows read back as the same rows, consuming the whole input. */
  lemma {:induction false} ParseRowsOfShow(rows: seq<seq<int>>)
    requires Printable(rows)
    ensures ParseRows(ShowRows(rows)) == (rows, [])
  {
    if rows != [] {
      var tail := rows[1..];
      ParseRowOfShowRows(rows);
      ParseRowsOfShow(tail);
      ParseRowsStep(ShowRows(rows), rows[0], ShowRows(tail), tail, []);
    }
  }

  /** `proc_1` on printed rows is `calc_1` of those rows. */
  lemma Proc1OfShow(rows: seq<seq<int>>)
    requires rows != [] && Printable(rows)
    ensures Parse(ShowRows(rows)) == Some(rows)
    ensures Proc1(ShowRows(rows)) == Calc1(rows)
  {
    ParseRowsOfShow(rows);
  }
}
