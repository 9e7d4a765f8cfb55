/** Day 3: an engine schematic is scanned by a three-state tokenizer into
    numbers (maximal digit runs with their extent) and symbols; part one adds
    the numbers next to a symbol, part two the gear ratios of the '*'
    symbols next to exactly two numbers. */
module Day03 {
  import opened Common

  datatype ParserState = Start | Digit | Symbol

  /** A number of the schematic: its value, first and last column, and row. */
  datatype Digits = Digits(value: nat, x: nat, xEnd: nat, y: nat)

  datatype Symbols = Symbols(x: nat, y: nat, gear: bool)

  predicate IsSymbolChar(c: char) { !IsDigit(c) && c != '.' && c != '\n' }

  /** Column and row of input[i]: the column restarts at 0 after each '\n', the row counts them. */
  function Pos(input: seq<char>, i: nat): (p: (nat, nat))
    requires i <= |input|
  {
    if i == 0 then (0, 0)
    else
      var q := Pos(input, i - 1);
      if input[i - 1] == '\n' then (0, q.1 + 1) else (q.0 + 1, q.1)
  }

  /** The reference tokenizer, one token at a time from index i: a digit run
      becomes a number, but only when some character follows it. */
  function Scan(input: seq<char>, i: nat): (r: (seq<Digits>, seq<Symbols>))
    requires i <= |input|
    decreases |input| - i
  {
    if i == |input| then ([], [])
    else if IsDigit(input[i]) then
      var k := Span(input[i..], IsDigit);
      if i + k == |input| then ([], [])
      else
        var rest := Scan(input, i + k);
        var p := Pos(input, i);
        ([Digits(DecimalValue(input[i..i + k]), p.0, p.0 + k - 1, p.1)] + rest.0, rest.1)
    else if IsSymbolChar(input[i]) then
      var rest := Scan(input, i + 1);
      var p := Pos(input, i);
      (rest.0, [Symbols(p.0, p.1, input[i] == '*')] + rest.1)
    else Scan(input, i + 1)
  }

  /** Decreases on every iteration that re-reads the same character. */
  function Rank(state: ParserState, c: char): nat
  {
    match state
    case Symbol => 1
    case Digit => if IsDigit(c) then 1 else 3
    case Start => if IsDigit(c) || IsSymbolChar(c) then 2 else 1
  }

  /** A run of k digits from j whose last digit is followed by a non-digit. */
  lemma SpanOfRun(input: seq<char>, j: nat, i: nat)
    requires j <= i < |input|
    requires AllDigits(input[j..i]) && !IsDigit(input[i])
    ensures Span(input[j..], IsDigit) == i - j
  {
    assert input[j..] == input[j..i] + input[i..];
    SpanOfConcat(input[j..i], input[i..], IsDigit);
  }

  lemma SpanToEnd(input: seq<char>, j: nat)
    requires j <= |input|
    requires AllDigits(input[j..])
    ensures Span(input[j..], IsDigit) == |input| - j
  {
    assert input[j..] == input[j..] + [];
    SpanOfConcat(input[j..], [], IsDigit);
  }

  lemma ScanSkip(input: seq<char>, i: nat)
    requires i < |input| && (input[i] == '.' || input[i] == '\n')
    ensures Scan(input, i) == Scan(input, i + 1)
  {
  }

  lemma ScanSymbol(input: seq<char>, i: nat)
    requires i < |input| && IsSymbolChar(input[i])
    ensures Scan(input, i) == (Scan(input, i + 1).0, [Symbols(Pos(input, i).0, Pos(input, i).1, input[i] == '*')] + Scan(input, i + 1).1)
  {
  }

  lemma ScanRun(input: seq<char>, j: nat, i: nat)
    requires j < i < |input|
    requires AllDigits(input[j..i]) && !IsDigit(input[i])
    ensures Scan(input, j) ==
      ([Digits(DecimalValue(input[j..i]), Pos(input, j).0, Pos(input, j).0 + (i - j) - 1, Pos(input, j).1)] + Scan(input, i).0,
       Scan(input, i).1)
  {
    SpanOfRun(input, j, i);
  }

  /** What holds before each iteration of `data_parser`: (x, y) is the position
      of the character under the cursor i, j is where the reference tokenizer
      resumes (the start of the pending digit run in state Digit, the cursor
      otherwise), and the output so far followed by the rest of the
      reference output is the whole reference output. */
  ghost predicate Inv(input: seq<char>, state: ParserState, numberTmp: seq<char>, numberStart: nat,
                      x: nat, y: nat, i: nat, j: nat, digits: seq<Digits>, symbols: seq<Symbols>)
  {
    && j <= i <= |input|
    && (x, y) == Pos(input, i)
    && (!state.Digit? ==> j == i)
    && (state.Symbol? ==> i < |input| && IsSymbolChar(input[i]))
    && (state.Digit? ==> j + |numberTmp| == i && j < |input| && IsDigit(input[j]))
    && (state.Digit? ==> numberTmp == input[j..i] && AllDigits(numberTmp))
    && (state.Digit? ==> Pos(input, j) == (numberStart, y) && x == numberStart + |numberTmp|)
    && digits + Scan(input, j).0 == Scan(input, 0).0 && symbols + Scan(input, j).1 == Scan(input, 0).1
  }

  /** A consumed character moves the position one column right, or to the start of the next row. */
  function Advance(c: char, x: nat, y: nat): (nat, nat)
  {
    if c == '\n' then (0, y + 1) else (x + 1, y)
  }

  lemma SkipKeeps(input: seq<char>, numberTmp: seq<char>, numberStart: nat, x: nat, y: nat, i: nat,
                  digits: seq<Digits>, symbols: seq<Symbols>)
    requires Inv(input, Start, numberTmp, numberStart, x, y, i, i, digits, symbols)
    requires i < |input| && (input[i] == '.' || input[i] == '\n')
    ensures var p := Advance(input[i], x, y);
      Inv(input, Start, numberTmp, numberStart, p.0, p.1, i + 1, i + 1, digits, symbols)
  {
    ScanSkip(input, i);
  }

  lemma StartDigitKeeps(input: seq<char>, numberTmp: seq<char>, numberStart: nat, x: nat, y: nat, i: nat,
                        digits: seq<Digits>, symbols: seq<Symbols>)
    requires Inv(input, Start, numberTmp, numberStart, x, y, i, i, digits, symbols)
    requires i < |input| && IsDigit(input[i])
    ensures Inv(input, Digit, [], x, x, y, i, i, digits, symbols)
  {
  }

  lemma StartSymbolKeeps(input: seq<char>, numberTmp: seq<char>, numberStart: nat, x: nat, y: nat, i: nat,
                         digits: seq<Digits>, symbols: seq<Symbols>)
    requires Inv(input, Start, numberTmp, numberStart, x, y, i, i, digits, symbols)
    requires i < |input| && IsSymbolChar(input[i])
    ensures Inv(input, Symbol, numberTmp, numberStart, x, y, i, i, digits, symbols)
  {
  }

  lemma DigitKeeps(input: seq<char>, numberTmp: seq<char>, numberStart: nat, x: nat, y: nat, i: nat, j: nat,
                   digits: seq<Digits>, symbols: seq<Symbols>)
    requires Inv(input, Digit, numberTmp, numberStart, x, y, i, j, digits, symbols)
    requires i < |input| && IsDigit(input[i])
    ensures Inv(input, Digit, numberTmp + [input[i]], numberStart, x + 1, y, i + 1, j, digits, symbols)
  {
    assert numberTmp + [input[i]] == input[j..i + 1];
  }

  lemma RunEndScan(input: seq<char>, numberTmp: seq<char>, numberStart: nat, y: nat, i: nat, j: nat)
    requires j < i < |input| && !IsDigit(input[i])
    requires numberTmp == input[j..i] && AllDigits(numberTmp)
    requires Pos(input, j) == (numberStart, y)
    ensures |numberTmp| >= 1
    ensures Scan(input, j) ==
      ([Digits(DecimalValue(numberTmp), numberStart, numberStart + |numberTmp| - 1, y)] + Scan(input, i).0, Scan(input, i).1)
  {
    ScanRun(input, j, i);
  }

  lemma RunEndKeeps(input: seq<char>, numberTmp: seq<char>, numberStart: nat, x: nat, y: nat, i: nat, j: nat,
                    digits: seq<Digits>, symbols: seq<Symbols>)
    requires Inv(input, Digit, numberTmp, numberStart, x, y, i, j, digits, symbols)
    requires i < |input| && !IsDigit(input[i])
    ensures |numberTmp| >= 1
    ensures Inv(input, Start, numberTmp, numberStart, x, y, i, i,
                digits + [Digits(DecimalValue(numberTmp), numberStart, numberStart + |numberTmp| - 1, y)], symbols)
  {
    assert j != i;
    RunEndScan(input, numberTmp, numberStart, y, i, j);
    var d := Digits(DecimalValue(numberTmp), numberStart, numberStart + |numberTmp| - 1, y);
    AppendAssoc(digits, [d], Scan(input, i).0);
  }

  lemma SymbolKeeps(input: seq<char>, numberTmp: seq<char>, numberStart: nat, x: nat, y: nat, i: nat,
                    digits: seq<Digits>, symbols: seq<Symbols>)
    requires Inv(input, Symbol, numberTmp, numberStart, x, y, i, i, digits, symbols)
    ensures var p := Advance(input[i], x, y);
      Inv(input, Start, numberTmp, numberStart, p.0, p.1, i + 1, i + 1, digits, symbols + [Symbols(x, y, input[i] == '*')])
  {
    ScanSymbol(input, i);
    assert (symbols + [Symbols(x, y, input[i] == '*')]) + Scan(input, i + 1).1 == symbols + Scan(input, i).1;
  }

  /** `data_parser`: the state machine; a step that changes state without
      consuming re-reads the same character. It emits what the reference
      tokenizer emits. */
  method DataParser(input: seq<char>) returns (digits: seq<Digits>, symbols: seq<Symbols>)
    ensures (digits, symbols) == Scan(input, 0)
  {
    var state := Start;
    var numberTmp: seq<char> := [];
    var numberStart: nat := 0;
    var x: nat := 0;
    var y: nat := 0;
    var i := 0;
    digits := [];
    symbols := [];
    ghost var j := 0;
    assert [] + Scan(input, 0).0 == Scan(input, 0).0 && [] + Scan(input, 0).1 == Scan(input, 0).1;
    while i < |input|
      invariant Inv(input, state, numberTmp, numberStart, x, y, i, j, digits, symbols)
      decreases |input| - i, if i < |input| then Rank(state, input[i]) else 0
    {
      var c := input[i];
      var repeat := false;
      match state {
        case Start =>
          if IsDigit(c) {
            StartDigitKeeps(input, numberTmp, numberStart, x, y, i, digits, symbols);
            state := Digit;
            numberTmp := [];
            repeat := true;
            numberStart := x;
          } else if c != '.' && c != '\n' {
            StartSymbolKeeps(input, numberTmp, numberStart, x, y, i, digits, symbols);
            state := Symbol;
            repeat := true;
          } else {
            SkipKeeps(input, numberTmp, numberStart, x, y, i, digits, symbols);
          }
        case Digit =>
          if IsDigit(c) {
            DigitKeeps(input, numberTmp, numberStart, x, y, i, j, digits, symbols);
            numberTmp := numberTmp + [c];
          } else {
            RunEndKeeps(input, numberTmp, numberStart, x, y, i, j, digits, symbols);
            state := Start;
            digits := digits + [Digits(DecimalValue(numberTmp), numberStart, numberStart + |numberTmp| - 1, y)];
            repeat := true;
          }
        case Symbol =>
          var gear := c == '*';
          SymbolKeeps(input, numberTmp, numberStart, x, y, i, digits, symbols);
          symbols := symbols + [Symbols(x, y, gear)];
          state := Start;
      }
      if !repeat {
        if c == '\n' {
          x := 0;
          y := y + 1;
        } else {
          x := x + 1;
        }
        i := i + 1;
      }
      if !state.Digit? {
        j := i;
      }
    }
    if state.Digit? {
      SpanToEnd(input, j);
      assert Scan(input, j) == ([], []);
    }
    assert digits + [] == digits && symbols + [] == symbols;
  }

  // What the tokenizer emits, stated against the text.

  /** input[j..j+k] is a whole digit run, and some character follows it. */
  predicate IsRun(input: seq<char>, j: nat, k: nat)
  {
    && 0 < k && j + k < |input|
    && AllDigits(input[j..j + k]) && !IsDigit(input[j + k])
    && (j == 0 || !IsDigit(input[j - 1]))
  }

  /** The number the run input[j..j+k] stands for. */
  function RunToken(input: seq<char>, j: nat, k: nat): Digits
    requires j + k <= |input| && 0 < k && AllDigits(input[j..j + k])
  {
    var p := Pos(input, j);
    Digits(DecimalValue(input[j..j + k]), p.0, p.0 + k - 1, p.1)
  }

  /** i does not fall strictly inside a digit run. */
  predicate Boundary(input: seq<char>, i: nat)
    requires i <= |input|
  {
    i == 0 || i == |input| || !IsDigit(input[i - 1]) || !IsDigit(input[i])
  }

  lemma SpanIsRun(input: seq<char>, i: nat)
    requires i < |input| && IsDigit(input[i])
    ensures var k := Span(input[i..], IsDigit); 0 < k && i + k <= |input| && AllDigits(input[i..i + k])
    ensures var k := Span(input[i..], IsDigit); i + k < |input| ==> !IsDigit(input[i + k])
  {
    var k := Span(input[i..], IsDigit);
    assert forall n | 0 <= n < k :: input[i..i + k][n] == input[i..][n];
  }

  /** d is the token of a whole digit run that starts at or after i. */
  ghost predicate RunFrom(input: seq<char>, i: nat, d: Digits)
  {
    exists j: nat, k: nat :: i <= j && IsRun(input, j, k) && d == RunToken(input, j, k)
  }

  /** Every number of ds is the token of a whole digit run that starts at or after i. */
  ghost predicate FromRuns(input: seq<char>, i: nat, ds: seq<Digits>)
  {
    forall n | 0 <= n < |ds| :: RunFrom(input, i, ds[n])
  }

  lemma RunFromWeaken(input: seq<char>, i: nat, d: Digits)
    requires RunFrom(input, i + 1, d)
    ensures RunFrom(input, i, d)
  {
    var j: nat, k: nat :| i + 1 <= j && IsRun(input, j, k) && d == RunToken(input, j, k);
    assert i <= j;
  }

  lemma FromRunsCons(input: seq<char>, i: nat, k: nat, rest: seq<Digits>)
    requires IsRun(input, i, k) && FromRuns(input, i + k, rest)
    ensures FromRuns(input, i, [RunToken(input, i, k)] + rest)
  {
    var ds := [RunToken(input, i, k)] + rest;
    forall n | 0 <= n < |ds|
      ensures RunFrom(input, i, ds[n])
    {
      if n == 0 {
        assert i <= i && IsRun(input, i, k) && ds[0] == RunToken(input, i, k);
      } else {
        assert ds[n] == rest[n - 1];
        var j: nat, k2: nat :| i + k <= j && IsRun(input, j, k2) && rest[n - 1] == RunToken(input, j, k2);
        assert i <= j;
      }
    }
  }

  lemma FromRunsWeaken(input: seq<char>, i: nat, ds: seq<Digits>)
    requires FromRuns(input, i + 1, ds)
    ensures FromRuns(input, i, ds)
  {
    forall n | 0 <= n < |ds|
      ensures RunFrom(input, i, ds[n])
    {
      RunFromWeaken(input, i, ds[n]);
    }
  }

  lemma ScanPastOther(input: seq<char>, i: nat)
    requires i < |input| && !IsDigit(input[i])
    ensures Scan(input, i).0 == Scan(input, i + 1).0
  {
  }

  /** At a digit the tokenizer emits the run's number, unless the run reaches the end of the input. */
  lemma ScanAtRun(input: seq<char>, i: nat)
    requires i < |input| && IsDigit(input[i])
    ensures var k := Span(input[i..], IsDigit);
      && 0 < k && i + k <= |input| && AllDigits(input[i..i + k])
      && (i + k == |input| ==> Scan(input, i).0 == [])
      && (i + k < |input| ==> !IsDigit(input[i + k]) && Scan(input, i).0 == [RunToken(input, i, k)] + Scan(input, i + k).0)
  {
    SpanIsRun(input, i);
  }

  /** Every number emitted from a token boundary is a whole digit run followed by another character. */
  lemma {:induction false} ScanDigitsAreRuns(input: seq<char>, i: nat)
    requires i <= |input| && Boundary(input, i)
    ensures FromRuns(input, i, Scan(input, i).0)
    decreases |input| - i
  {
    if i < |input| {
      if IsDigit(input[i]) {
        var k := Span(input[i..], IsDigit);
        ScanAtRun(input, i);
        if i + k < |input| {
          ScanDigitsAreRuns(input, i + k);
          FromRunsCons(input, i, k, Scan(input, i + k).0);
        }
      } else {
        ScanPastOther(input, i);
        ScanDigitsAreRuns(input, i + 1);
        FromRunsWeaken(input, i, Scan(input, i).0);
      }
    }
  }

  /** Position p comes no later than position q: an earlier row, or the same row and no later column. */
  predicate NoLater(p: (nat, nat), q: (nat, nat)) { p.1 < q.1 || (p.1 == q.1 && p.0 <= q.0) }

  /** Number a ends before number b starts: an earlier row, or the same row and a smaller column. */
  predicate Precedes(a: Digits, b: Digits) { a.y < b.y || (a.y == b.y && a.xEnd < b.x) }

  /** The numbers come in strictly increasing order of position, so no number appears twice. */
  predicate InOrder(ds: seq<Digits>)
  {
    forall n, m | 0 <= n < m < |ds| :: Precedes(ds[n], ds[m])
  }

  /** Every number of ds starts at p or after it. */
  predicate StartsFrom(p: (nat, nat), ds: seq<Digits>)
  {
    forall n | 0 <= n < |ds| :: NoLater(p, (ds[n].x, ds[n].y))
  }

  /** Across k characters none of which is '\n', the column grows by k and the row stays. */
  lemma {:induction false} PosAlong(input: seq<char>, i: nat, k: nat)
    requires i + k <= |input|
    requires forall n | i <= n < i + k :: input[n] != '\n'
    ensures Pos(input, i + k) == (Pos(input, i).0 + k, Pos(input, i).1)
    decreases k
  {
    if k > 0 {
      PosAlong(input, i, k - 1);
    }
  }

  /** A number that ends before position q, on q's row, goes in front of numbers in order from q. */
  lemma ConsInOrder(head: Digits, q: (nat, nat), rest: seq<Digits>)
    requires head.y == q.1 && head.x <= head.xEnd < q.0
    requires StartsFrom(q, rest) && InOrder(rest)
    ensures StartsFrom((head.x, head.y), [head] + rest)
    ensures InOrder([head] + rest)
  {
    var ds := [head] + rest;
    forall n | 0 <= n < |ds|
      ensures NoLater((head.x, head.y), (ds[n].x, ds[n].y))
    {
      if n > 0 { assert ds[n] == rest[n - 1]; }
    }
    forall n, m | 0 <= n < m < |ds|
      ensures Precedes(ds[n], ds[m])
    {
      assert ds[m] == rest[m - 1];
      if n > 0 { assert ds[n] == rest[n - 1]; }
    }
  }

  /** A digit run at i that some character follows is emitted first, and the scan resumes k columns on. */
  lemma ScanDigitStep(input: seq<char>, i: nat) returns (k: nat)
    requires i < |input| && IsDigit(input[i])
    ensures k == Span(input[i..], IsDigit) && 0 < k && i + k <= |input|
    ensures i + k == |input| ==> Scan(input, i).0 == []
    ensures i + k < |input| ==>
      && Pos(input, i + k) == (Pos(input, i).0 + k, Pos(input, i).1)
      && Scan(input, i).0 == [Digits(DecimalValue(input[i..i + k]), Pos(input, i).0, Pos(input, i).0 + k - 1, Pos(input, i).1)] + Scan(input, i + k).0
  {
    k := Span(input[i..], IsDigit);
    ScanAtRun(input, i);
    forall n | i <= n < i + k
      ensures input[n] != '\n'
    {
      assert input[n] == input[i..i + k][n - i];
    }
    PosAlong(input, i, k);
  }

  /** The numbers emitted from i start at or after Pos(input, i), in strictly increasing order. */
  lemma {:induction false} ScanInOrder(input: seq<char>, i: nat)
    requires i <= |input|
    ensures StartsFrom(Pos(input, i), Scan(input, i).0)
    ensures InOrder(Scan(input, i).0)
    decreases |input| - i
  {
    if i < |input| {
      if IsDigit(input[i]) {
        var k := ScanDigitStep(input, i);
        if i + k < |input| {
          ScanInOrder(input, i + k);
          var p := Pos(input, i);
          ConsInOrder(Digits(DecimalValue(input[i..i + k]), p.0, p.0 + k - 1, p.1), Pos(input, i + k), Scan(input, i + k).0);
        }
      } else {
        ScanInOrder(input, i + 1);
        assert Scan(input, i).0 == Scan(input, i + 1).0;
        assert NoLater(Pos(input, i), Pos(input, i + 1));
      }
    }
  }

  /** A run that starts after the digit run at i starts after its end too. */
  lemma RunAfterRun(input: seq<char>, i: nat, j: nat, k: nat)
    requires i < j && IsRun(input, j, k) && IsDigit(input[i])
    ensures var k' := Span(input[i..], IsDigit); i + k' <= j && i + k' < |input|
  {
    var k' := Span(input[i..], IsDigit);
    SpanIsRun(input, i);
    forall n | i <= n < i + k'
      ensures IsDigit(input[n])
    {
      assert input[n] == input[i..i + k'][n - i];
    }
  }

  lemma ScanRunHead(input: seq<char>, j: nat, k: nat)
    requires IsRun(input, j, k)
    ensures RunToken(input, j, k) in Scan(input, j).0
  {
    ScanRun(input, j, j + k);
    assert Scan(input, j).0 == [RunToken(input, j, k)] + Scan(input, j + k).0;
  }

  /** The numbers found after a digit run that starts at i are found from i. */
  lemma ScanPastRun(input: seq<char>, i: nat, j: nat, k: nat)
    requires i < j && IsRun(input, j, k) && IsDigit(input[i])
    ensures var k' := Span(input[i..], IsDigit);
      && i + k' <= j
      && (RunToken(input, j, k) in Scan(input, i + k').0 ==> RunToken(input, j, k) in Scan(input, i).0)
  {
    var k' := Span(input[i..], IsDigit);
    RunAfterRun(input, i, j, k);
    SpanIsRun(input, i);
    ScanRun(input, i, i + k');
    assert Scan(input, i).0 == [RunToken(input, i, k')] + Scan(input, i + k').0;
  }

  /** Every whole digit run at or after i that some character follows is emitted. */
  lemma {:induction false} ScanFindsRuns(input: seq<char>, i: nat, j: nat, k: nat)
    requires i <= j && IsRun(input, j, k)
    ensures RunToken(input, j, k) in Scan(input, i).0
    decreases |input| - i
  {
    if i == j {
      ScanRunHead(input, j, k);
    } else if IsDigit(input[i]) {
      ScanPastRun(input, i, j, k);
      ScanFindsRuns(input, i + Span(input[i..], IsDigit), j, k);
    } else {
      ScanPastOther(input, i);
      ScanFindsRuns(input, i + 1, j, k);
    }
  }

  /** One symbol per character that is not a digit, '.' or '\n', in order; '*' is a gear. */
  function SymbolsFrom(input: seq<char>, i: nat): seq<Symbols>
    requires i <= |input|
    decreases |input| - i
  {
    if i == |input| then []
    else
      var p := Pos(input, i);
      (if IsSymbolChar(input[i]) then [Symbols(p.0, p.1, input[i] == '*')] else []) + SymbolsFrom(input, i + 1)
  }

  lemma {:induction false} SymbolsFromRun(input: seq<char>, i: nat, k: nat)
    requires i + k <= |input| && AllDigits(input[i..i + k])
    ensures SymbolsFrom(input, i) == SymbolsFrom(input, i + k)
    decreases k
  {
    if k > 0 {
      assert IsDigit(input[i..i + k][0]);
      assert input[i + 1..i + k] == input[i..i + k][1..];
      SymbolsFromRun(input, i + 1, k - 1);
    }
  }

  /** The symbols emitted are exactly the symbol characters, each with its position. */
  lemma {:induction false} ScanSymbols(input: seq<char>, i: nat)
    requires i <= |input|
    ensures Scan(input, i).1 == SymbolsFrom(input, i)
    decreases |input| - i
  {
    if i < |input| {
      if IsDigit(input[i]) {
        var k := Span(input[i..], IsDigit);
        SpanIsRun(input, i);
        SymbolsFromRun(input, i, k);
        if i + k < |input| {
          ScanSymbols(input, i + k);
        }
      } else {
        ScanSymbols(input, i + 1);
      }
    }
  }

  // Part one and part two.

  /** The comparison `find_items` and `find_gears` make, written without subtraction so that u32 cannot underflow. */
  predicate Adjacent(d: Digits, s: Symbols)
  {
    d.y + 1 >= s.y && d.y <= s.y + 1 && s.x + 1 >= d.x && s.x <= d.xEnd + 1
  }

  /** The symbol lies in rows y-1..y+1 and columns x-1..xEnd+1 around the number. */
  predicate InWindow(d: Digits, s: Symbols)
  {
    d.y - 1 <= s.y <= d.y + 1 && d.x - 1 <= s.x <= d.xEnd + 1
  }

  predicate NextToSymbol(d: Digits, symbols: seq<Symbols>)
  {
    exists m | 0 <= m < |symbols| :: InWindow(d, symbols[m])
  }

  /** The sum of the numbers next to some symbol, each counted once. */
  function PartNumbers(digits: seq<Digits>, symbols: seq<Symbols>): int
  {
    if digits == [] then 0
    else
      var d := digits[|digits| - 1];
      PartNumbers(digits[..|digits| - 1], symbols) + (if NextToSymbol(d, symbols) then d.value else 0)
  }

  /** `find_items`: for each number, the first adjacent symbol adds it and ends the inner loop. */
  method FindItems(digits: seq<Digits>, symbols: seq<Symbols>) returns (ret: int)
    ensures ret == PartNumbers(digits, symbols)
  {
    ret := 0;
    for n := 0 to |digits|
      invariant ret == PartNumbers(digits[..n], symbols)
    {
      assert digits[..n + 1][..n] == digits[..n];
      var d := digits[n];
      var m := 0;
      while m < |symbols|
        invariant 0 <= m <= |symbols|
        invariant forall m' | 0 <= m' < m :: !InWindow(d, symbols[m'])
        invariant ret == PartNumbers(digits[..n], symbols)
      {
        var s := symbols[m];
        if Adjacent(d, s) {
          ret := ret + d.value;
          break;
        }
        m := m + 1;
      }
    }
    assert digits[..|digits|] == digits;
  }

  /** Part one lies between 0 and the sum of all numbers; it is 0 without symbols, and
      the full sum when every number touches a symbol. */
  lemma {:induction false} PartNumbersBounds(digits: seq<Digits>, symbols: seq<Symbols>)
    ensures 0 <= PartNumbers(digits, symbols) <= Sum(NumberValues(digits))
    ensures symbols == [] ==> PartNumbers(digits, symbols) == 0
    ensures (forall n | 0 <= n < |digits| :: NextToSymbol(digits[n], symbols)) ==>
      PartNumbers(digits, symbols) == Sum(NumberValues(digits))
  {
    if digits != [] {
      var init := digits[..|digits| - 1];
      PartNumbersBounds(init, symbols);
      assert NumberValues(digits) == NumberValues(init) + [digits[|digits| - 1].value];
      SumAppend(NumberValues(init), digits[|digits| - 1].value);
    }
  }

  function NumberValues(digits: seq<Digits>): (vs: seq<int>)
    ensures |vs| == |digits| && forall n | 0 <= n < |digits| :: vs[n] == digits[n].value
  {
    seq(|digits|, n requires 0 <= n < |digits| => digits[n].value)
  }

  /** How many numbers touch s, and the product of their values. */
  function Neighbours(digits: seq<Digits>, s: Symbols): (r: (nat, int))
  {
    if digits == [] then (0, 1)
    else
      var r := Neighbours(digits[..|digits| - 1], s);
      var d := digits[|digits| - 1];
      if InWindow(d, s) then (r.0 + 1, r.1 * d.value) else r
  }

  /** The ratio a symbol adds in part two: only a gear with exactly two neighbours counts. */
  function GearRatio(digits: seq<Digits>, s: Symbols): int
  {
    var r := Neighbours(digits, s);
    if s.gear && r.0 == 2 then r.1 else 0
  }

  function GearRatios(digits: seq<Digits>, symbols: seq<Symbols>): int
  {
    if symbols == [] then 0
    else GearRatios(digits, symbols[..|symbols| - 1]) + GearRatio(digits, symbols[|symbols| - 1])
  }

  /** `find_gears`: skips symbols that are not '*', counts and multiplies the adjacent numbers. */
  method FindGears(digits: seq<Digits>, symbols: seq<Symbols>) returns (ret: int)
    ensures ret == GearRatios(digits, symbols)
  {
    ret := 0;
    for m := 0 to |symbols|
      invariant ret == GearRatios(digits, symbols[..m])
    {
      assert symbols[..m + 1][..m] == symbols[..m];
      var s := symbols[m];
      var adjacent := 0;
      var gearRatio := 1;
      if !s.gear {
        continue;
      }
      for n := 0 to |digits|
        invariant (adjacent, gearRatio) == Neighbours(digits[..n], s)
      {
        assert digits[..n + 1][..n] == digits[..n];
        var d := digits[n];
        if Adjacent(d, s) {
          adjacent := adjacent + 1;
          gearRatio := gearRatio * d.value;
        }
      }
      assert digits[..|digits|] == digits;
      if adjacent == 2 {
        ret := ret + gearRatio;
      }
    }
    assert symbols[..|symbols|] == symbols;
  }

  /** The neighbour product multiplies exactly the neighbours: none gives 1, one gives
      its value, two give the product of their values. */
  lemma {:induction false} NeighboursProduct(digits: seq<Digits>, s: Symbols)
    ensures Neighbours(digits, s).0 == 0 ==> Neighbours(digits, s).1 == 1
    ensures Neighbours(digits, s).0 == 1 ==>
      exists a | 0 <= a < |digits| :: InWindow(digits[a], s) && Neighbours(digits, s).1 == digits[a].value
    ensures Neighbours(digits, s).0 == 2 ==>
      exists a, b | 0 <= a < b < |digits| :: InWindow(digits[a], s) && InWindow(digits[b], s) &&
        Neighbours(digits, s).1 == digits[a].value * digits[b].value
  {
    if digits != [] {
      var init := digits[..|digits| - 1];
      var last := |digits| - 1;
      NeighboursProduct(init, s);
      var r := Neighbours(init, s);
      if InWindow(digits[last], s) {
        if r.0 == 1 {
          var a :| 0 <= a < |init| && InWindow(init[a], s) && r.1 == init[a].value;
          assert InWindow(digits[a], s) && InWindow(digits[last], s);
        }
      } else {
        if r.0 == 1 {
          var a :| 0 <= a < |init| && InWindow(init[a], s) && r.1 == init[a].value;
          assert digits[a] == init[a];
        }
        if r.0 == 2 {
          var a, b :| 0 <= a < b < |init| && InWindow(init[a], s) && InWindow(init[b], s) &&
            r.1 == init[a].value * init[b].value;
          assert digits[a] == init[a] && digits[b] == init[b];
        }
      }
    }
  }

  /** Symbols that are not gears add nothing to part two. */
  lemma {:induction false} GearRatiosOfNoGears(digits: seq<Digits>, symbols: seq<Symbols>)
    requires forall m | 0 <= m < |symbols| :: !symbols[m].gear
    ensures GearRatios(digits, symbols) == 0
  {
    if symbols != [] {
      GearRatiosOfNoGears(digits, symbols[..|symbols| - 1]);
    }
  }

  lemma ExampleTokens()
    ensures Scan("12*\n.5", 0) == ([Digits(12, 0, 1, 0)], [Symbols(2, 0, true)])
  {
    var input := "12*\n.5";
    assert input[0] == '1' && input[1] == '2' && input[2] == '*' && input[3] == '\n' && input[4] == '.' && input[5] == '5';
    assert input[5..] == ['5'];
    SpanToEnd(input, 5);
    assert Scan(input, 5) == ([], []);
    ScanSkip(input, 4);
    ScanSkip(input, 3);
    ScanSymbol(input, 2);
    assert Pos(input, 2) == (2, 0);
    assert [Symbols(2, 0, true)] + [] == [Symbols(2, 0, true)];
    assert input[0..2] == ['1', '2'];
    assert DecimalValue(['1', '2']) == 12;
    ScanRun(input, 0, 2);
    assert [Digits(12, 0, 1, 0)] + [] == [Digits(12, 0, 1, 0)];
  }
}
