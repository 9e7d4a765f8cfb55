/** Day 1: the calibration value of a line is ten times its first decimal
    digit plus its last one; the answer is the sum over the non-empty lines. */
module Day01 {
  import opened Common

  /** The decimal digits of a line, in order (what `proc_line` collects into `store`). */
  function LineDigits(line: seq<char>): (ds: seq<nat>)
    ensures |ds| <= |line|
    ensures forall i | 0 <= i < |ds| :: ds[i] < 10
  {
    if line == [] then []
    else (if IsDigit(line[0]) then [DigitValue(line[0])] else []) + LineDigits(line[1..])
  }

  /** The calibration value; None where the source unwraps an empty digit list and panics. */
  function CalibrationValue(line: seq<char>): Option<nat>
  {
    var ds := LineDigits(line);
    if ds == [] then None else Some(10 * ds[0] + ds[|ds| - 1])
  }

  /** `proc_line`: collects the digits in a loop, then combines the first and the last. */
  method ProcLine(line: seq<char>) returns (r: Option<nat>)
    ensures r == CalibrationValue(line)
  {
    var store: seq<nat> := [];
    var i := 0;
    while i < |line|
      invariant 0 <= i <= |line|
      invariant store == LineDigits(line[..i])
    {
      assert line[..i + 1] == line[..i] + [line[i]];
      LineDigitsAppend(line[..i], [line[i]]);
      if IsDigit(line[i]) {
        store := store + [DigitValue(line[i])];
      }
      i := i + 1;
    }
    assert line[..i] == line;
    if store == [] {
      r := None;
    } else {
      r := Some(10 * store[0] + store[|store| - 1]);
    }
  }

  lemma {:induction false} LineDigitsOfDigitFree(line: seq<char>)
    requires forall i | 0 <= i < |line| :: !IsDigit(line[i])
    ensures LineDigits(line) == []
  {
    if line != [] {
      LineDigitsOfDigitFree(line[1..]);
    }
  }

  lemma {:induction false} LineDigitsAppend(a: seq<char>, b: seq<char>)
    ensures LineDigits(a + b) == LineDigits(a) + LineDigits(b)
  {
    if a == [] {
      assert a + b == b;
    } else {
      assert (a + b)[1..] == a[1..] + b;
      LineDigitsAppend(a[1..], b);
    }
  }

  /** A line with digits has a two-digit value; a line without digits has none (the source panics). */
  lemma CalibrationValueRange(line: seq<char>)
    ensures CalibrationValue(line).Some? <==> exists i :: 0 <= i < |line| && IsDigit(line[i])
    ensures CalibrationValue(line).Some? ==> CalibrationValue(line).value <= 99
  {
    if exists i :: 0 <= i < |line| && IsDigit(line[i]) {
      var i :| 0 <= i < |line| && IsDigit(line[i]);
      assert line == line[..i] + [line[i]] + line[i + 1..];
      LineDigitsAppend(line[..i] + [line[i]], line[i + 1..]);
      LineDigitsAppend(line[..i], [line[i]]);
      assert [line[i]][1..] == [];
    } else {
      LineDigitsOfDigitFree(line);
    }
  }

  /** A line with exactly one digit d counts as 11 * d. */
  lemma SingleDigit(pre: seq<char>, d: char, post: seq<char>)
    requires IsDigit(d)
    requires forall i | 0 <= i < |pre| :: !IsDigit(pre[i])
    requires forall i | 0 <= i < |post| :: !IsDigit(post[i])
    ensures CalibrationValue(pre + [d] + post) == Some(11 * DigitValue(d))
  {
    LineDigitsOfDigitFree(pre);
    LineDigitsOfDigitFree(post);
    LineDigitsAppend(pre + [d], post);
    LineDigitsAppend(pre, [d]);
    assert [d][1..] == [];
  }

  /** Only the first and the last digit of a line count, whatever lies between them. */
  lemma FirstAndLast(pre: seq<char>, d: char, mid: seq<char>, e: char, post: seq<char>)
    requires IsDigit(d) && IsDigit(e)
    requires forall i | 0 <= i < |pre| :: !IsDigit(pre[i])
    requires forall i | 0 <= i < |post| :: !IsDigit(post[i])
    ensures CalibrationValue(pre + [d] + mid + [e] + post) == Some(10 * DigitValue(d) + DigitValue(e))
  {
    LineDigitsOfDigitFree(pre);
    LineDigitsOfDigitFree(post);
    LineDigitsAppend(pre + [d] + mid + [e], post);
    LineDigitsAppend(pre + [d] + mid, [e]);
    LineDigitsAppend(pre + [d], mid);
    LineDigitsAppend(pre, [d]);
    assert [d][1..] == [] && [e][1..] == [];
  }

  lemma ExampleTwelve()
    ensures CalibrationValue("1abc2") == Some(12)
  {
    FirstAndLast([], '1', "abc", '2', []);
    assert [] + ['1'] + "abc" + ['2'] + [] == "1abc2";
  }

  lemma ExampleThirtyEight()
    ensures CalibrationValue("pqr3stu8vwx") == Some(38)
  {
    FirstAndLast("pqr", '3', "stu", '8', "vwx");
    assert "pqr" + ['3'] + "stu" + ['8'] + "vwx" == "pqr3stu8vwx";
  }

  lemma ExampleFifteen()
    ensures CalibrationValue("a1b2c3d4e5f") == Some(15)
  {
    FirstAndLast("a", '1', "b2c3d4e", '5', "f");
    assert "a" + ['1'] + "b2c3d4e" + ['5'] + "f" == "a1b2c3d4e5f";
  }

  lemma ExampleSeventySeven()
    ensures CalibrationValue("treb7uchet") == Some(77)
  {
    SingleDigit("treb", '7', "uchet");
  }

  /** The answer over a list of lines: empty lines are skipped, and one line without digits fails the whole run. */
  function Total(lines: seq<seq<char>>): Option<nat>
  {
    if lines == [] then Some(0)
    else
      var prefix := Total(lines[..|lines| - 1]);
      var l := lines[|lines| - 1];
      if prefix.None? then None
      else if l == [] then prefix
      else match CalibrationValue(l)
        case None => None
        case Some(v) => Some(prefix.value + v)
  }

  /** `proc`: sums `proc_line` over the non-empty lines of the input. */
  method Proc(data: seq<char>) returns (r: Option<nat>)
    ensures r == Total(Lines(data))
  {
    var lines := Lines(data);
    var ret := 0;
    var i := 0;
    while i < |lines|
      invariant 0 <= i <= |lines|
      invariant Total(lines[..i]) == Some(ret)
    {
      TotalStep(lines, i);
      if lines[i] != [] {
        var d := ProcLine(lines[i]);
        if d.None? {
          NoneSticks(lines, i + 1);
          return None;
        }
        ret := ret + d.value;
      }
      i := i + 1;
    }
    assert lines[..i] == lines;
    r := Some(ret);
  }

  /** One more line: skipped when empty, otherwise its value is added or its failure kept. */
  lemma TotalStep(lines: seq<seq<char>>, i: nat)
    requires i < |lines|
    ensures Total(lines[..i]).Some? && lines[i] == [] ==> Total(lines[..i + 1]) == Total(lines[..i])
    ensures Total(lines[..i]).Some? && lines[i] != [] && CalibrationValue(lines[i]).Some? ==>
      Total(lines[..i + 1]) == Some(Total(lines[..i]).value + CalibrationValue(lines[i]).value)
    ensures lines[i] != [] && CalibrationValue(lines[i]).None? ==> Total(lines[..i + 1]) == None
  {
    assert lines[..i + 1][..i] == lines[..i];
  }

  /** Once a prefix of the lines fails, every longer prefix fails too. */
  lemma {:induction false} NoneSticks(lines: seq<seq<char>>, k: nat)
    requires 0 < k <= |lines|
    requires Total(lines[..k]) == None
    ensures Total(lines) == None
    decreases |lines| - k
  {
    if k < |lines| {
      assert lines[..k + 1][..k] == lines[..k];
      NoneSticks(lines, k + 1);
    } else {
      assert lines[..k] == lines;
    }
  }
}
