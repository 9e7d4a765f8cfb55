/** Day 12: rows of springs, '.' working, '#' damaged and '?' unknown, each with the lengths
    of its runs of damaged springs. The answer counts, for every row, the ways to fill in the
    unknown springs so that the runs come out as listed. */
module Day12 {
  import opened Common

  predicate IsCell(c: char) { c == '.' || c == '#' || c == '?' }

  predicate IsDamaged(c: char) { c == '#' }

  predicate AllCells(data: seq<char>) { forall i | 0 <= i < |data| :: IsCell(data[i]) }

  predicate AllU32(list: seq<nat>) { forall i | 0 <= i < |list| :: list[i] < U32_LIMIT }

  /** A row of springs and its list of run lengths. */
  type Line = (seq<char>, seq<nat>)

  // Parsing.

  /** The part of `separated_list1(char(','), u32)` after its first number: a comma and a
      number, as long as both are there. */
  function CommaTail(s: seq<char>): (r: (seq<nat>, seq<char>))
    ensures AllU32(r.0) && |r.1| <= |s|
    decreases |s|
  {
    if s != [] && s[0] == ',' then
      match ParseU32(s[1..])
      case None => ([], s)
      case Some((n, rest)) =>
        var tail := CommaTail(rest);
        ConsU32(n, tail.0);
        ([n] + tail.0, tail.1)
    else ([], s)
  }

  lemma ConsU32(n: nat, list: seq<nat>)
    requires n < U32_LIMIT && AllU32(list)
    ensures AllU32([n] + list)
  {
  }

  /** `parse_list`: one or more numbers separated by commas. */
  function ParseList(s: seq<char>): (r: Option<(seq<nat>, seq<char>)>)
    ensures r.Some? ==> r.value.0 != [] && AllU32(r.value.0) && |r.value.1| < |s|
  {
    match ParseU32(s)
    case None => None
    case Some((n, rest)) =>
      var tail := CommaTail(rest);
      ConsU32(n, tail.0);
      Some(([n] + tail.0, tail.1))
  }

  /** `parse_line`: one or more cells, blanks, a list of numbers, a newline. */
  function ParseLine(s: seq<char>): (r: Option<(Line, seq<char>)>)
    ensures r.Some? ==> r.value.0.0 != [] && AllCells(r.value.0.0)
    ensures r.Some? ==> r.value.0.1 != [] && AllU32(r.value.0.1) && |r.value.1| < |s|
  {
    var k := Span(s, IsCell);
    if k == 0 then None
    else
      match Space1(s[k..])
      case None => None
      case Some(r1) =>
        match ParseList(r1)
        case None => None
        case Some((list, r2)) =>
          match Newline(r2)
          case None => None
          case Some(r3) => Some(((s[..k], list), r3))
  }

  /** Lines as long as they parse. */
  function ParseLines(s: seq<char>): (r: (seq<Line>, seq<char>))
    decreases |s|
  {
    match ParseLine(s)
    case None => ([], s)
    case Some((line, rest)) =>
      var tail := ParseLines(rest);
      ([line] + tail.0, tail.1)
  }

  /** `parse`: `many1(parse_line)`. The text after the last line is ignored. */
  function Parse(s: seq<char>): (r: Option<seq<Line>>)
    ensures r.Some? ==> r.value != []
  {
    var (lines, _) := ParseLines(s);
    if lines == [] then None else Some(lines)
  }

  /** A line as `parse_line` produces it: a non-empty row of cells and a non-empty list. */
  predicate WellFormed(line: Line) { line.0 != [] && AllCells(line.0) && line.1 != [] && AllU32(line.1) }

  predicate AllWellFormed(lines: seq<Line>)
  {
    lines == [] || (WellFormed(lines[0]) && AllWellFormed(lines[1..]))
  }

  function ShowCommaTail(list: seq<nat>): seq<char>
  {
    if list == [] then [] else [','] + ShowNat(list[0]) + ShowCommaTail(list[1..])
  }

  function ShowList(list: seq<nat>): seq<char>
  {
    if list == [] then [] else ShowNat(list[0]) + ShowCommaTail(list[1..])
  }

  function ShowLine(line: Line): seq<char>
  {
    line.0 + " " + ShowList(line.1) + "\n"
  }

  function ShowLines(lines: seq<Line>): seq<char>
  {
    if lines == [] then [] else ShowLine(lines[0]) + ShowLines(lines[1..])
  }

  lemma CommaTailCons(n: nat, after: seq<char>, ns: seq<nat>, rest: seq<char>)
    requires n < U32_LIMIT
    requires after == [] || !IsDigit(after[0])
    requires CommaTail(after) == (ns, rest)
    ensures CommaTail([','] + (ShowNat(n) + after)) == ([n] + ns, rest)
  {
    assert ([','] + (ShowNat(n) + after))[1..] == ShowNat(n) + after;
    ParseU32OfShowNat(n, after);
  }

  lemma ShowCommaTailSplit(list: seq<nat>, rest: seq<char>)
    requires list != []
    ensures ShowCommaTail(list) + rest == [','] + (ShowNat(list[0]) + (ShowCommaTail(list[1..]) + rest))
  {
    var a, b, c := [','], ShowNat(list[0]), ShowCommaTail(list[1..]);
    assert ShowCommaTail(list) == a + b + c;
    AppendAssoc(a + b, c, rest);
    AppendAssoc(a, b, c + rest);
  }

  /** Printed comma-separated numbers read back, stopping before what follows. */
  lemma {:induction false} CommaTailOfShow(list: seq<nat>, rest: seq<char>)
    requires AllU32(list)
    requires rest == [] || (rest[0] != ',' && !IsDigit(rest[0]))
    ensures CommaTail(ShowCommaTail(list) + rest) == (list, rest)
    ensures ShowCommaTail(list) + rest == [] || !IsDigit((ShowCommaTail(list) + rest)[0])
  {
    if list != [] {
      var after := ShowCommaTail(list[1..]) + rest;
      assert AllU32(list[1..]);
      CommaTailOfShow(list[1..], rest);
      ShowCommaTailSplit(list, rest);
      CommaTailCons(list[0], after, list[1..], rest);
      assert list == [list[0]] + list[1..];
    } else {
      assert ShowCommaTail(list) + rest == rest;
    }
  }

  lemma ParseLineFrom(s: seq<char>, k: nat, r1: seq<char>, list: seq<nat>, r2: seq<char>, r3: seq<char>)
    requires 0 < k <= |s| && Span(s, IsCell) == k
    requires Space1(s[k..]) == Some(r1) && ParseList(r1) == Some((list, r2)) && Newline(r2) == Some(r3)
    ensures ParseLine(s) == Some(((s[..k], list), r3))
  {
  }

  lemma ParseListOfShow(list: seq<nat>, rest: seq<char>)
    requires list != [] && AllU32(list)
    requires rest == [] || (rest[0] != ',' && !IsDigit(rest[0]))
    ensures ParseList(ShowNat(list[0]) + (ShowCommaTail(list[1..]) + rest)) == Some((list, rest))
  {
    assert AllU32(list[1..]);
    CommaTailOfShow(list[1..], rest);
    ParseU32OfShowNat(list[0], ShowCommaTail(list[1..]) + rest);
    assert list == [list[0]] + list[1..];
  }

  lemma ShowLineSplit(line: Line, rest: seq<char>)
    requires line.1 != []
    ensures ShowLine(line) + rest == line.0 + (" " + (ShowNat(line.1[0]) + (ShowCommaTail(line.1[1..]) + ("\n" + rest))))
  {
    var a, b, c, d := line.0, ShowNat(line.1[0]), ShowCommaTail(line.1[1..]), "\n" + rest;
    assert ShowList(line.1) == b + c;
    assert ShowLine(line) + rest == a + " " + (b + c) + "\n" + rest;
    AppendAssoc(a + " " + (b + c), "\n", rest);
    AppendAssoc(a + " ", b + c, d);
    AppendAssoc(a, " ", (b + c) + d);
    AppendAssoc(b, c, d);
  }

  /** A printed line reads back as the same row and list, with nothing consumed after it. */
  lemma ParseLineOfShow(line: Line, rest: seq<char>)
    requires WellFormed(line)
    ensures ParseLine(ShowLine(line) + rest) == Some((line, rest))
  {
    var (data, list) := line;
    var nl := "\n" + rest;
    var numbers := ShowNat(list[0]) + (ShowCommaTail(list[1..]) + nl);
    var s := ShowLine(line) + rest;
    ShowLineSplit(line, rest);
    SpanOfConcat(data, " " + numbers, IsCell);
    assert s[..|data|] == data && s[|data|..] == " " + numbers;
    Space1OfBlank(numbers);
    ParseListOfShow(list, nl);
    ParseLineFrom(s, |data|, numbers, list, nl, rest);
  }

  lemma ParseLinesStep(s: seq<char>, lines: seq<Line>, rest: seq<char>)
    requires lines != [] && ParseLine(s) == Some((lines[0], rest)) && ParseLines(rest) == (lines[1..], [])
    ensures ParseLines(s) == (lines, [])
  {
    assert lines == [lines[0]] + lines[1..];
  }

  lemma ParseLinesOfShowCons(lines: seq<Line>, rest: seq<char>)
    requires lines != [] && WellFormed(lines[0]) && ParseLines(rest) == (lines[1..], [])
    ensures ParseLines(ShowLine(lines[0]) + rest) == (lines, [])
  {
    ParseLineOfShow(lines[0], rest);
    ParseLinesStep(ShowLine(lines[0]) + rest, lines, rest);
  }

  /** Printed lines read back as the same lines. */
  lemma {:induction false} ParseLinesOfShow(lines: seq<Line>)
    requires AllWellFormed(lines)
    ensures ParseLines(ShowLines(lines)) == (lines, [])
  {
    if lines != [] {
      ParseLinesOfShow(lines[1..]);
      ParseLinesOfShowCons(lines, ShowLines(lines[1..]));
    }
  }

  // The count, as `solve` and `read_bang` compute it without their cache.

  predicate NoDamage(data: seq<char>) { forall i | 0 <= i < |data| :: data[i] == '.' || data[i] == '?' }

  predicate Fillable(run: seq<char>) { forall i | 0 <= i < |run| :: run[i] == '#' || run[i] == '?' }

  /** What `read_bang` needs to take `data[0..group]`: the group fits once there is data. */
  predicate GroupFits(data: seq<char>, list: seq<nat>)
  {
    data == [] || (list != [] && list[0] <= |data|)
  }

  /** `solve`: the ways to place the runs of `list` in `data`. Cells before the first '#' or
      '?' are skipped; a '#' must start the first run, a '?' may start it or be working. */
  function Ways(data: seq<char>, list: seq<nat>): nat
    decreases |data|, 1
  {
    if list == [] then (if NoDamage(data) then 1 else 0)
    else if data == [] then 0
    else if |data| < list[0] then 0
    else if data[0] == '#' then AfterGroup(data, list)
    else if data[0] == '?' then AfterGroup(data, list) + Ways(data[1..], list)
    else Ways(data[1..], list)
  }

  /** `read_bang`: the ways with the first run starting at the first cell. The run's cells must
      all be able to be damaged, and the cell after it, if any, must be able to be working. */
  function AfterGroup(data: seq<char>, list: seq<nat>): nat
    requires GroupFits(data, list)
    decreases |data|, 0
  {
    if data == [] then 0
    else
      var group := list[0];
      if !Fillable(data[..group]) then 0
      else if group != |data| then
        if data[group] == '?' || data[group] == '.' then Ways(data[group + 1..], list[1..]) else 0
      else if |list| == 1 then 1 else 0
  }

  /** With no runs left, there is one way when no '#' remains and none otherwise. */
  lemma NoGroups(data: seq<char>)
    requires AllCells(data)
    ensures Ways(data, []) == (if '#' in data then 0 else 1)
  {
    if '#' in data {
      var i :| 0 <= i < |data| && data[i] == '#';
    }
  }

  /** No data, or fewer cells than the first run, leaves no way. */
  lemma TooShort(data: seq<char>, list: seq<nat>)
    requires list != [] && |data| < list[0]
    ensures Ways(data, list) == 0
  {
  }

  /** A '.' inside the first run, or a '#' right after it, leaves no way to start it here. */
  lemma GroupBlocked(data: seq<char>, list: seq<nat>, i: nat)
    requires data != [] && list != [] && list[0] <= |data|
    requires (i < list[0] && data[i] == '.') || (i == list[0] < |data| && data[i] == '#')
    ensures AfterGroup(data, list) == 0
  {
    if i < list[0] {
      assert data[..list[0]][i] == '.';
    }
  }

  /** A run that ends exactly at the end of the data counts once if it is the last run. */
  lemma GroupAtEnd(data: seq<char>, list: seq<nat>)
    requires data != [] && list != [] && list[0] == |data| && Fillable(data)
    ensures AfterGroup(data, list) == (if |list| == 1 then 1 else 0)
  {
    assert data[..list[0]] == data;
  }

  // What the count means: the number of fillings of the '?' cells whose runs match the list.

  predicate Known(w: seq<char>) { forall i | 0 <= i < |w| :: w[i] == '#' || w[i] == '.' }

  predicate Positive(list: seq<nat>) { forall i | 0 <= i < |list| :: list[i] >= 1 }

  /** The lengths of the runs of '#' in a row, left to right. */
  function Runs(w: seq<char>): seq<nat>
    decreases |w|
  {
    if w == [] then []
    else if w[0] != '#' then Runs(w[1..])
    else
      var k := Span(w, IsDamaged);
      [k] + Runs(w[k..])
  }

  /** The fillings of `todo`, each '?' made '#' or '.', appended to `done`, whose runs are
      `list`. */
  function Fillings(done: seq<char>, todo: seq<char>, list: seq<nat>): nat
    decreases |todo|
  {
    if todo == [] then (if Runs(done) == list then 1 else 0)
    else if todo[0] == '?' then Fillings(done + ['#'], todo[1..], list) + Fillings(done + ['.'], todo[1..], list)
    else Fillings(done + [todo[0]], todo[1..], list)
  }

  lemma {:induction false} RunsEmpty(w: seq<char>)
    ensures Runs(w) == [] <==> '#' !in w
    decreases |w|
  {
    if w != [] && w[0] != '#' {
      RunsEmpty(w[1..]);
      assert w == [w[0]] + w[1..];
    }
  }

  lemma {:induction false} RunsHead(w: seq<char>)
    requires Runs(w) != []
    ensures Runs(w)[0] <= |w|
    decreases |w|
  {
    if w[0] != '#' {
      RunsHead(w[1..]);
    }
  }

  /** Runs of a row that starts with k '#' and then a '.'. */
  lemma RunsAfterGroup(w: seq<char>, k: nat)
    requires 0 < k < |w| && w[k] == '.'
    requires forall i | 0 <= i < k :: w[i] == '#'
    ensures Runs(w) == [k] + Runs(w[k + 1..])
  {
    var s := Span(w, IsDamaged);
    assert s == k;
    assert w[k..][1..] == w[k + 1..];
  }

  lemma RunsWholeGroup(w: seq<char>)
    requires w != [] && forall i | 0 <= i < |w| :: w[i] == '#'
    ensures Runs(w) == [|w|]
  {
    var s := Span(w, IsDamaged);
    assert s == |w|;
  }

  /** On a row without '?', the count is 1 when its runs are the list and 0 otherwise. */
  lemma {:induction false} KnownWays(w: seq<char>, list: seq<nat>)
    requires Known(w) && Positive(list)
    ensures Ways(w, list) == (if Runs(w) == list then 1 else 0)
    decreases |w|, 1
  {
    if list == [] {
      RunsEmpty(w);
      assert NoDamage(w) <==> '#' !in w;
    } else if w == [] {
    } else if |w| < list[0] {
      if Runs(w) == list { RunsHead(w); }
    } else if w[0] == '#' {
      KnownGroup(w, list);
    } else {
      assert Known(w[1..]);
      KnownWays(w[1..], list);
    }
  }

  lemma {:induction false} KnownGroup(w: seq<char>, list: seq<nat>)
    requires Known(w) && Positive(list)
    requires w != [] && w[0] == '#' && list != [] && list[0] <= |w|
    ensures AfterGroup(w, list) == (if Runs(w) == list then 1 else 0)
    decreases |w|, 0
  {
    var g := list[0];
    var k := Span(w, IsDamaged);
    assert Runs(w) == [k] + Runs(w[k..]);
    if !Fillable(w[..g]) {
      var j :| 0 <= j < g && w[..g][j] == '.';
      assert k <= j;
    } else {
      assert forall i | 0 <= i < g :: w[i] == '#' by {
        forall i | 0 <= i < g ensures w[i] == '#' { assert w[..g][i] == w[i]; }
      }
      if g != |w| {
        if w[g] == '.' {
          RunsAfterGroup(w, g);
          assert Known(w[g + 1..]) && Positive(list[1..]);
          KnownWays(w[g + 1..], list[1..]);
          assert list == [g] + list[1..];
        } else {
          assert g < k;
        }
      } else {
        RunsWholeGroup(w);
        if |list| != 1 {
          assert list != [g];
        } else {
          assert list == [g];
        }
      }
    }
  }

  /** An unknown cell counts the ways with it damaged plus the ways with it working. */
  lemma {:induction false} WaysSplit(data: seq<char>, list: seq<nat>, i: nat)
    requires Positive(list) && i < |data| && data[i] == '?'
    ensures Ways(data, list) == Ways(data[i := '#'], list) + Ways(data[i := '.'], list)
    decreases |data|, 1
  {
    var h, o := data[i := '#'], data[i := '.'];
    if list == [] {
      assert !NoDamage(h) by { assert h[i] == '#'; }
      assert NoDamage(o) == NoDamage(data) by {
        assert forall j | 0 <= j < |data| :: (o[j] == '.' || o[j] == '?') == (data[j] == '.' || data[j] == '?');
      }
    } else if |data| < list[0] {
    } else if i == 0 {
      GroupSplit(data, list, 0);
      assert o[1..] == data[1..];
      assert !Fillable(o[..list[0]]) by { assert o[..list[0]][0] == '.'; }
    } else {
      assert h[0] == data[0] && o[0] == data[0];
      assert h[1..] == data[1..][i - 1 := '#'] && o[1..] == data[1..][i - 1 := '.'];
      if data[0] == '#' {
        GroupSplit(data, list, i);
      } else if data[0] == '?' {
        GroupSplit(data, list, i);
        WaysSplit(data[1..], list, i - 1);
      } else {
        WaysSplit(data[1..], list, i - 1);
      }
    }
  }

  lemma {:induction false} GroupSplit(data: seq<char>, list: seq<nat>, i: nat)
    requires Positive(list) && GroupFits(data, list) && i < |data| && data[i] == '?'
    ensures AfterGroup(data, list) == AfterGroup(data[i := '#'], list) + AfterGroup(data[i := '.'], list)
    decreases |data|, 0
  {
    var h, o := data[i := '#'], data[i := '.'];
    var g := list[0];
    if i < g {
      assert !Fillable(o[..g]) by { assert o[..g][i] == '.'; }
      assert Fillable(h[..g]) == Fillable(data[..g]) by {
        assert forall j | 0 <= j < g :: (h[..g][j] == '#' || h[..g][j] == '?') == (data[..g][j] == '#' || data[..g][j] == '?');
      }
      if g < |data| {
        assert h[g] == data[g] && h[g + 1..] == data[g + 1..];
      }
    } else {
      assert h[..g] == data[..g] && o[..g] == data[..g];
      if i == g {
        assert o[g + 1..] == data[g + 1..];
      } else {
        assert h[g] == data[g] && o[g] == data[g];
        assert h[g + 1..] == data[g + 1..][i - g - 1 := '#'];
        assert o[g + 1..] == data[g + 1..][i - g - 1 := '.'];
        if Fillable(data[..g]) && (data[g] == '?' || data[g] == '.') {
          assert Positive(list[1..]);
          WaysSplit(data[g + 1..], list[1..], i - g - 1);
        }
      }
    }
  }

  lemma {:induction false} WaysOfPrefix(done: seq<char>, todo: seq<char>, list: seq<nat>)
    requires Known(done) && AllCells(todo) && Positive(list)
    ensures Ways(done + todo, list) == Fillings(done, todo, list)
    decreases |todo|
  {
    var d := done + todo;
    if todo == [] {
      assert d == done;
      KnownWays(done, list);
    } else if todo[0] == '?' {
      var i := |done|;
      WaysSplit(d, list, i);
      assert d[i := '#'] == (done + ['#']) + todo[1..];
      assert d[i := '.'] == (done + ['.']) + todo[1..];
      WaysOfPrefix(done + ['#'], todo[1..], list);
      WaysOfPrefix(done + ['.'], todo[1..], list);
    } else {
      assert d == (done + [todo[0]]) + todo[1..];
      WaysOfPrefix(done + [todo[0]], todo[1..], list);
    }
  }

  /** The count is the number of fillings of the unknown cells whose runs are the list, for a
      list of positive run lengths. */
  lemma CountsFillings(data: seq<char>, list: seq<nat>)
    requires AllCells(data) && Positive(list)
    ensures Ways(data, list) == Fillings([], data, list)
  {
    WaysOfPrefix([], data, list);
    assert [] + data == data;
  }

  // `solve` and `read_bang` with their cache.

  type Cache = map<(nat, nat), nat>

  predicate IsSuffix<T(==)>(s: seq<T>, t: seq<T>) { |s| <= |t| && s == t[|t| - |s|..] }

  lemma SuffixDrop<T>(s: seq<T>, t: seq<T>, n: nat)
    requires IsSuffix(s, t) && n <= |s|
    ensures IsSuffix(s[n..], t)
  {
    assert s[n..] == t[|t| - |s| + n..];
  }

  /** The cache is keyed on the lengths of a suffix of the row and a suffix of its list, and each
      entry holds the count for those suffixes. */
  predicate Sound(cache: Cache, row: seq<char>, groups: seq<nat>)
  {
    forall key | key in cache ::
      key.0 <= |row| && key.1 <= |groups| && cache[key] == Ways(row[|row| - key.0..], groups[|groups| - key.1..])
  }

  /** `read_bang`: the memoised count with the first run starting here. */
  method ReadBang(data: seq<char>, list: seq<nat>, cache: Cache, ghost row: seq<char>, ghost groups: seq<nat>)
    returns (r: nat, cache': Cache)
    requires GroupFits(data, list) && IsSuffix(data, row) && IsSuffix(list, groups) && Sound(cache, row, groups)
    ensures r == AfterGroup(data, list) && Sound(cache', row, groups)
    decreases |data|, 0
  {
    if data == [] {
      return 0, cache;
    }
    var group := list[0];
    if !Fillable(data[..group]) {
      return 0, cache;
    }
    if group != |data| {
      var next := data[group];
      if next == '?' || next == '.' {
        SuffixDrop(data, row, group + 1);
        SuffixDrop(list, groups, 1);
        r, cache' := Solve(data[group + 1..], list[1..], cache, row, groups);
      } else {
        r, cache' := 0, cache;
      }
      return;
    }
    r := if |list| == 1 then 1 else 0;
    cache' := cache;
  }

  lemma SoundLookup(cache: Cache, row: seq<char>, groups: seq<nat>, data: seq<char>, list: seq<nat>)
    requires Sound(cache, row, groups) && IsSuffix(data, row) && IsSuffix(list, groups)
    requires (|data|, |list|) in cache
    ensures cache[(|data|, |list|)] == Ways(data, list)
  {
  }

  lemma SoundInsert(cache: Cache, row: seq<char>, groups: seq<nat>, data: seq<char>, list: seq<nat>, r: nat)
    requires Sound(cache, row, groups) && IsSuffix(data, row) && IsSuffix(list, groups)
    requires r == Ways(data, list)
    ensures Sound(cache[(|data|, |list|) := r], row, groups)
  {
  }

  /** The scan of `solve` at cell idx, once the cells before it were '.'. */
  lemma ScanAt(data: seq<char>, list: seq<nat>, idx: nat)
    requires list != [] && idx < |data|
    ensures |data| - idx < list[0] ==> Ways(data[idx..], list) == 0
    ensures |data| - idx >= list[0] && data[idx] == '#' ==> Ways(data[idx..], list) == AfterGroup(data[idx..], list)
    ensures |data| - idx >= list[0] && data[idx] == '?' ==>
      Ways(data[idx..], list) == AfterGroup(data[idx..], list) + Ways(data[idx + 1..], list)
    ensures |data| - idx >= list[0] && data[idx] != '#' && data[idx] != '?' ==>
      Ways(data[idx..], list) == Ways(data[idx + 1..], list)
  {
    assert data[idx..][1..] == data[idx + 1..];
  }

  /** `solve`: the memoised count. A cached entry for the same pair of lengths is returned as is;
      otherwise the cells are scanned up to the first '#' or '?' and the result is cached. */
  method Solve(data: seq<char>, list: seq<nat>, cache: Cache, ghost row: seq<char>, ghost groups: seq<nat>)
    returns (r: nat, cache': Cache)
    requires IsSuffix(data, row) && IsSuffix(list, groups) && Sound(cache, row, groups)
    ensures r == Ways(data, list) && Sound(cache', row, groups)
    decreases |data|, 1
  {
    var key := (|data|, |list|);
    if key in cache {
      SoundLookup(cache, row, groups, data, list);
      return cache[key], cache;
    }
    if list == [] {
      return if NoDamage(data) then 1 else 0, cache;
    }
    if data == [] {
      return 0, cache;
    }
    r, cache' := 0, cache;
    for idx := 0 to |data|
      invariant Sound(cache', row, groups)
      invariant r == 0 && Ways(data[idx..], list) == Ways(data, list)
    {
      ScanAt(data, list, idx);
      var group := list[0];
      if |data| - idx < group {
        r := 0;
        break;
      }
      var c := data[idx];
      if c == '.' {
        continue;
      }
      SuffixDrop(data, row, idx);
      if c == '#' {
        r, cache' := ReadBang(data[idx..], list, cache', row, groups);
        break;
      }
      if c == '?' {
        var bang, dot;
        bang, cache' := ReadBang(data[idx..], list, cache', row, groups);
        SuffixDrop(data, row, idx + 1);
        dot, cache' := Solve(data[idx + 1..], list, cache', row, groups);
        r := bang + dot;
        break;
      }
    }
    SoundInsert(cache', row, groups, data, list, r);
    cache' := cache'[key := r];
  }

  /** `solve` on a whole row with a fresh cache. */
  method SolveLine(data: seq<char>, list: seq<nat>) returns (r: nat)
    ensures r == Ways(data, list)
  {
    var cache;
    r, cache := Solve(data, list, map[], data, list);
  }

  // Part two.

  /** The row followed by k more copies of it, each after a '?'. */
  function Unfold(data: seq<char>, k: nat): seq<char>
  {
    if k == 0 then data else Unfold(data, k - 1) + (['?'] + data)
  }

  function Repeat<T>(xs: seq<T>, k: nat): seq<T>
  {
    if k == 0 then [] else Repeat(xs, k - 1) + xs
  }

  /** `part_two_process_data`: four times, append a '?' and the row, and the list. */
  method PartTwoProcessData(data: seq<char>, list: seq<nat>) returns (newData: seq<char>, newList: seq<nat>)
    ensures newData == Unfold(data, 4) && newList == Repeat(list, 5)
  {
    newData, newList := data, list;
    assert Repeat(list, 1) == list;
    for n := 1 to 5
      invariant newData == Unfold(data, n - 1) && newList == Repeat(list, n)
    {
      newData := newData + ['?'];
      newData := newData + data;
      newList := newList + list;
    }
  }

  lemma {:induction false} UnfoldLength(data: seq<char>, k: nat)
    ensures |Unfold(data, k)| == (k + 1) * (|data| + 1) - 1
  {
    if k > 0 {
      UnfoldLength(data, k - 1);
      assert (k + 1) * (|data| + 1) == k * (|data| + 1) + (|data| + 1);
    }
  }

  /** Copy i of the row sits at offset i * (n + 1), and a '?' follows every copy but the last. */
  lemma {:induction false} UnfoldAt(data: seq<char>, k: nat, i: nat, j: nat)
    requires i <= k && j < |data|
    ensures i * (|data| + 1) + j < |Unfold(data, k)| && Unfold(data, k)[i * (|data| + 1) + j] == data[j]
    ensures i < k ==>
      i * (|data| + 1) + |data| < |Unfold(data, k)| && Unfold(data, k)[i * (|data| + 1) + |data|] == '?'
  {
    UnfoldLength(data, k);
    var n := |data| + 1;
    assert (k + 1) * n == k * n + n;
    assert i * n <= k * n by { MulMono(i, k, n); }
    if i < k {
      assert i * n + n <= k * n by {
        MulMono(i + 1, k, n);
        assert (i + 1) * n == i * n + n;
      }
    }
    if 0 < k {
      UnfoldLength(data, k - 1);
      assert k * n == (k - 1) * n + n;
      if i == k {
        assert Unfold(data, k)[i * n + j] == (['?'] + data)[j + 1];
      } else {
        assert i * n <= (k - 1) * n by { MulMono(i, k - 1, n); }
        UnfoldAt(data, k - 1, i, j);
        if i < k - 1 {
          UnfoldAt(data, k - 1, i + 1, 0);
          assert (i + 1) * n == i * n + n;
        } else {
          assert i * n + |data| == |Unfold(data, k - 1)|;
        }
      }
    }
  }

  lemma MulMono(a: nat, b: nat, c: nat)
    requires a <= b
    ensures a * c <= b * c
  {
  }

  /** Repeat(xs, k) holds copy i of xs at offset i * |xs|. */
  lemma {:induction false} RepeatAt<T>(xs: seq<T>, k: nat, i: nat, j: nat)
    requires i < k && j < |xs|
    ensures |Repeat(xs, k)| == k * |xs| && i * |xs| + j < k * |xs| && Repeat(xs, k)[i * |xs| + j] == xs[j]
  {
    RepeatLength(xs, k);
    var n := |xs|;
    assert k * n == (k - 1) * n + n;
    RepeatLength(xs, k - 1);
    if i == k - 1 {
    } else {
      assert i * n + n <= (k - 1) * n by { MulMono(i + 1, k - 1, n); }
      RepeatAt(xs, k - 1, i, j);
    }
  }

  lemma {:induction false} RepeatLength<T>(xs: seq<T>, k: nat)
    ensures |Repeat(xs, k)| == k * |xs|
  {
    if k > 0 {
      RepeatLength(xs, k - 1);
      assert k * |xs| == (k - 1) * |xs| + |xs|;
    }
  }

  // The puzzle answers.

  /** The counts of the lines added up, each line unfolded first when `unfold` is set. */
  function Total(lines: seq<Line>, unfold: bool): nat
  {
    if lines == [] then 0
    else
      var line := if unfold then Unfolded(lines[|lines| - 1]) else lines[|lines| - 1];
      Total(lines[..|lines| - 1], unfold) + Ways(line.0, line.1)
  }

  function Unfolded(line: Line): Line { (Unfold(line.0, 4), Repeat(line.1, 5)) }

  /** `proc_1`: the counts of the rows added up, or nothing when the input does not parse. */
  function Proc1Spec(input: seq<char>): Option<nat>
  {
    match Parse(input)
    case None => None
    case Some(lines) => Some(Total(lines, false))
  }

  /** `proc_2`: the same on every row unfolded five times. */
  function Proc2Spec(input: seq<char>): Option<nat>
  {
    match Parse(input)
    case None => None
    case Some(lines) => Some(Total(lines, true))
  }

  /** The `map`s and the `sum` of `proc_1` and `proc_2`. */
  method SumLines(lines: seq<Line>, unfold: bool) returns (total: nat)
    ensures total == Total(lines, unfold)
  {
    total := 0;
    for i := 0 to |lines|
      invariant total == Total(lines[..i], unfold)
    {
      var (data, list) := lines[i];
      if unfold {
        data, list := PartTwoProcessData(data, list);
      }
      var ways := SolveLine(data, list);
      assert lines[..i + 1][..i] == lines[..i];
      total := total + ways;
    }
    assert lines[..|lines|] == lines;
  }

  method Proc1(input: seq<char>) returns (r: Option<nat>)
    ensures r == Proc1Spec(input)
  {
    var parsed := Parse(input);
    if parsed.None? {
      return None;
    }
    var total := SumLines(parsed.value, false);
    return Some(total);
  }

  method Proc2(input: seq<char>) returns (r: Option<nat>)
    ensures r == Proc2Spec(input)
  {
    var parsed := Parse(input);
    if parsed.None? {
      return None;
    }
    var total := SumLines(parsed.value, true);
    return Some(total);
  }
}
