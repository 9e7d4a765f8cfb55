/** The grid reader several puzzles share: `many1(terminated(many1(one_of(…)), newline))`,
    rows of allowed characters, each ended by a newline. */
module CharGrid {
  import opened Common

  predicate AllOk(row: seq<char>, ok: char -> bool) { forall i | 0 <= i < |row| :: ok(row[i]) }

  /** Every row is non-empty and made of allowed characters. */
  predicate Rows(rows: seq<seq<char>>, ok: char -> bool)
  {
    forall y | 0 <= y < |rows| :: rows[y] != [] && AllOk(rows[y], ok)
  }

  /** One row: one or more allowed characters, then a newline. */
  function ParseRow(s: seq<char>, ok: char -> bool): (r: Option<(seq<char>, seq<char>)>)
    ensures r.Some? ==> r.value.0 != [] && AllOk(r.value.0, ok) && |r.value.1| < |s|
  {
    var k := Span(s, ok);
    if k == 0 then None
    else
      match Newline(s[k..])
      case None => None
      case Some(rest) => Some((s[..k], rest))
  }

  /** Rows as long as they parse. */
  function ParseRows(s: seq<char>, ok: char -> bool): (r: (seq<seq<char>>, seq<char>))
    ensures Rows(r.0, ok)
    ensures |r.1| <= |s| && (r.0 != [] ==> |r.1| < |s|)
    decreases |s|
  {
    match ParseRow(s, ok)
    case None => ([], s)
    case Some((row, rest)) =>
      var tail := ParseRows(rest, ok);
      ([row] + tail.0, tail.1)
  }

  /** `many1`: at least one row, with what follows the last one. */
  function ParseGrid(s: seq<char>, ok: char -> bool): (r: Option<(seq<seq<char>>, seq<char>)>)
    ensures r.Some? ==> r.value.0 != [] && Rows(r.value.0, ok) && |r.value.1| < |s|
  {
    var (rows, rest) := ParseRows(s, ok);
    if rows == [] then None else Some((rows, rest))
  }

  /** `many0(newline)`: drops every newline at the front. */
  function SkipNewlines(s: seq<char>): (r: seq<char>)
    ensures |r| <= |s| && r == s[|s| - |r|..]
    ensures r == [] || r[0] != '\n'
    ensures forall i | 0 <= i < |s| - |r| :: s[i] == '\n'
    decreases |s|
  {
    if s != [] && s[0] == '\n' then SkipNewlines(s[1..]) else s
  }

  function ShowRows(rows: seq<seq<char>>): seq<char>
  {
    if rows == [] then [] else rows[0] + ("\n" + ShowRows(rows[1..]))
  }

  lemma ParseRowOfShow(row: seq<char>, rest: seq<char>, ok: char -> bool)
    requires row != [] && AllOk(row, ok) && !ok('\n')
    ensures ParseRow(row + ("\n" + rest), ok) == Some((row, rest))
  {
    var s := row + ("\n" + rest);
    SpanOfConcat(row, "\n" + rest, ok);
    assert s[..|row|] == row && s[|row|..] == "\n" + rest;
  }

  lemma ParseRowsStep(s: seq<char>, ok: char -> bool, row: seq<char>, rest: seq<char>, tail: seq<seq<char>>, after: seq<char>)
    requires ParseRow(s, ok) == Some((row, rest)) && ParseRows(rest, ok) == (tail, after)
    ensures ParseRows(s, ok) == ([row] + tail, after)
  {
  }

  lemma ShowRowsSplit(rows: seq<seq<char>>, rest: seq<char>)
    requires rows != []
    ensures ShowRows(rows) + rest == rows[0] + ("\n" + (ShowRows(rows[1..]) + rest))
  {
    AppendAssoc(rows[0], "\n" + ShowRows(rows[1..]), rest);
    AppendAssoc("\n", ShowRows(rows[1..]), rest);
  }

  /** Printed rows read back as the same rows, stopping at what follows them. */
  lemma {:induction false} ParseRowsOfShow(rows: seq<seq<char>>, rest: seq<char>, ok: char -> bool)
    requires Rows(rows, ok) && !ok('\n')
    requires rest == [] || !ok(rest[0])
    ensures ParseRows(ShowRows(rows) + rest, ok) == (rows, rest)
  {
    if rows != [] {
      var tail := rows[1..];
      assert Rows(tail, ok) by {
        assert forall y | 0 <= y < |tail| :: tail[y] == rows[y + 1];
      }
      var after := ShowRows(tail) + rest;
      ShowRowsSplit(rows, rest);
      assert ParseRow(ShowRows(rows) + rest, ok) == Some((rows[0], after)) by {
        ParseRowOfShow(rows[0], after, ok);
      }
      ParseRowsOfShow(tail, rest, ok);
      ParseRowsStep(ShowRows(rows) + rest, ok, rows[0], after, tail, rest);
      assert rows == [rows[0]] + tail;
    } else {
      assert ShowRows(rows) + rest == rest;
    }
  }

  /** A non-empty printed grid parses back to itself, followed by what came after it. */
  lemma ParseGridOfShowThen(rows: seq<seq<char>>, rest: seq<char>, ok: char -> bool)
    requires rows != [] && Rows(rows, ok) && !ok('\n')
    requires rest == [] || !ok(rest[0])
    ensures ParseGrid(ShowRows(rows) + rest, ok) == Some((rows, rest))
  {
    ParseRowsOfShow(rows, rest, ok);
  }

  /** A non-empty printed grid parses back to itself with nothing left. */
  lemma ParseGridOfShow(rows: seq<seq<char>>, ok: char -> bool)
    requires rows != [] && Rows(rows, ok) && !ok('\n')
    ensures ParseGrid(ShowRows(rows), ok) == Some((rows, []))
  {
    ParseGridOfShowThen(rows, [], ok);
    assert ShowRows(rows) + [] == ShowRows(rows);
  }

  /** Input that does not start with an allowed character is rejected. */
  lemma ParseGridRejects(s: seq<char>, ok: char -> bool)
    requires s == [] || !ok(s[0])
    ensures ParseGrid(s, ok) == None
  {
  }
}
