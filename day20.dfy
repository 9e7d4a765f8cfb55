/** Day 20: a network of flip-flop ('%') and conjunction ('&') modules wired by named
    connections. Pressing the button sends a low pulse to the broadcaster, which passes it to
    its destinations; pulses are handled in the order they were sent. The answer multiplies the
    number of low pulses by the number of high pulses over 1000 presses. */
module Day20 {
  import opened Common

  // ---------------------------------------------------------------------------------------
  // Data.

  type Name = seq<char>

  /** `(symbol, name, destinations)`: an optional '%' or '&', the module's name and where its
      pulses go. */
  datatype Line = Line(symbol: Option<char>, name: Name, conn: seq<Name>)

  predicate IsName(w: seq<char>) { w != [] && AllAlpha(w) }

  predicate AllNames(ws: seq<Name>) { forall i | 0 <= i < |ws| :: IsName(ws[i]) }

  // ---------------------------------------------------------------------------------------
  // Parsing.

  /** `opt(one_of("%&"))`: the symbol when there is one, and nothing consumed otherwise. */
  function Symbol(s: seq<char>): (r: (Option<char>, seq<char>))
  {
    if s != [] && (s[0] == '%' || s[0] == '&') then (Some(s[0]), s[1..]) else (None, s)
  }

  /** The loop of `separated_list1(tag(", "), alpha1)` after its first name: a separator and a
      name are taken together, and when either fails the separator is left unread. */
  function NamesTail(s: seq<char>, acc: seq<Name>): (r: (seq<Name>, seq<char>))
    ensures |r.1| <= |s| && |r.0| >= |acc|
    ensures AllNames(acc) ==> AllNames(r.0)
    decreases |s|
  {
    match Tag(", ", s)
    case None => (acc, s)
    case Some(t) =>
      match Alpha1(t)
      case None => (acc, s)
      case Some((n, u)) => NamesTail(u, acc + [n])
  }

  /** `separated_list1(tag(", "), alpha1)`. */
  function NameList(s: seq<char>): (r: Option<(seq<Name>, seq<char>)>)
    ensures r.Some? ==> r.value.0 != [] && AllNames(r.value.0) && |r.value.1| < |s|
  {
    match Alpha1(s)
    case None => None
    case Some((n, t)) => Some(NamesTail(t, [n]))
  }

  /** `parse_line`: symbol, name, ` -> `, the destinations, a newline. */
  function ParseLine(s: seq<char>): (r: Option<(Line, seq<char>)>)
    ensures r.Some? ==> |r.value.1| < |s|
    ensures r.Some? ==> IsName(r.value.0.name) && r.value.0.conn != [] && AllNames(r.value.0.conn)
    ensures r.Some? ==> r.value.0.symbol in {None, Some('%'), Some('&')}
  {
    var (symbol, a) := Symbol(s);
    match Alpha1(a)
    case None => None
    case Some((name, b)) =>
      match Tag(" -> ", b)
      case None => None
      case Some(c) =>
        match NameList(c)
        case None => None
        case Some((conn, d)) =>
          match Newline(d)
          case None => None
          case Some(rest) => Some((Line(symbol, name, conn), rest))
  }

  /** The loop of `many1(parse_line)`: lines as long as they parse. */
  function ParseLines(s: seq<char>, acc: seq<Line>): (r: (seq<Line>, seq<char>))
    ensures |r.1| <= |s| && |r.0| >= |acc|
    decreases |s|
  {
    match ParseLine(s)
    case None => (acc, s)
    case Some((l, rest)) => ParseLines(rest, acc + [l])
  }

  /** `parse`: `many1(parse_line)`. */
  function Parse(s: seq<char>): (r: Option<(seq<Line>, seq<char>)>)
    ensures r.Some? ==> r.value.0 != []
  {
    match ParseLine(s)
    case None => None
    case Some((l, rest)) => Some(ParseLines(rest, [l]))
  }

  // ---------------------------------------------------------------------------------------
  // Printing, and parsing what was printed.

  predicate WellFormedLine(l: Line)
  {
    l.symbol in {None, Some('%'), Some('&')} && IsName(l.name) && l.conn != [] && AllNames(l.conn)
  }

  function ShowSymbol(c: Option<char>): seq<char>
  {
    if c.Some? then [c.value] else []
  }

  /** Each further destination with its leading separator. */
  function ShowNamesTail(ns: seq<Name>, rest: seq<char>): seq<char>
  {
    if ns == [] then rest else ", " + (ns[0] + ShowNamesTail(ns[1..], rest))
  }

  function ShowLineThen(l: Line, rest: seq<char>): seq<char>
    requires l.conn != []
  {
    ShowSymbol(l.symbol) + (l.name + (" -> " + (l.conn[0] + ShowNamesTail(l.conn[1..], "\n" + rest))))
  }

  function ShowLinesThen(ls: seq<Line>, rest: seq<char>): seq<char>
    requires forall i | 0 <= i < |ls| :: WellFormedLine(ls[i])
  {
    if ls == [] then rest
    else
      assert WellFormedLine(ls[0]);
      ShowLineThen(ls[0], ShowLinesThen(ls[1..], rest))
  }

  lemma NamesTailStep(s: seq<char>, t: seq<char>, n: Name, u: seq<char>, acc: seq<Name>)
    requires Tag(", ", s) == Some(t) && Alpha1(t) == Some((n, u))
    ensures NamesTail(s, acc) == NamesTail(u, acc + [n])
  {
  }

  /** Printed further names start with a separator, or are the text after them. */
  lemma NamesTailStart(ns: seq<Name>, rest: seq<char>)
    requires rest != [] && rest[0] == '\n'
    ensures var t := ShowNamesTail(ns, rest); t != [] && (t[0] == ',' || t[0] == '\n')
  {
  }

  lemma NameHead(ns: seq<Name>, rest: seq<char>)
    requires ns != [] && IsName(ns[0])
    requires rest != [] && rest[0] == '\n'
    ensures var s := ShowNamesTail(ns, rest);
      Tag(", ", s) == Some(ns[0] + ShowNamesTail(ns[1..], rest)) &&
      Alpha1(ns[0] + ShowNamesTail(ns[1..], rest)) == Some((ns[0], ShowNamesTail(ns[1..], rest)))
  {
    var tail := ShowNamesTail(ns[1..], rest);
    NamesTailStart(ns[1..], rest);
    TagOfConcat(", ", ns[0] + tail);
    Alpha1OfConcat(ns[0], tail);
  }

  lemma {:induction false} NamesTailOfShow(ns: seq<Name>, rest: seq<char>, acc: seq<Name>)
    requires AllNames(ns)
    requires rest != [] && rest[0] == '\n'
    ensures NamesTail(ShowNamesTail(ns, rest), acc) == (acc + ns, rest)
    decreases ns
  {
    if ns == [] {
      assert acc + ns == acc;
    } else {
      var tail := ShowNamesTail(ns[1..], rest);
      NameHead(ns, rest);
      NamesTailStep(ShowNamesTail(ns, rest), ns[0] + tail, ns[0], tail, acc);
      NamesTailOfShow(ns[1..], rest, acc + [ns[0]]);
      AccStep(acc, ns);
    }
  }

  lemma NameListOfShow(ns: seq<Name>, rest: seq<char>)
    requires ns != [] && AllNames(ns)
    ensures NameList(ns[0] + ShowNamesTail(ns[1..], "\n" + rest)) == Some((ns, "\n" + rest))
  {
    var tail := ShowNamesTail(ns[1..], "\n" + rest);
    NamesTailStart(ns[1..], "\n" + rest);
    Alpha1OfConcat(ns[0], tail);
    NamesTailOfShow(ns[1..], "\n" + rest, [ns[0]]);
    HeadTail(ns);
  }

  /** The text after the symbol starts with the name. */
  lemma SymbolOfShow(c: Option<char>, name: Name, rest: seq<char>)
    requires c in {None, Some('%'), Some('&')} && IsName(name)
    ensures Symbol(ShowSymbol(c) + (name + rest)) == (c, name + rest)
  {
    if c.Some? {
      assert (ShowSymbol(c) + (name + rest))[1..] == name + rest;
    } else {
      assert ShowSymbol(c) + (name + rest) == name + rest;
      assert (name + rest)[0] == name[0] && IsAlpha(name[0]);
    }
  }

  lemma ParseLineOfShow(l: Line, rest: seq<char>)
    requires WellFormedLine(l)
    ensures ParseLine(ShowLineThen(l, rest)) == Some((l, rest))
  {
    var d := "\n" + rest;
    var c := l.conn[0] + ShowNamesTail(l.conn[1..], d);
    var b := " -> " + c;
    SymbolOfShow(l.symbol, l.name, b);
    Alpha1OfConcat(l.name, b);
    TagOfConcat(" -> ", c);
    NameListOfShow(l.conn, rest);
  }

  lemma ParseLinesStep(s: seq<char>, l: Line, rest: seq<char>, acc: seq<Line>)
    requires ParseLine(s) == Some((l, rest))
    ensures ParseLines(s, acc) == ParseLines(rest, acc + [l])
  {
  }

  lemma {:induction false} ParseLinesOfShow(ls: seq<Line>, rest: seq<char>, acc: seq<Line>)
    requires forall i | 0 <= i < |ls| :: WellFormedLine(ls[i])
    requires ParseLine(rest).None?
    ensures ParseLines(ShowLinesThen(ls, rest), acc) == (acc + ls, rest)
    decreases ls
  {
    if ls == [] {
      assert acc + ls == acc;
    } else {
      var tail := ShowLinesThen(ls[1..], rest);
      ParseLineOfShow(ls[0], tail);
      ParseLinesStep(ShowLinesThen(ls, rest), ls[0], tail, acc);
      ParseLinesOfShow(ls[1..], rest, acc + [ls[0]]);
      AccStep(acc, ls);
    }
  }

  /** A printed non-empty configuration parses back whole, with what follows left unread. */
  lemma ParseOfShow(ls: seq<Line>, rest: seq<char>)
    requires ls != [] && forall i | 0 <= i < |ls| :: WellFormedLine(ls[i])
    requires ParseLine(rest).None?
    ensures Parse(ShowLinesThen(ls, rest)) == Some((ls, rest))
  {
    var tail := ShowLinesThen(ls[1..], rest);
    ParseLineOfShow(ls[0], tail);
    ParseLinesOfShow(ls[1..], rest, [ls[0]]);
    HeadTail(ls);
  }

  // ---------------------------------------------------------------------------------------
  // The broadcaster.

  const BROADCASTER: Name := "broadcaster"

  /** The first line whose name is `broadcaster`, if any. */
  function Broadcaster(data: seq<Line>): Option<Line>
  {
    if data == [] then None
    else if data[0].name == BROADCASTER then Some(data[0])
    else Broadcaster(data[1..])
  }

  /** There is a broadcaster exactly when some line has that name, and it is the first such
      line. */
  lemma {:induction false} BroadcasterFirst(data: seq<Line>)
    ensures Broadcaster(data).Some? <==> exists i | 0 <= i < |data| :: data[i].name == BROADCASTER
    ensures Broadcaster(data).Some? ==>
      exists i | 0 <= i < |data| :: data[i] == Broadcaster(data).value && data[i].name == BROADCASTER &&
        forall j | 0 <= j < i :: data[j].name != BROADCASTER
  {
    if data != [] && data[0].name != BROADCASTER {
      BroadcasterFirst(data[1..]);
      if Broadcaster(data).Some? {
        var i :| 0 <= i < |data[1..]| && data[1..][i] == Broadcaster(data).value && data[1..][i].name == BROADCASTER &&
          forall j | 0 <= j < i :: data[1..][j].name != BROADCASTER;
        assert data[i + 1] == data[1..][i];
        forall j | 0 <= j < i + 1
          ensures data[j].name != BROADCASTER
        {
          if j > 0 {
            assert data[j] == data[1..][j - 1];
          }
        }
      }
      if exists i | 0 <= i < |data| :: data[i].name == BROADCASTER {
        var i :| 0 <= i < |data| && data[i].name == BROADCASTER;
        assert i > 0 && data[1..][i - 1] == data[i];
      }
    }
  }

  /** `find_broadcaster`; None where it reaches `unreachable!`. */
  method FindBroadcaster(data: seq<Line>) returns (r: Option<Line>)
    ensures r == Broadcaster(data)
  {
    for i := 0 to |data|
      invariant Broadcaster(data[i..]) == Broadcaster(data)
    {
      assert data[i..][1..] == data[i + 1..];
      if data[i].name == BROADCASTER {
        return Some(data[i]);
      }
    }
    return None;
  }

  // ---------------------------------------------------------------------------------------
  // The connection map.

  datatype Signal = Low | High

  datatype Kind = FlipFlop | Conjunction

  /** A module as the connection map stores it: its kind, its destinations, one remembered
      pulse per input, and its inputs. */
  datatype Module = Module(kind: Kind, outputs: seq<Name>, memory: seq<Signal>, inputs: seq<Name>)

  type Network = map<Name, Module>

  /** '%' is a flip-flop and '&' a conjunction; anything else reaches `unreachable!`. */
  function KindOf(symbol: Option<char>): Option<Kind>
  {
    if symbol == Some('%') then Some(FlipFlop)
    else if symbol == Some('&') then Some(Conjunction)
    else None
  }

  /** The first loop of `build_conn_map`: each line but the broadcaster's inserted under its
      name with its destinations and nothing remembered, a later line replacing an earlier one
      of the same name; None at a line without a kind. */
  function Declared(data: seq<Line>): Option<Network>
  {
    if data == [] then Some(map[])
    else
      match Declared(data[..|data| - 1])
      case None => None
      case Some(m) =>
        var l := data[|data| - 1];
        if l.name == BROADCASTER then Some(m)
        else
          match KindOf(l.symbol)
          case None => None
          case Some(k) => Some(m[l.name := Module(k, l.conn, [], [])])
  }

  /** The entry a destination gets when it is not in the map yet. */
  const BLANK: Module := Module(FlipFlop, [], [], [])

  function Entry(m: Network, k: Name): Module
  {
    if k in m then m[k] else BLANK
  }

  /** One destination `to` of the line of `from`: `to` gets an entry if it has none, then
      remembers `from` as an input with a low pulse. */
  function Attach(m: Network, from: Name, to: Name): Network
  {
    var e := Entry(m, to);
    m[to := e.(memory := e.memory + [Low], inputs := e.inputs + [from])]
  }

  /** The inner loop of the second loop, over a line's destinations in order. */
  function AttachAll(m: Network, from: Name, dests: seq<Name>): Network
  {
    if dests == [] then m
    else Attach(AttachAll(m, from, dests[..|dests| - 1]), from, dests[|dests| - 1])
  }

  /** The second loop of `build_conn_map`, over every line (the broadcaster's too). */
  function Wire(m: Network, data: seq<Line>): Network
  {
    if data == [] then m
    else
      var l := data[|data| - 1];
      AttachAll(Wire(m, data[..|data| - 1]), l.name, l.conn)
  }

  /** `build_conn_map`. */
  function ConnMap(data: seq<Line>): Option<Network>
  {
    match Declared(data)
    case None => None
    case Some(m) => Some(Wire(m, data))
  }

  /** `build_conn_map` as the two loops over the lines. */
  method BuildConnMap(data: seq<Line>) returns (r: Option<Network>)
    ensures r == ConnMap(data)
  {
    var m: Network := map[];
    for i := 0 to |data|
      invariant Declared(data[..i]) == Some(m)
    {
      assert data[..i + 1][..i] == data[..i];
      var l := data[i];
      if l.name == BROADCASTER {
        continue;
      }
      var kind: Kind;
      if l.symbol == Some('%') {
        kind := FlipFlop;
      } else if l.symbol == Some('&') {
        kind := Conjunction;
      } else {
        assert data[..|data|][..i + 1] == data[..i + 1];
        DeclaredKeepsNone(data, i + 1);
        return None;
      }
      m := m[l.name := Module(kind, l.conn, [], [])];
    }
    assert data[..|data|] == data;
    ghost var declared := m;
    for i := 0 to |data|
      invariant m == Wire(declared, data[..i])
    {
      assert data[..i + 1][..i] == data[..i];
      var l := data[i];
      for j := 0 to |l.conn|
        invariant m == AttachAll(Wire(declared, data[..i]), l.name, l.conn[..j])
      {
        assert l.conn[..j + 1][..j] == l.conn[..j];
        var to := l.conn[j];
        if to !in m {
          m := m[to := BLANK];
        }
        var e := m[to];
        m := m[to := e.(inputs := e.inputs + [l.name], memory := e.memory + [Low])];
      }
      assert l.conn[..|l.conn|] == l.conn;
    }
    return Some(m);
  }

  /** Once a prefix of the lines has a line without a kind, so do all the lines. */
  lemma {:induction false} DeclaredKeepsNone(data: seq<Line>, k: nat)
    requires k <= |data| && Declared(data[..k]).None?
    ensures Declared(data).None?
    decreases |data| - k
  {
    if k < |data| {
      assert data[..k + 1][..k] == data[..k];
      DeclaredKeepsNone(data, k + 1);
    } else {
      assert data[..k] == data;
    }
  }

  // ---------------------------------------------------------------------------------------
  // What the connection map holds.

  /** The inputs a name k gains from the destinations of `from`: `from` once per time k is
      listed. */
  function SendersIn(from: Name, dests: seq<Name>, k: Name): seq<Name>
  {
    if dests == [] then []
    else SendersIn(from, dests[..|dests| - 1], k) + (if dests[|dests| - 1] == k then [from] else [])
  }

  /** The inputs a name k gains from every line, in the order of the second loop. */
  function Senders(data: seq<Line>, k: Name): seq<Name>
  {
    if data == [] then []
    else
      var l := data[|data| - 1];
      Senders(data[..|data| - 1], k) + SendersIn(l.name, l.conn, k)
  }

  /** Some line lists k as a destination. */
  predicate Listed(data: seq<Line>, k: Name)
  {
    exists i | 0 <= i < |data| :: k in data[i].conn
  }

  function Lows(n: nat): (r: seq<Signal>)
    ensures |r| == n && forall i | 0 <= i < n :: r[i] == Low
  {
    if n == 0 then [] else Lows(n - 1) + [Low]
  }

  /** An entry with further inputs `from`, each remembered as a low pulse. */
  function Extended(e: Module, from: seq<Name>): Module
  {
    e.(memory := e.memory + Lows(|from|), inputs := e.inputs + from)
  }

  lemma ExtendedTwice(e: Module, a: seq<Name>, b: seq<Name>)
    ensures Extended(Extended(e, a), b) == Extended(e, a + b)
  {
    assert Lows(|a|) + Lows(|b|) == Lows(|a + b|);
    assert (e.memory + Lows(|a|)) + Lows(|b|) == e.memory + Lows(|a + b|);
    assert (e.inputs + a) + b == e.inputs + (a + b);
  }

  lemma ExtendedNone(e: Module)
    ensures Extended(e, []) == e
  {
    assert e.memory + Lows(0) == e.memory;
    assert e.inputs + [] == e.inputs;
  }

  /** A line's destinations add to each name's entry exactly the inputs that line sends it. */
  lemma {:induction false} AttachAllEntry(m: Network, from: Name, dests: seq<Name>, k: Name)
    ensures k in AttachAll(m, from, dests) <==> k in m || k in dests
    ensures Entry(AttachAll(m, from, dests), k) == Extended(Entry(m, k), SendersIn(from, dests, k))
  {
    if dests == [] {
      ExtendedNone(Entry(m, k));
    } else {
      var init := dests[..|dests| - 1];
      var last := dests[|dests| - 1];
      assert dests == init + [last];
      AttachAllEntry(m, from, init, k);
      var a := AttachAll(m, from, init);
      if last == k {
        ExtendedTwice(Entry(m, k), SendersIn(from, init, k), [from]);
      } else {
        assert SendersIn(from, init, k) + [] == SendersIn(from, init, k);
      }
    }
  }

  /** The second loop adds to each name's entry exactly the inputs the lines send it, and
      creates the entries of the listed names. */
  lemma {:induction false} WireEntry(m: Network, data: seq<Line>, k: Name)
    ensures k in Wire(m, data) <==> k in m || Listed(data, k)
    ensures Entry(Wire(m, data), k) == Extended(Entry(m, k), Senders(data, k))
  {
    if data == [] {
      ExtendedNone(Entry(m, k));
    } else {
      var init := data[..|data| - 1];
      var l := data[|data| - 1];
      WireEntry(m, init, k);
      AttachAllEntry(Wire(m, init), l.name, l.conn, k);
      ExtendedTwice(Entry(m, k), Senders(init, k), SendersIn(l.name, l.conn, k));
      ListedSnoc(data, k);
    }
  }

  lemma ListedSnoc(data: seq<Line>, k: Name)
    requires data != []
    ensures Listed(data, k) <==> Listed(data[..|data| - 1], k) || k in data[|data| - 1].conn
  {
    var init := data[..|data| - 1];
    if Listed(data, k) && !(k in data[|data| - 1].conn) {
      var i :| 0 <= i < |data| && k in data[i].conn;
      assert init[i] == data[i];
    }
    if Listed(init, k) {
      var i :| 0 <= i < |init| && k in init[i].conn;
      assert init[i] == data[i];
    }
  }

  lemma {:induction false} SendersInMeaning(from: Name, dests: seq<Name>, k: Name, s: Name)
    ensures s in SendersIn(from, dests, k) <==> s == from && k in dests
  {
    if dests != [] {
      var init := dests[..|dests| - 1];
      assert dests == init + [dests[|dests| - 1]];
      SendersInMeaning(from, init, k, s);
    }
  }

  /** s is an input of k exactly when some line named s lists k. */
  lemma {:induction false} SendersMeaning(data: seq<Line>, k: Name, s: Name)
    ensures s in Senders(data, k) <==> exists i | 0 <= i < |data| :: data[i].name == s && k in data[i].conn
  {
    if data != [] {
      var init := data[..|data| - 1];
      var l := data[|data| - 1];
      SendersMeaning(init, k, s);
      SendersInMeaning(l.name, l.conn, k, s);
      if s in Senders(data, k) && !(l.name == s && k in l.conn) {
        var i :| 0 <= i < |init| && init[i].name == s && k in init[i].conn;
        assert data[i] == init[i];
      }
      if exists i | 0 <= i < |data| :: data[i].name == s && k in data[i].conn {
        var i :| 0 <= i < |data| && data[i].name == s && k in data[i].conn;
        if i < |init| {
          assert data[i] == init[i];
        }
      }
    }
  }

  /** The first loop succeeds exactly when every line but the broadcaster's has a kind. */
  lemma {:induction false} DeclaredSome(data: seq<Line>)
    ensures Declared(data).Some? <==>
      forall i | 0 <= i < |data| :: data[i].name != BROADCASTER ==> KindOf(data[i].symbol).Some?
  {
    if data != [] {
      var init := data[..|data| - 1];
      DeclaredSome(init);
      assert forall i | 0 <= i < |init| :: init[i] == data[i];
    }
  }

  /** The first loop's keys are the names of the lines other than the broadcaster's, and each
      entry holds a line of its name, with nothing remembered. */
  lemma {:induction false} DeclaredKeys(data: seq<Line>, k: Name)
    requires Declared(data).Some?
    ensures k in Declared(data).value <==> k != BROADCASTER && exists i | 0 <= i < |data| :: data[i].name == k
    ensures k in Declared(data).value ==>
      exists i | 0 <= i < |data| :: data[i].name == k && KindOf(data[i].symbol).Some? &&
        Declared(data).value[k] == Module(KindOf(data[i].symbol).value, data[i].conn, [], [])
  {
    if data != [] {
      var init := data[..|data| - 1];
      var l := data[|data| - 1];
      DeclaredKeys(init, k);
      assert forall i | 0 <= i < |init| :: init[i] == data[i];
      if exists i | 0 <= i < |data| :: data[i].name == k {
        var i :| 0 <= i < |data| && data[i].name == k;
        if i < |init| {
          assert init[i].name == k;
        }
      }
    }
  }

  /** A line's entry is that of the last line of its name. */
  lemma {:induction false} DeclaredLast(data: seq<Line>, i: nat)
    requires Declared(data).Some? && i < |data| && data[i].name != BROADCASTER
    requires forall j | i < j < |data| :: data[j].name != data[i].name
    ensures data[i].name in Declared(data).value && KindOf(data[i].symbol).Some?
    ensures Declared(data).value[data[i].name] == Module(KindOf(data[i].symbol).value, data[i].conn, [], [])
  {
    var init := data[..|data| - 1];
    if i < |init| {
      assert init[i] == data[i];
      DeclaredLast(init, i);
    } else {
      assert init == data[..i];
    }
  }

  /** `build_conn_map` fails exactly when a line other than the broadcaster's has neither '%'
      nor '&'. */
  lemma ConnMapNone(data: seq<Line>)
    ensures ConnMap(data).None? <==>
      exists i | 0 <= i < |data| :: data[i].name != BROADCASTER && KindOf(data[i].symbol).None?
  {
    DeclaredSome(data);
  }

  /** The map's keys: the declared names and every listed destination. */
  lemma ConnMapKeys(data: seq<Line>, k: Name)
    requires ConnMap(data).Some?
    ensures k in ConnMap(data).value <==>
      (k != BROADCASTER && exists i | 0 <= i < |data| :: data[i].name == k) || Listed(data, k)
  {
    DeclaredKeys(data, k);
    WireEntry(Declared(data).value, data, k);
  }

  /** A '%' line becomes a flip-flop and a '&' line a conjunction, with that line's
      destinations, when no later line has its name. */
  lemma ConnMapDeclared(data: seq<Line>, i: nat)
    requires ConnMap(data).Some? && i < |data| && data[i].name != BROADCASTER
    requires forall j | i < j < |data| :: data[j].name != data[i].name
    ensures data[i].name in ConnMap(data).value
    ensures var e := ConnMap(data).value[data[i].name];
      (data[i].symbol == Some('%') ==> e.kind == FlipFlop) &&
      (data[i].symbol == Some('&') ==> e.kind == Conjunction) &&
      e.outputs == data[i].conn
  {
    DeclaredLast(data, i);
    WireEntry(Declared(data).value, data, data[i].name);
  }

  /** A destination that no line declares gets a flip-flop without destinations. */
  lemma ConnMapUndeclared(data: seq<Line>, k: Name)
    requires ConnMap(data).Some? && Listed(data, k)
    requires k == BROADCASTER || forall i | 0 <= i < |data| :: data[i].name != k
    ensures k in ConnMap(data).value
    ensures ConnMap(data).value[k].kind == FlipFlop && ConnMap(data).value[k].outputs == []
  {
    DeclaredKeys(data, k);
    WireEntry(Declared(data).value, data, k);
  }

  /** Each entry's inputs are the names of the lines that list it, in order and once per
      listing, and its memory is one low pulse per input. */
  lemma ConnMapInputs(data: seq<Line>, k: Name)
    requires ConnMap(data).Some? && k in ConnMap(data).value
    ensures ConnMap(data).value[k].inputs == Senders(data, k)
    ensures ConnMap(data).value[k].memory == Lows(|Senders(data, k)|)
  {
    var m := Declared(data).value;
    DeclaredKeys(data, k);
    WireEntry(m, data, k);
    assert [] + Senders(data, k) == Senders(data, k);
    assert [] + Lows(|Senders(data, k)|) == Lows(|Senders(data, k)|);
  }

  /** Every destination listed for `from` has an entry that has `from` among its inputs. */
  predicate Feeds(m: Network, from: Name, dests: seq<Name>)
  {
    forall j | 0 <= j < |dests| :: dests[j] in m && from in m[dests[j]].inputs
  }

  /** The shape `calc_1` relies on: each entry remembers one pulse per input, and is an input
      of each of its destinations. */
  predicate Wired(m: Network)
  {
    forall k | k in m :: |m[k].memory| == |m[k].inputs| && Feeds(m, k, m[k].outputs)
  }

  /** The lines a destination comes from feed it. */
  lemma ConnMapFeeds(data: seq<Line>, i: nat)
    requires ConnMap(data).Some? && i < |data|
    ensures Feeds(ConnMap(data).value, data[i].name, data[i].conn)
  {
    var l := data[i];
    forall j | 0 <= j < |l.conn|
      ensures l.conn[j] in ConnMap(data).value && l.name in ConnMap(data).value[l.conn[j]].inputs
    {
      var k := l.conn[j];
      ConnMapKeys(data, k);
      ConnMapInputs(data, k);
      SendersMeaning(data, k, l.name);
    }
  }

  /** The map `build_conn_map` builds is wired, and the broadcaster feeds its destinations. */
  lemma ConnMapWired(data: seq<Line>)
    requires ConnMap(data).Some?
    ensures Wired(ConnMap(data).value)
    ensures Broadcaster(data).Some? ==> Feeds(ConnMap(data).value, BROADCASTER, Broadcaster(data).value.conn)
  {
    var m := ConnMap(data).value;
    forall k | k in m
      ensures |m[k].memory| == |m[k].inputs| && Feeds(m, k, m[k].outputs)
    {
      ConnMapInputs(data, k);
      var d := Declared(data).value;
      DeclaredKeys(data, k);
      WireEntry(d, data, k);
      if k in d {
        var i :| 0 <= i < |data| && data[i].name == k && KindOf(data[i].symbol).Some? && d[k] == Module(KindOf(data[i].symbol).value, data[i].conn, [], []);
        ConnMapFeeds(data, i);
      }
    }
    if Broadcaster(data).Some? {
      BroadcasterFirst(data);
      var i :| 0 <= i < |data| && data[i] == Broadcaster(data).value && data[i].name == BROADCASTER &&
        forall j | 0 <= j < i :: data[j].name != BROADCASTER;
      ConnMapFeeds(data, i);
    }
  }

  // ---------------------------------------------------------------------------------------
  // Pulses.

  /** A pulse `signal` sent by `from` to `to`, as `calc_1` queues it. */
  datatype Pulse = Pulse(to: Name, signal: Signal, from: Name)

  /** The pulses a module sends: one to each destination, in order. */
  function Sends(dests: seq<Name>, s: Signal, from: Name): (ps: seq<Pulse>)
    ensures |ps| == |dests|
    ensures forall i | 0 <= i < |dests| :: ps[i] == Pulse(dests[i], s, from)
  {
    if dests == [] then [] else Sends(dests[..|dests| - 1], s, from) + [Pulse(dests[|dests| - 1], s, from)]
  }

  function Toggle(s: Signal): Signal
  {
    if s == Low then High else Low
  }

  /** `iter().position`: the first index holding x, or |xs| when there is none. */
  function Position(xs: seq<Name>, x: Name): (i: nat)
    ensures i <= |xs| && (i < |xs| ==> xs[i] == x)
    ensures forall j | 0 <= j < i :: xs[j] != x
  {
    if xs == [] then 0 else if xs[0] == x then 0 else 1 + Position(xs[1..], x)
  }

  /** `iter().all(|&s| s == SignalType::High)`. */
  predicate AllHigh(mem: seq<Signal>)
  {
    forall i | 0 <= i < |mem| :: mem[i] == High
  }

  /** What a module does with one pulse: the new map and the pulses it sends, or None where
      `calc_1` panics (no entry for the destination, a flip-flop with no remembered pulse, a
      conjunction that does not know the sender). */
  function Receive(m: Network, p: Pulse): Option<(Network, seq<Pulse>)>
  {
    if p.to !in m then None
    else
      var e := m[p.to];
      match e.kind
      case FlipFlop =>
        if p.signal == High then Some((m, []))
        else if e.memory == [] then None
        else
          var s := Toggle(e.memory[0]);
          Some((m[p.to := e.(memory := e.memory[0 := s])], Sends(e.outputs, s, p.to)))
      case Conjunction =>
        var i := Position(e.inputs, p.from);
        if i == |e.inputs| || i >= |e.memory| then None
        else
          var mem := e.memory[i := p.signal];
          Some((m[p.to := e.(memory := mem)], Sends(e.outputs, if AllHigh(mem) then Low else High, p.to)))
  }

  /** A flip-flop ignores a high pulse; on a low pulse it flips its state and sends the new
      state to every destination, in order. */
  lemma FlipFlopRule(m: Network, p: Pulse)
    requires p.to in m && m[p.to].kind == FlipFlop && Receive(m, p).Some?
    ensures p.signal == High ==> Receive(m, p) == Some((m, []))
    ensures p.signal == Low ==>
      var e := m[p.to];
      var (n, sent) := Receive(m, p).value;
      e.memory != [] && n[p.to].memory[0] != e.memory[0] && n[p.to].memory[1..] == e.memory[1..] &&
      sent == Sends(e.outputs, n[p.to].memory[0], p.to)
  {
  }

  /** A conjunction first remembers the pulse for its sender, then sends low to every
      destination when it remembers only high pulses, and high otherwise. */
  lemma ConjunctionRule(m: Network, p: Pulse)
    requires p.to in m && m[p.to].kind == Conjunction && Receive(m, p).Some?
    ensures var e := m[p.to];
      var (n, sent) := Receive(m, p).value;
      var i := Position(e.inputs, p.from);
      i < |e.inputs| && e.inputs[i] == p.from && |n[p.to].memory| == |e.memory| &&
      n[p.to].memory[i] == p.signal &&
      (forall j | 0 <= j < |e.memory| && j != i :: n[p.to].memory[j] == e.memory[j]) &&
      sent == Sends(e.outputs, if AllHigh(n[p.to].memory) then Low else High, p.to)
  {
  }

  /** Two maps with the same entries but for what the entries remember. */
  predicate SameWiring(m: Network, n: Network)
  {
    m.Keys == n.Keys &&
    forall k | k in m ::
      n[k].kind == m[k].kind && n[k].outputs == m[k].outputs && n[k].inputs == m[k].inputs &&
      |n[k].memory| == |m[k].memory|
  }

  lemma SameWiringTrans(a: Network, b: Network, c: Network)
    requires SameWiring(a, b) && SameWiring(b, c)
    ensures SameWiring(a, c)
  {
  }

  /** Wiring only depends on what is kept the same. */
  lemma WiredKept(m: Network, n: Network, from: Name, dests: seq<Name>)
    requires SameWiring(m, n)
    ensures Wired(m) ==> Wired(n)
    ensures Feeds(m, from, dests) ==> Feeds(n, from, dests)
  {
  }

  /** Pulses that can be delivered: each destination has an entry that knows the sender. */
  predicate Deliverable(m: Network, q: seq<Pulse>)
  {
    forall i | 0 <= i < |q| :: q[i].to in m && q[i].from in m[q[i].to].inputs
  }

  /** A deliverable pulse in a wired map is received without a panic; only the memory of its
      destination changes, and the pulses it sends are deliverable. */
  lemma ReceiveWired(m: Network, p: Pulse)
    requires Wired(m) && p.to in m && p.from in m[p.to].inputs
    ensures Receive(m, p).Some?
    ensures SameWiring(m, Receive(m, p).value.0)
    ensures forall k | k in m && k != p.to :: Receive(m, p).value.0[k] == m[k]
    ensures Deliverable(Receive(m, p).value.0, Receive(m, p).value.1)
  {
    var e := m[p.to];
    assert Feeds(m, p.to, e.outputs);
    if e.kind == FlipFlop && p.signal == Low {
      assert e.inputs != [];
    }
  }

  // ---------------------------------------------------------------------------------------
  // One press.

  /** How the pulse loop ends: the map and the pulses handled, in order, or a panic, or the
      fuel spent. */
  datatype Outcome = Done(net: Network, trace: seq<Pulse>) | Panicked | OutOfFuel

  /** `done` handled before the rest of a run. */
  function After(done: seq<Pulse>, o: Outcome): Outcome
  {
    if o.Done? then Done(o.net, done + o.trace) else o
  }

  lemma AfterAfter(a: seq<Pulse>, b: seq<Pulse>, o: Outcome)
    ensures After(a, After(b, o)) == After(a + b, o)
  {
    if o.Done? {
      assert a + (b + o.trace) == (a + b) + o.trace;
    }
  }

  /** The `while let` loop of `calc_1`, with the queue in the order its pulses are taken: the
      first is handled, and what it sends joins the end. The source loops until the queue is
      empty; here at most `fuel` pulses are handled. */
  function Run(m: Network, pending: seq<Pulse>, fuel: nat): Outcome
    decreases fuel
  {
    if pending == [] then Done(m, [])
    else if fuel == 0 then OutOfFuel
    else
      match Receive(m, pending[0])
      case None => Panicked
      case Some((n, sent)) => After([pending[0]], Run(n, pending[1..] + sent, fuel - 1))
  }

  /** First in, first out: the pulses already queued are the first handled, in order. */
  lemma {:induction false} RunFifo(m: Network, pending: seq<Pulse>, fuel: nat)
    requires Run(m, pending, fuel).Done?
    ensures var t := Run(m, pending, fuel).trace; |pending| <= |t| && t[..|pending|] == pending
    decreases fuel
  {
    if pending != [] {
      var (n, sent) := Receive(m, pending[0]).value;
      var rest := pending[1..] + sent;
      RunFifo(n, rest, fuel - 1);
      var t := Run(n, rest, fuel - 1).trace;
      assert Run(m, pending, fuel).trace == [pending[0]] + t;
      assert t[..|pending| - 1] == rest[..|pending| - 1] == pending[1..];
      assert ([pending[0]] + t)[..|pending|] == [pending[0]] + t[..|pending| - 1];
    }
  }

  /** In a wired map deliverable pulses never make the loop panic, and a finished run leaves
      the map wired the same way. */
  lemma {:induction false} RunNoPanic(m: Network, pending: seq<Pulse>, fuel: nat)
    requires Wired(m) && Deliverable(m, pending)
    ensures Run(m, pending, fuel) != Panicked
    ensures Run(m, pending, fuel).Done? ==> SameWiring(m, Run(m, pending, fuel).net)
    decreases fuel
  {
    if pending != [] && fuel > 0 {
      ReceiveWired(m, pending[0]);
      var (n, sent) := Receive(m, pending[0]).value;
      WiredKept(m, n, [], []);
      var rest := pending[1..] + sent;
      forall i | 0 <= i < |rest|
        ensures rest[i].to in n && rest[i].from in n[rest[i].to].inputs
      {
        if i < |pending| - 1 {
          assert rest[i] == pending[i + 1];
        } else {
          assert rest[i] == sent[i - (|pending| - 1)];
        }
      }
      RunNoPanic(n, rest, fuel - 1);
      if Run(m, pending, fuel).Done? {
        SameWiringTrans(m, n, Run(n, rest, fuel - 1).net);
      }
    }
  }

  /** How many pulses of a trace are `s`. */
  function Tally(t: seq<Pulse>, s: Signal): nat
  {
    if t == [] then 0 else Tally(t[..|t| - 1], s) + (if t[|t| - 1].signal == s then 1 else 0)
  }

  lemma TallySnoc(t: seq<Pulse>, p: Pulse, s: Signal)
    ensures Tally(t + [p], s) == Tally(t, s) + (if p.signal == s then 1 else 0)
  {
    assert (t + [p])[..|t|] == t;
  }

  /** Every pulse is low or high. */
  lemma {:induction false} TallyTotal(t: seq<Pulse>)
    ensures Tally(t, Low) + Tally(t, High) == |t|
  {
    if t != [] {
      TallyTotal(t[..|t| - 1]);
    }
  }

  /** A prefix has no more pulses of a kind than the whole trace. */
  lemma {:induction false} TallyPrefix(t: seq<Pulse>, k: nat, s: Signal)
    requires k <= |t|
    ensures Tally(t[..k], s) <= Tally(t, s)
    decreases |t|
  {
    if k < |t| {
      var init := t[..|t| - 1];
      assert init[..k] == t[..k];
      TallyPrefix(init, k, s);
    } else {
      assert t[..k] == t;
    }
  }

  lemma {:induction false} TallySends(dests: seq<Name>, s: Signal, from: Name)
    ensures Tally(Sends(dests, s, from), s) == |dests|
  {
    if dests != [] {
      var ps := Sends(dests, s, from);
      assert ps[..|ps| - 1] == Sends(dests[..|dests| - 1], s, from);
      TallySends(dests[..|dests| - 1], s, from);
    }
  }

  /** The run that a press of the button starts: the broadcaster's low pulse to each of its
      destinations, in order. */
  function Press(m: Network, b: Line, fuel: nat): Outcome
  {
    Run(m, Sends(b.conn, Low, b.name), fuel)
  }

  datatype Stop = Panic | Unfinished

  /** The map and the low and high counts, or why there are none. */
  datatype Counted = Counted(net: Network, low: nat, high: nat) | Stopped(why: Stop)

  /** `calc_1`: the low count starts at 1 for the button's pulse to the broadcaster, and every
      handled pulse adds one to the count of its kind. */
  function PressCounts(m: Network, b: Line, fuel: nat): Counted
  {
    match Press(m, b, fuel)
    case Done(n, t) => Counted(n, 1 + Tally(t, Low), Tally(t, High))
    case Panicked => Stopped(Panic)
    case OutOfFuel => Stopped(Unfinished)
  }

  /** A press counts the button's pulse and every handled pulse once, and at least the
      broadcaster's low pulse to each destination. */
  lemma PressCountsMeaning(m: Network, b: Line, fuel: nat)
    requires PressCounts(m, b, fuel).Counted?
    ensures var c := PressCounts(m, b, fuel);
      c.low + c.high == 1 + |Press(m, b, fuel).trace| && c.low >= 1 + |b.conn|
  {
    var q := Sends(b.conn, Low, b.name);
    var t := Press(m, b, fuel).trace;
    TallyTotal(t);
    RunFifo(m, q, fuel);
    TallyPrefix(t, |q|, Low);
    TallySends(b.conn, Low, b.name);
  }

  // ---------------------------------------------------------------------------------------
  // The queue as `calc_1` keeps it.

  /** `signal_queue.insert(0, …)` for each pulse in turn. */
  function PushAll(v: seq<Pulse>, ps: seq<Pulse>): seq<Pulse>
    decreases ps
  {
    if ps == [] then v else PushAll([ps[0]] + v, ps[1..])
  }

  /** The pulse loop on `signal_queue` itself: `pop` takes the pulse at the back, and what it
      sends is inserted at the front. */
  function RunVec(m: Network, v: seq<Pulse>, fuel: nat): Outcome
    decreases fuel
  {
    if v == [] then Done(m, [])
    else if fuel == 0 then OutOfFuel
    else
      var p := v[|v| - 1];
      match Receive(m, p)
      case None => Panicked
      case Some((n, sent)) => After([p], RunVec(n, PushAll(v[..|v| - 1], sent), fuel - 1))
  }

  /** Read from the back, as `pop` reads it, the vector is the queue in the order its pulses
      are taken. */
  function Reversed(v: seq<Pulse>): (r: seq<Pulse>)
    ensures |r| == |v|
  {
    if v == [] then [] else Reversed(v[1..]) + [v[0]]
  }

  lemma ReversedCons(p: Pulse, v: seq<Pulse>)
    ensures Reversed([p] + v) == Reversed(v) + [p]
  {
    assert ([p] + v)[1..] == v;
  }

  lemma {:induction false} ReversedSnoc(v: seq<Pulse>, p: Pulse)
    ensures Reversed(v + [p]) == [p] + Reversed(v)
  {
    if v != [] {
      assert (v + [p])[1..] == v[1..] + [p];
      ReversedSnoc(v[1..], p);
    }
  }

  /** The pulse `pop` takes is the first in line. */
  lemma PopLast(v: seq<Pulse>)
    requires v != []
    ensures Reversed(v) == [v[|v| - 1]] + Reversed(v[..|v| - 1])
  {
    PrefixStep(v, |v| - 1);
    assert v[..|v|] == v;
    ReversedSnoc(v[..|v| - 1], v[|v| - 1]);
  }

  /** Pulses inserted at the front join the end of the line, in order. */
  lemma {:induction false} PushAllJoins(v: seq<Pulse>, ps: seq<Pulse>)
    ensures Reversed(PushAll(v, ps)) == Reversed(v) + ps
    decreases ps
  {
    if ps != [] {
      PushAllJoins([ps[0]] + v, ps[1..]);
      ReversedCons(ps[0], v);
      AppendAssoc(Reversed(v), [ps[0]], ps[1..]);
      HeadTail(ps);
    }
  }

  /** First in, first out: inserting at the front and popping at the back handles the pulses
      in the order they were sent. */
  lemma {:induction false} RunVecIsRun(m: Network, v: seq<Pulse>, fuel: nat)
    ensures RunVec(m, v, fuel) == Run(m, Reversed(v), fuel)
    decreases fuel
  {
    if v != [] && fuel > 0 {
      var p := v[|v| - 1];
      PopLast(v);
      assert Reversed(v)[0] == p && Reversed(v)[1..] == Reversed(v[..|v| - 1]);
      if Receive(m, p).Some? {
        var (n, sent) := Receive(m, p).value;
        RunVecIsRun(n, PushAll(v[..|v| - 1], sent), fuel - 1);
        PushAllJoins(v[..|v| - 1], sent);
      }
    }
  }

  /** A press as `calc_1` runs it. */
  lemma PressVec(m: Network, b: Line, fuel: nat)
    ensures Press(m, b, fuel) == RunVec(m, PushAll([], Sends(b.conn, Low, b.name)), fuel)
  {
    var v := PushAll([], Sends(b.conn, Low, b.name));
    RunVecIsRun(m, v, fuel);
    PushAllJoins([], Sends(b.conn, Low, b.name));
    assert Reversed([]) + Sends(b.conn, Low, b.name) == Sends(b.conn, Low, b.name);
  }

  /** PushAll of pulses, one more at the end. */
  lemma {:induction false} PushAllSnoc(v: seq<Pulse>, ps: seq<Pulse>, p: Pulse)
    ensures PushAll(v, ps + [p]) == [p] + PushAll(v, ps)
    decreases ps
  {
    if ps == [] {
      assert ps + [p] == [p];
      assert [p][1..] == [];
    } else {
      assert (ps + [p])[0] == ps[0] && (ps + [p])[1..] == ps[1..] + [p];
      PushAllSnoc([ps[0]] + v, ps[1..], p);
    }
  }

  /** `signal_queue.insert(0, …)` for each destination in turn. */
  method Enqueue(queue: seq<Pulse>, dests: seq<Name>, s: Signal, from: Name) returns (q: seq<Pulse>)
    ensures q == PushAll(queue, Sends(dests, s, from))
  {
    q := queue;
    for j := 0 to |dests|
      invariant q == PushAll(queue, Sends(dests[..j], s, from))
    {
      assert dests[..j + 1][..j] == dests[..j];
      PushAllSnoc(queue, Sends(dests[..j], s, from), Pulse(dests[j], s, from));
      q := [Pulse(dests[j], s, from)] + q;
    }
    assert dests[..|dests|] == dests;
  }

  /** What the module at `p.to` does with the pulse, queuing what it sends; false where
      `calc_1` panics. */
  method Deliver(net: Network, queue: seq<Pulse>, p: Pulse) returns (ok: bool, n: Network, q: seq<Pulse>)
    ensures ok <==> Receive(net, p).Some?
    ensures ok ==> n == Receive(net, p).value.0 && q == PushAll(queue, Receive(net, p).value.1)
  {
    n, q := net, queue;
    if p.to !in net {
      return false, n, q;
    }
    var e := net[p.to];
    match e.kind {
      case FlipFlop =>
        if p.signal == Low {
          if e.memory == [] {
            return false, n, q;
          }
          var s := if e.memory[0] == Low then High else Low;
          e := e.(memory := e.memory[0 := s]);
          n := net[p.to := e];
          q := Enqueue(queue, e.outputs, s, p.to);
        }
      case Conjunction =>
        var i := Position(e.inputs, p.from);
        if i == |e.inputs| || i >= |e.memory| {
          return false, n, q;
        }
        e := e.(memory := e.memory[i := p.signal]);
        n := net[p.to := e];
        var out := if AllHigh(e.memory) then Low else High;
        q := Enqueue(queue, e.outputs, out, p.to);
    }
    return true, n, q;
  }

  /** One round of the pulse loop: the pulse popped from the back is handled and joins those
      already handled; false where that panics. */
  method Take(net: Network, queue: seq<Pulse>, ghost done: seq<Pulse>, ghost f: nat) returns (ok: bool, n: Network, q: seq<Pulse>)
    requires f > 0 && queue != []
    ensures !ok ==> After(done, RunVec(net, queue, f)) == Panicked
    ensures ok ==> After(done + [queue[|queue| - 1]], RunVec(n, q, f - 1)) == After(done, RunVec(net, queue, f))
  {
    ok, n, q := Deliver(net, queue[..|queue| - 1], queue[|queue| - 1]);
    if ok {
      AfterAfter(done, [queue[|queue| - 1]], RunVec(n, q, f - 1));
    }
  }

  /** `calc_1`: the pulse loop, counting low and high pulses and updating the map. */
  method Calc1(m: Network, b: Line, fuel: nat) returns (r: Counted)
    ensures r == PressCounts(m, b, fuel)
  {
    var low: nat, high: nat := 1, 0;
    var queue := Enqueue([], b.conn, Low, b.name);
    PressVec(m, b, fuel);
    var net := m;
    var f := fuel;
    ghost var done: seq<Pulse> := [];
    while queue != []
      invariant After(done, RunVec(net, queue, f)) == Press(m, b, fuel)
      invariant low == 1 + Tally(done, Low) && high == Tally(done, High)
      decreases f
    {
      if f == 0 {
        return Stopped(Unfinished);
      }
      var p := queue[|queue| - 1];
      if p.signal == High {
        high := high + 1;
      } else {
        low := low + 1;
      }
      TallySnoc(done, p, Low);
      TallySnoc(done, p, High);
      var ok, n, q := Take(net, queue, done, f);
      if !ok {
        return Stopped(Panic);
      }
      net, queue, f := n, q, f - 1;
      done := done + [p];
    }
    assert done + [] == done;
    return Counted(net, low, high);
  }

  // ---------------------------------------------------------------------------------------
  // A thousand presses.

  const PRESSES: nat := 1000

  /** n presses in a row, each starting from the map the previous one left, with the counts
      added up; the first that panics or runs out of fuel stops them all. */
  function Presses(m: Network, b: Line, n: nat, fuel: nat): Counted
  {
    if n == 0 then Counted(m, 0, 0)
    else
      match Presses(m, b, n - 1, fuel)
      case Stopped(why) => Stopped(why)
      case Counted(net, low, high) =>
        match PressCounts(net, b, fuel)
        case Stopped(why) => Stopped(why)
        case Counted(net2, low2, high2) => Counted(net2, low + low2, high + high2)
  }

  /** Once the presses stop, further presses do not change the outcome. */
  lemma {:induction false} PressesStop(m: Network, b: Line, k: nat, n: nat, fuel: nat)
    requires k <= n && Presses(m, b, k, fuel).Stopped?
    ensures Presses(m, b, n, fuel) == Presses(m, b, k, fuel)
    decreases n
  {
    if k < n {
      PressesStop(m, b, k, n - 1, fuel);
    }
  }

  /** Every press counts at least the button's pulse and the broadcaster's low pulses. */
  lemma {:induction false} PressesLow(m: Network, b: Line, n: nat, fuel: nat)
    requires Presses(m, b, n, fuel).Counted?
    ensures Presses(m, b, n, fuel).low >= n * (1 + |b.conn|)
  {
    if n > 0 {
      var c := Presses(m, b, n - 1, fuel);
      PressesLow(m, b, n - 1, fuel);
      PressCountsMeaning(c.net, b, fuel);
      MulStep(n, 1 + |b.conn|);
      assert Presses(m, b, n, fuel).low == c.low + PressCounts(c.net, b, fuel).low;
    }
  }

  lemma MulStep(n: nat, k: nat)
    requires n > 0
    ensures n * k == (n - 1) * k + k
  {
  }

  /** From a wired map in which the broadcaster feeds its destinations, no press panics, and
      the map stays wired the same way. */
  lemma {:induction false} PressesNoPanic(m: Network, b: Line, n: nat, fuel: nat)
    requires Wired(m) && Feeds(m, b.name, b.conn)
    ensures Presses(m, b, n, fuel) != Stopped(Panic)
    ensures Presses(m, b, n, fuel).Counted? ==> SameWiring(m, Presses(m, b, n, fuel).net)
  {
    if n > 0 {
      PressesNoPanic(m, b, n - 1, fuel);
      var c := Presses(m, b, n - 1, fuel);
      if c.Counted? {
        WiredKept(m, c.net, b.name, b.conn);
        var q := Sends(b.conn, Low, b.name);
        assert Deliverable(c.net, q);
        RunNoPanic(c.net, q, fuel);
        if Run(c.net, q, fuel).Done? {
          SameWiringTrans(m, c.net, Run(c.net, q, fuel).net);
        }
      }
    }
  }

  /** One more press: `calc_1` on the map the earlier presses left, its counts added. */
  method PressOnce(ghost m: Network, b: Line, ghost i: nat, fuel: nat, net: Network, low: nat, high: nat) returns (r: Counted)
    requires Presses(m, b, i, fuel) == Counted(net, low, high)
    ensures r == Presses(m, b, i + 1, fuel)
  {
    var c := Calc1(net, b, fuel);
    if c.Stopped? {
      return c;
    }
    return Counted(c.net, low + c.low, high + c.high);
  }

  /** The loop of `proc_1` over the presses. */
  method PushButton(m: Network, b: Line, fuel: nat) returns (r: Counted)
    ensures r == Presses(m, b, PRESSES, fuel)
  {
    r := Counted(m, 0, 0);
    var i := 0;
    while i < PRESSES && r.Counted?
      invariant i <= PRESSES && r == Presses(m, b, i, fuel)
    {
      r := PressOnce(m, b, i, fuel, r.net, r.low, r.high);
      i := i + 1;
    }
    if i < PRESSES {
      PressesStop(m, b, i, PRESSES, fuel);
    }
  }

  /** The answer, or why there is none. */
  datatype Result = Answer(value: nat) | Failed(why: Stop)

  function Product(c: Counted): Result
  {
    match c
    case Counted(_, low, high) => Answer(low * high)
    case Stopped(why) => Failed(why)
  }

  /** `proc_1`: parse (`unwrap`), find the broadcaster (`unreachable!`), build the map, press
      the button a thousand times, and multiply the low count by the high count. */
  function Solve(input: seq<char>, fuel: nat): Result
  {
    match Parse(input)
    case None => Failed(Panic)
    case Some((data, _)) =>
      match Broadcaster(data)
      case None => Failed(Panic)
      case Some(b) =>
        match ConnMap(data)
        case None => Failed(Panic)
        case Some(m) => Product(Presses(m, b, PRESSES, fuel))
  }

  lemma BroadcasterName(data: seq<Line>)
    requires Broadcaster(data).Some?
    ensures Broadcaster(data).value.name == BROADCASTER
  {
    BroadcasterFirst(data);
  }

  /** Once the input parses, has a broadcaster and every other line has a kind, the presses
      never panic: they either give the answer or run out of fuel. */
  lemma SolveNoPanic(input: seq<char>, fuel: nat)
    requires Parse(input).Some?
    requires var data := Parse(input).value.0;
      Broadcaster(data).Some? &&
      forall i | 0 <= i < |data| :: data[i].name != BROADCASTER ==> data[i].symbol in {Some('%'), Some('&')}
    ensures Solve(input, fuel) != Failed(Panic)
  {
    var data := Parse(input).value.0;
    ConnMapNone(data);
    ConnMapWired(data);
    BroadcasterName(data);
    PressesNoPanic(ConnMap(data).value, Broadcaster(data).value, PRESSES, fuel);
  }

  method Proc1(input: seq<char>, fuel: nat) returns (r: Result)
    ensures r == Solve(input, fuel)
  {
    var parsed := Parse(input);
    if parsed.None? {
      return Failed(Panic);
    }
    var data := parsed.value.0;
    var b := FindBroadcaster(data);
    if b.None? {
      return Failed(Panic);
    }
    var m := BuildConnMap(data);
    if m.None? {
      return Failed(Panic);
    }
    var c := PushButton(m.value, b.value, fuel);
    return Product(c);
  }
}
