/** Day 8: a walk through a map of nodes. Each node names a left and a right
    successor; the walk starts at "AAA", follows the directions cyclically and
    stops on the first step that lands on "ZZZ". */
module Day08 {
  import opened Common

  /** A parsed node line: the node's name, its left and its right successor. */
  type Node = (seq<char>, seq<char>, seq<char>)

  predicate IsLR(c: char) { c == 'L' || c == 'R' }

  predicate AllLR(s: seq<char>) { forall i | 0 <= i < |s| :: IsLR(s[i]) }

  /** `parse_direction`: one or more 'L'/'R' characters, a newline, and an empty line. */
  function ParseDirection(s: seq<char>): (r: Option<(seq<char>, seq<char>)>)
    ensures r.Some? <==> (var k := Span(s, IsLR);
      0 < k && k + 2 <= |s| && s[k] == '\n' && s[k + 1] == '\n')
    ensures r.Some? ==> r.value.0 != [] && AllLR(r.value.0) && s == r.value.0 + "\n\n" + r.value.1
  {
    var k := Span(s, IsLR);
    if k == 0 then None
    else
      match Newline(s[k..])
      case None => None
      case Some(r1) =>
        match Newline(r1)
        case None => None
        case Some(r2) =>
          assert s == s[..k] + "\n\n" + r2;
          Some((s[..k], r2))
  }

  /** `parse_node`: "NAME = (LEFT, RIGHT)" and a newline, the three names runs of letters. */
  function ParseNode(s: seq<char>): (r: Option<(Node, seq<char>)>)
    ensures r.Some? ==> var n := r.value.0;
      && n.0 != [] && AllAlpha(n.0) && n.1 != [] && AllAlpha(n.1) && n.2 != [] && AllAlpha(n.2)
      && s == n.0 + (" = (" + (n.1 + (", " + (n.2 + (")\n" + r.value.1)))))
  {
    match Alpha1(s)
    case None => None
    case Some((node, r1)) =>
      match Tag(" = (", r1)
      case None => None
      case Some(r2) =>
        match Alpha1(r2)
        case None => None
        case Some((left, r3)) =>
          match Tag(", ", r3)
          case None => None
          case Some(r4) =>
            match Alpha1(r4)
            case None => None
            case Some((right, r5)) =>
              match Tag(")\n", r5)
              case None => None
              case Some(r6) => Some(((node, left, right), r6))
  }

  /** Node lines as long as they parse; `many1(parse_node)` is this list when it is not empty. */
  function ParseNodes(s: seq<char>): (r: (seq<Node>, seq<char>))
    ensures |r.1| <= |s|
    decreases |s|
  {
    match ParseNode(s)
    case None => ([], s)
    case Some((n, rest)) =>
      var tail := ParseNodes(rest);
      ([n] + tail.0, tail.1)
  }

  /** `parse`: the directions, then at least one node line. */
  function Parse(s: seq<char>): (r: Option<(seq<char>, seq<Node>)>)
    ensures r.Some? ==> r.value.0 != [] && AllLR(r.value.0) && r.value.1 != []
  {
    match ParseDirection(s)
    case None => None
    case Some((dirs, r1)) =>
      var nodes := ParseNodes(r1).0;
      if nodes == [] then None else Some((dirs, nodes))
  }

  // The map of nodes.

  /** The map `calc` fills: every node line inserted in order, so a later line with the same name wins. */
  function MapOf(nodes: seq<Node>): map<seq<char>, (seq<char>, seq<char>)>
  {
    if nodes == [] then map[]
    else
      var last := nodes[|nodes| - 1];
      MapOf(nodes[..|nodes| - 1])[last.0 := (last.1, last.2)]
  }

  /** The map holds exactly the names of the node lines, each with the successors of the last line naming it. */
  lemma {:induction false} MapOfLastWins(nodes: seq<Node>, key: seq<char>)
    ensures key in MapOf(nodes) <==> exists i | 0 <= i < |nodes| :: nodes[i].0 == key
    ensures forall i | 0 <= i < |nodes| && nodes[i].0 == key && (forall j | i < j < |nodes| :: nodes[j].0 != key) ::
      MapOf(nodes)[key] == (nodes[i].1, nodes[i].2)
  {
    if nodes != [] {
      var init := nodes[..|nodes| - 1];
      MapOfLastWins(init, key);
      assert forall i | 0 <= i < |init| :: init[i] == nodes[i];
      if key in MapOf(nodes) && nodes[|nodes| - 1].0 != key {
        var i :| 0 <= i < |init| && init[i].0 == key;
        assert nodes[i].0 == key;
      }
    }
  }

  /** The first loop of `calc`: one insertion per node line. */
  method BuildMap(nodes: seq<Node>) returns (m: map<seq<char>, (seq<char>, seq<char>)>)
    ensures m == MapOf(nodes)
  {
    m := map[];
    for i := 0 to |nodes|
      invariant m == MapOf(nodes[..i])
    {
      assert nodes[..i + 1][..i] == nodes[..i];
      m := m[nodes[i].0 := (nodes[i].1, nodes[i].2)];
    }
    assert nodes[..|nodes|] == nodes;
  }

  // The walk.

  /** The successor taken on step i (counted from 0): 'L' follows the left edge, any other character the right one. */
  function Successor(dirs: seq<char>, node: (seq<char>, seq<char>), i: nat): seq<char>
    requires dirs != []
  {
    if dirs[i % |dirs|] == 'L' then node.0 else node.1
  }

  /** The name reached after n steps from "AAA"; None once a name is missing from the map
      (where `calc` unwraps a failed lookup). */
  function KeyAfter(dirs: seq<char>, m: map<seq<char>, (seq<char>, seq<char>)>, n: nat): (r: Option<seq<char>>)
    requires dirs != []
    ensures r.Some? ==> r.value in m
  {
    if n == 0 then (if "AAA" in m then Some("AAA") else None)
    else
      match KeyAfter(dirs, m, n - 1)
      case None => None
      case Some(key) =>
        var next := Successor(dirs, m[key], n - 1);
        if next in m then Some(next) else None
  }

  /** Once a lookup has failed the walk is over. */
  lemma {:induction false} KeyAfterStaysNone(dirs: seq<char>, m: map<seq<char>, (seq<char>, seq<char>)>, i: nat, j: nat)
    requires dirs != [] && i <= j && KeyAfter(dirs, m, i).None?
    ensures KeyAfter(dirs, m, j).None?
    decreases j - i
  {
    if i < j {
      KeyAfterStaysNone(dirs, m, i, j - 1);
    }
  }

  /** The answer within `fuel` steps: the first step reaching "ZZZ". */
  predicate ReachesWithin(dirs: seq<char>, m: map<seq<char>, (seq<char>, seq<char>)>, fuel: nat)
    requires dirs != []
  {
    exists n | 1 <= n <= fuel :: KeyAfter(dirs, m, n) == Some("ZZZ")
  }

  /** `calc`: the 1-based number of the first step that lands on "ZZZ". The source loops without
      bound; here the walk gives up after `fuel` steps. None also where a lookup fails. */
  method Calc(dirs: seq<char>, nodes: seq<Node>, fuel: nat) returns (r: Option<nat>)
    requires dirs != []
    ensures r.Some? <==> ReachesWithin(dirs, MapOf(nodes), fuel)
    ensures r.Some? ==> 1 <= r.value <= fuel && KeyAfter(dirs, MapOf(nodes), r.value) == Some("ZZZ")
    ensures r.Some? ==> forall n | 1 <= n < r.value :: KeyAfter(dirs, MapOf(nodes), n) != Some("ZZZ")
  {
    var m := BuildMap(nodes);
    if "AAA" !in m {
      forall n | 1 <= n <= fuel
        ensures KeyAfter(dirs, m, n).None?
      {
        KeyAfterStaysNone(dirs, m, 0, n);
      }
      return None;
    }
    var key: seq<char> := "AAA";
    var node := m[key];
    var i := 0;
    while i < fuel
      invariant i <= fuel
      invariant KeyAfter(dirs, m, i) == Some(key) && key in m && node == m[key]
      invariant forall n | 1 <= n <= i :: KeyAfter(dirs, m, n) != Some("ZZZ")
    {
      var idx := i % |dirs|;
      var lr := dirs[idx];
      if lr == 'L' {
        key := node.0;
      } else {
        key := node.1;
      }
      if key !in m {
        assert KeyAfter(dirs, m, i + 1).None?;
        forall n | i + 1 <= n <= fuel
          ensures KeyAfter(dirs, m, n).None?
        {
          KeyAfterStaysNone(dirs, m, i + 1, n);
        }
        return None;
      }
      node := m[key];
      assert KeyAfter(dirs, m, i + 1) == Some(key);
      if key == "ZZZ" {
        return Some(i + 1);
      }
      i := i + 1;
    }
    return None;
  }

  /** `proc_1`: parse, then walk; None where parsing fails. */
  method Proc1(data: seq<char>, fuel: nat) returns (r: Option<nat>)
    ensures r.Some? <==> Parse(data).Some? && ReachesWithin(Parse(data).value.0, MapOf(Parse(data).value.1), fuel)
    ensures r.Some? ==> var (dirs, nodes) := Parse(data).value;
      KeyAfter(dirs, MapOf(nodes), r.value) == Some("ZZZ") &&
      forall n | 1 <= n < r.value :: KeyAfter(dirs, MapOf(nodes), n) != Some("ZZZ")
  {
    var parsed := Parse(data);
    if parsed.None? {
      return None;
    }
    r := Calc(parsed.value.0, parsed.value.1, fuel);
  }

  // Printing and reading back.

  predicate Name(w: seq<char>) { w != [] && AllAlpha(w) }

  function ShowNode(n: Node): seq<char>
  {
    n.0 + (" = (" + (n.1 + (", " + (n.2 + ")\n"))))
  }

  function ShowNodes(nodes: seq<Node>): seq<char>
  {
    if nodes == [] then [] else ShowNode(nodes[0]) + ShowNodes(nodes[1..])
  }

  predicate Printable(nodes: seq<Node>)
  {
    forall i | 0 <= i < |nodes| :: Name(nodes[i].0) && Name(nodes[i].1) && Name(nodes[i].2)
  }

  /** After a name comes a blank, a comma or a parenthesis, none of them a letter. */
  lemma TagAfterName(w: seq<char>, t: seq<char>, rest: seq<char>)
    requires Name(w) && t != [] && !IsAlpha(t[0])
    ensures Alpha1(w + (t + rest)) == Some((w, t + rest))
    ensures Tag(t, t + rest) == Some(rest)
  {
    Alpha1OfConcat(w, t + rest);
    TagOfConcat(t, rest);
  }

  /** `parse_node` reads back a printed node line. */
  lemma ParseNodeOfShow(n: Node, rest: seq<char>)
    requires Name(n.0) && Name(n.1) && Name(n.2)
    ensures ParseNode(ShowNode(n) + rest) == Some((n, rest))
  {
    var close: seq<char> := ")\n";
    var comma: seq<char> := ", ";
    var open: seq<char> := " = (";
    var s5 := n.2 + (close + rest);
    var s3 := n.1 + (comma + s5);
    ShowNodeSplit(n, rest);
    TagAfterName(n.0, open, s3);
    TagAfterName(n.1, comma, s5);
    TagAfterName(n.2, close, rest);
  }

  lemma ShowNodeSplit(n: Node, rest: seq<char>)
    ensures ShowNode(n) + rest == n.0 + (" = (" + (n.1 + (", " + (n.2 + (")\n" + rest)))))
  {
    var close: seq<char> := ")\n";
    var comma: seq<char> := ", ";
    var open: seq<char> := " = (";
    AppendAssoc(n.2, close, rest);
    AppendAssoc(comma, n.2 + close, rest);
    AppendAssoc(n.1, comma + (n.2 + close), rest);
    AppendAssoc(open, n.1 + (comma + (n.2 + close)), rest);
    AppendAssoc(n.0, open + (n.1 + (comma + (n.2 + close))), rest);
  }

  lemma ParseNodesStep(s: seq<char>, n: Node, rest: seq<char>, tail: seq<Node>, after: seq<char>)
    requires ParseNode(s) == Some((n, rest)) && ParseNodes(rest) == (tail, after)
    ensures ParseNodes(s) == ([n] + tail, after)
  {
  }

  lemma PrintableTail(nodes: seq<Node>)
    requires nodes != [] && Printable(nodes)
    ensures Name(nodes[0].0) && Name(nodes[0].1) && Name(nodes[0].2) && Printable(nodes[1..])
    ensures nodes == [nodes[0]] + nodes[1..]
  {
    assert forall i | 0 <= i < |nodes[1..]| :: nodes[1..][i] == nodes[i + 1];
  }

  /** The node read from printed node lines is the first one, and what is left is the printed rest. */
  lemma ParseNodeOfShowNodes(nodes: seq<Node>)
    requires nodes != [] && Printable(nodes)
    ensures Printable(nodes[1..]) && nodes == [nodes[0]] + nodes[1..]
    ensures ParseNode(ShowNodes(nodes)) == Some((nodes[0], ShowNodes(nodes[1..])))
  {
    PrintableTail(nodes);
    assert ShowNodes(nodes) == ShowNode(nodes[0]) + ShowNodes(nodes[1..]);
    ParseNodeOfShow(nodes[0], ShowNodes(nodes[1..]));
  }

  /** Printed node lines read back as the same list, consuming the whole input. */
  lemma {:induction false} ParseNodesOfShow(nodes: seq<Node>)
    requires Printable(nodes)
    ensures ParseNodes(ShowNodes(nodes)) == (nodes, [])
  {
    if nodes != [] {
      var tail := nodes[1..];
      ParseNodeOfShowNodes(nodes);
      ParseNodesOfShow(tail);
      ParseNodesStep(ShowNodes(nodes), nodes[0], ShowNodes(tail), tail, []);
    }
  }

  /** `parse_direction` reads back the directions followed by an empty line. */
  lemma ParseDirectionOfShow(dirs: seq<char>, rest: seq<char>)
    requires dirs != [] && AllLR(dirs)
    ensures ParseDirection(dirs + ("\n\n" + rest)) == Some((dirs, rest))
  {
    var s := dirs + ("\n\n" + rest);
    SpanOfConcat(dirs, "\n\n" + rest, IsLR);
    assert s[..|dirs|] == dirs && s[|dirs|..] == "\n\n" + rest;
  }

  /** `parse` reads back printed directions and node lines. */
  lemma ParseOfShow(dirs: seq<char>, nodes: seq<Node>)
    requires dirs != [] && AllLR(dirs) && nodes != [] && Printable(nodes)
    ensures Parse(dirs + ("\n\n" + ShowNodes(nodes))) == Some((dirs, nodes))
  {
    ParseDirectionOfShow(dirs, ShowNodes(nodes));
    ParseNodesOfShow(nodes);
  }

  /** The inline test: "AAA = (BBB, CCC)\n" is the node AAA with successors BBB and CCC, nothing left. */
  lemma ExampleNode()
    ensures ParseNode("AAA = (BBB, CCC)\n") == Some((("AAA", "BBB", "CCC"), []))
  {
    ExampleNodeText();
    ParseNodeOfShow(("AAA", "BBB", "CCC"), []);
    assert ShowNode(("AAA", "BBB", "CCC")) + [] == ShowNode(("AAA", "BBB", "CCC"));
  }

  lemma ExampleNodeText()
    ensures ShowNode(("AAA", "BBB", "CCC")) == "AAA = (BBB, CCC)\n"
  {
  }

  /** The inline test: "RL\n\n" is the directions R, L with nothing left. */
  lemma ExampleDirections()
    ensures ParseDirection("RL\n\n") == Some(("RL", []))
  {
    ParseDirectionOfShow("RL", []);
    assert "RL" + ("\n\n" + []) == "RL\n\n";
  }
}
