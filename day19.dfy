/** Day 19: parts with four ratings are routed through named workflows of comparison rules
    until they are accepted ("A") or rejected ("R"); the answer adds up the ratings of the
    accepted parts. */
module Day19 {
  import opened Common

  // ---------------------------------------------------------------------------------------
  // Data.

  /** `param op value : target`, for instance `a<2006:qkq`. */
  datatype Rule = Rule(param: seq<char>, op: char, value: nat, target: seq<char>)

  /** `name{rule,…,rule,last}`. */
  datatype Workflow = Workflow(name: seq<char>, rules: seq<Rule>, last: seq<char>)

  /** `{x=…,m=…,a=…,s=…}`. */
  datatype Part = Part(x: nat, m: nat, a: nat, s: nat)

  predicate IsCmp(c: char) { c == '<' || c == '>' }

  predicate IsName(w: seq<char>) { w != [] && AllAlpha(w) }

  // ---------------------------------------------------------------------------------------
  // Parsing.

  /** `parse_rule`. */
  function ParseRule(s: seq<char>): (r: Option<(Rule, seq<char>)>)
    ensures r.Some? ==> |r.value.1| < |s| && WellFormedRule(r.value.0)
  {
    match Alpha1(s)
    case None => None
    case Some((param, a)) =>
      if a == [] || !IsCmp(a[0]) then None
      else
        match ParseU32(a[1..])
        case None => None
        case Some((value, b)) =>
          match Tag(":", b)
          case None => None
          case Some(c) =>
            match Alpha1(c)
            case None => None
            case Some((target, rest)) => Some((Rule(param, a[0], value, target), rest))
  }

  /** The loop of `separated_list1(tag(","), parse_rule)` after its first rule: a separator and
      a rule are taken together, and when either fails the separator is left unread. */
  function RulesTail(s: seq<char>, acc: seq<Rule>): (r: (seq<Rule>, seq<char>))
    ensures |r.1| <= |s| && |r.0| >= |acc|
    decreases |s|
  {
    match Tag(",", s)
    case None => (acc, s)
    case Some(t) =>
      match ParseRule(t)
      case None => (acc, s)
      case Some((rule, u)) => RulesTail(u, acc + [rule])
  }

  /** `separated_list1(tag(","), parse_rule)`. */
  function RuleList(s: seq<char>): (r: Option<(seq<Rule>, seq<char>)>)
    ensures r.Some? ==> r.value.0 != []
  {
    match ParseRule(s)
    case None => None
    case Some((rule, t)) => Some(RulesTail(t, [rule]))
  }

  /** `parse_rule_line`: at least one conditional rule, then `,` and a bare default name. */
  function ParseRuleLine(s: seq<char>): (r: Option<(Workflow, seq<char>)>)
    ensures r.Some? ==> |r.value.1| < |s| && r.value.0.rules != []
  {
    match Alpha1(s)
    case None => None
    case Some((name, a)) =>
      match Tag("{", a)
      case None => None
      case Some(b) =>
        match RuleList(b)
        case None => None
        case Some((rules, c)) =>
          match Tag(",", c)
          case None => None
          case Some(d) =>
            match Alpha1(d)
            case None => None
            case Some((last, e)) =>
              match Tag("}\n", e)
              case None => None
              case Some(rest) => Some((Workflow(name, rules, last), rest))
  }

  /** The four field tags of a part line, in order. */
  const PART_TAGS: seq<seq<char>> := ["{x=", ",m=", ",a=", ",s="]

  /** A run of `tag(t)` then `digit1_u32` for each tag t in turn. */
  function Fields(tags: seq<seq<char>>, s: seq<char>): (r: Option<(seq<nat>, seq<char>)>)
    ensures r.Some? ==> |r.value.0| == |tags| && |r.value.1| <= |s|
    ensures r.Some? && tags != [] ==> |r.value.1| < |s|
    ensures r.Some? ==> forall i | 0 <= i < |r.value.0| :: r.value.0[i] < U32_LIMIT
  {
    if tags == [] then Some(([], s))
    else
      match Tag(tags[0], s)
      case None => None
      case Some(a) =>
        match ParseU32(a)
        case None => None
        case Some((v, b)) =>
          match Fields(tags[1..], b)
          case None => None
          case Some((vs, rest)) => Some(([v] + vs, rest))
  }

  /** `parse_part_line`: the four fields, then a closing brace and a newline. */
  function ParsePartLine(s: seq<char>): (r: Option<(Part, seq<char>)>)
    ensures r.Some? ==> |r.value.1| < |s|
  {
    match Fields(PART_TAGS, s)
    case None => None
    case Some((vs, h)) =>
      match Tag("}\n", h)
      case None => None
      case Some(rest) => Some((Part(vs[0], vs[1], vs[2], vs[3]), rest))
  }

  /** The loop of `many1(parse_rule_line)`, appending to acc. */
  function WorkflowLines(s: seq<char>, acc: seq<Workflow>): (r: (seq<Workflow>, seq<char>))
    ensures |r.1| <= |s| && |r.0| >= |acc|
    decreases |s|
  {
    match ParseRuleLine(s)
    case None => (acc, s)
    case Some((w, rest)) => WorkflowLines(rest, acc + [w])
  }

  /** The loop of `many1(parse_part_line)`, appending to acc. */
  function PartLines(s: seq<char>, acc: seq<Part>): (r: (seq<Part>, seq<char>))
    ensures |r.1| <= |s| && |r.0| >= |acc|
    decreases |s|
  {
    match ParsePartLine(s)
    case None => (acc, s)
    case Some((p, rest)) => PartLines(rest, acc + [p])
  }

  /** `parse`: one or more workflows, an empty line, one or more parts. */
  function Parse(s: seq<char>): (r: Option<((seq<Workflow>, seq<Part>), seq<char>)>)
    ensures r.Some? ==> r.value.0.0 != [] && r.value.0.1 != []
  {
    var ws := WorkflowLines(s, []);
    if ws.0 == [] then None
    else
      match Newline(ws.1)
      case None => None
      case Some(t) =>
        var ps := PartLines(t, []);
        if ps.0 == [] then None else Some(((ws.0, ps.0), ps.1))
  }

  // ---------------------------------------------------------------------------------------
  // Printing, and parsing what was printed.

  predicate WellFormedRule(r: Rule)
  {
    IsName(r.param) && IsCmp(r.op) && r.value < U32_LIMIT && IsName(r.target)
  }

  predicate WellFormedWorkflow(w: Workflow)
  {
    IsName(w.name) && w.rules != [] && (forall i | 0 <= i < |w.rules| :: WellFormedRule(w.rules[i])) && IsName(w.last)
  }

  predicate WellFormedPart(p: Part)
  {
    p.x < U32_LIMIT && p.m < U32_LIMIT && p.a < U32_LIMIT && p.s < U32_LIMIT
  }

  function ShowRuleThen(r: Rule, rest: seq<char>): seq<char>
  {
    r.param + ([r.op] + (ShowNat(r.value) + (":" + (r.target + rest))))
  }

  /** Each further rule with its leading comma. */
  function ShowTailThen(rs: seq<Rule>, rest: seq<char>): seq<char>
  {
    if rs == [] then rest else "," + ShowRuleThen(rs[0], ShowTailThen(rs[1..], rest))
  }

  function ShowWorkflowThen(w: Workflow, rest: seq<char>): seq<char>
    requires w.rules != []
  {
    w.name + ("{" + ShowRuleThen(w.rules[0], ShowTailThen(w.rules[1..], "," + (w.last + ("}\n" + rest)))))
  }

  function ShowFieldsThen(tags: seq<seq<char>>, vs: seq<nat>, rest: seq<char>): seq<char>
    requires |tags| == |vs|
  {
    if tags == [] then rest else tags[0] + (ShowNat(vs[0]) + ShowFieldsThen(tags[1..], vs[1..], rest))
  }

  function ShowPartThen(p: Part, rest: seq<char>): seq<char>
  {
    ShowFieldsThen(PART_TAGS, [p.x, p.m, p.a, p.s], "}\n" + rest)
  }

  function ShowWorkflowsThen(ws: seq<Workflow>, rest: seq<char>): seq<char>
    requires forall i | 0 <= i < |ws| :: WellFormedWorkflow(ws[i])
  {
    if ws == [] then rest
    else
      assert WellFormedWorkflow(ws[0]);
      ShowWorkflowThen(ws[0], ShowWorkflowsThen(ws[1..], rest))
  }

  function ShowPartsThen(ps: seq<Part>, rest: seq<char>): seq<char>
  {
    if ps == [] then rest else ShowPartThen(ps[0], ShowPartsThen(ps[1..], rest))
  }

  /** Text at which the rule list stops: no comma, or a comma not followed by a rule. */
  predicate StopsRules(s: seq<char>)
  {
    match Tag(",", s)
    case None => true
    case Some(t) => ParseRule(t).None?
  }

  lemma ParseRuleOfShow(r: Rule, rest: seq<char>)
    requires WellFormedRule(r)
    requires rest == [] || !IsAlpha(rest[0])
    ensures ParseRule(ShowRuleThen(r, rest)) == Some((r, rest))
  {
    var c := r.target + rest;
    var b := ":" + c;
    var a := [r.op] + (ShowNat(r.value) + b);
    Alpha1OfConcat(r.param, a);
    assert a[1..] == ShowNat(r.value) + b;
    ParseU32OfShowNat(r.value, b);
    TagOfConcat(":", c);
    Alpha1OfConcat(r.target, rest);
  }

  lemma RulesTailStep(s: seq<char>, t: seq<char>, rule: Rule, u: seq<char>, acc: seq<Rule>)
    requires Tag(",", s) == Some(t) && ParseRule(t) == Some((rule, u))
    ensures RulesTail(s, acc) == RulesTail(u, acc + [rule])
  {
  }

  lemma RulesTailStop(s: seq<char>, acc: seq<Rule>)
    requires StopsRules(s)
    ensures RulesTail(s, acc) == (acc, s)
  {
  }

  /** A comma and a rule `r` at the start of `s`, leaving `u`: one round of the rule list. */
  predicate RuleStep(s: seq<char>, r: Rule, u: seq<char>)
  {
    match Tag(",", s)
    case None => false
    case Some(t) => ParseRule(t) == Some((r, u))
  }

  /** Texts `ss`, each of which starts with a comma and the next of the rules `rs`, leaving the
      next text, ending in a text at which the rule list stops. */
  ghost predicate RuleChain(ss: seq<seq<char>>, rs: seq<Rule>)
    decreases rs
  {
    |ss| == |rs| + 1 &&
    if rs == [] then StopsRules(ss[0])
    else RuleStep(ss[0], rs[0], ss[1]) && RuleChain(ss[1..], rs[1..])
  }

  lemma {:induction false} RulesTailChain(ss: seq<seq<char>>, rs: seq<Rule>, acc: seq<Rule>)
    requires RuleChain(ss, rs)
    ensures RulesTail(ss[0], acc) == (acc + rs, ss[|rs|])
    decreases rs
  {
    if rs == [] {
      RulesTailStop(ss[0], acc);
      assert acc + rs == acc;
    } else {
      RulesTailStep(ss[0], ss[0][1..], rs[0], ss[1], acc);
      RulesTailChain(ss[1..], rs[1..], acc + [rs[0]]);
      AccStep(acc, rs);
    }
  }

  /** The texts that remain after each printed further rule. */
  function RuleSuffixes(rs: seq<Rule>, rest: seq<char>): (ss: seq<seq<char>>)
    ensures |ss| == |rs| + 1 && ss[0] == ShowTailThen(rs, rest) && ss[|rs|] == rest
  {
    if rs == [] then [rest] else [ShowTailThen(rs, rest)] + RuleSuffixes(rs[1..], rest)
  }

  lemma RuleChainCons(ss: seq<seq<char>>, rs: seq<Rule>, s: seq<char>)
    requires rs != [] && RuleChain(ss, rs[1..]) && RuleStep(s, rs[0], ss[0])
    ensures RuleChain([s] + ss, rs)
  {
    assert ([s] + ss)[1..] == ss;
  }

  lemma RuleHead(rs: seq<Rule>, rest: seq<char>)
    requires rs != [] && WellFormedRule(rs[0])
    requires rest == [] || !IsAlpha(rest[0])
    ensures RuleStep(ShowTailThen(rs, rest), rs[0], ShowTailThen(rs[1..], rest))
  {
    var tail := ShowTailThen(rs[1..], rest);
    TailStart(rs[1..], rest);
    var shown := ShowRuleThen(rs[0], tail);
    ParseRuleOfShow(rs[0], tail);
    TagOfConcat(",", shown);
  }

  lemma RuleChainOfShowStep(rs: seq<Rule>, rest: seq<char>)
    requires rs != [] && WellFormedRule(rs[0])
    requires rest == [] || !IsAlpha(rest[0])
    requires RuleChain(RuleSuffixes(rs[1..], rest), rs[1..])
    ensures RuleChain(RuleSuffixes(rs, rest), rs)
  {
    RuleHead(rs, rest);
    RuleChainCons(RuleSuffixes(rs[1..], rest), rs, ShowTailThen(rs, rest));
  }

  lemma {:induction false} RuleChainOfShow(rs: seq<Rule>, rest: seq<char>)
    requires forall i | 0 <= i < |rs| :: WellFormedRule(rs[i])
    requires rest == [] || !IsAlpha(rest[0])
    requires StopsRules(rest)
    ensures RuleChain(RuleSuffixes(rs, rest), rs)
  {
    if rs != [] {
      RuleChainOfShow(rs[1..], rest);
      RuleChainOfShowStep(rs, rest);
    }
  }

  lemma RulesTailOfShow(rs: seq<Rule>, rest: seq<char>, acc: seq<Rule>)
    requires forall i | 0 <= i < |rs| :: WellFormedRule(rs[i])
    requires rest == [] || !IsAlpha(rest[0])
    requires StopsRules(rest)
    ensures RulesTail(ShowTailThen(rs, rest), acc) == (acc + rs, rest)
  {
    RuleChainOfShow(rs, rest);
    RulesTailChain(RuleSuffixes(rs, rest), rs, acc);
  }

  lemma TailStart(rs: seq<Rule>, rest: seq<char>)
    requires rest == [] || !IsAlpha(rest[0])
    ensures ShowTailThen(rs, rest) == [] || !IsAlpha(ShowTailThen(rs, rest)[0])
  {
  }

  /** The default name closes the rule list: the comma before it is left for `tag(",")`. */
  lemma DefaultStops(last: seq<char>, rest: seq<char>)
    requires IsName(last)
    ensures StopsRules("," + (last + ("}\n" + rest)))
  {
    TagOfConcat(",", last + ("}\n" + rest));
    Alpha1OfConcat(last, "}\n" + rest);
  }

  lemma RuleListOfShow(rs: seq<Rule>, rest: seq<char>)
    requires rs != [] && forall i | 0 <= i < |rs| :: WellFormedRule(rs[i])
    requires rest == [] || !IsAlpha(rest[0])
    requires StopsRules(rest)
    ensures RuleList(ShowRuleThen(rs[0], ShowTailThen(rs[1..], rest))) == Some((rs, rest))
  {
    var tail := ShowTailThen(rs[1..], rest);
    TailStart(rs[1..], rest);
    ParseRuleOfShow(rs[0], tail);
    RulesTailOfShow(rs[1..], rest, [rs[0]]);
    HeadTail(rs);
  }

  /** A printed workflow followed by anything parses back to itself. */
  lemma ParseRuleLineOfShow(w: Workflow, rest: seq<char>)
    requires WellFormedWorkflow(w)
    ensures ParseRuleLine(ShowWorkflowThen(w, rest)) == Some((w, rest))
  {
    var e := "}\n" + rest;
    var d := w.last + e;
    var c := "," + d;
    var b := ShowRuleThen(w.rules[0], ShowTailThen(w.rules[1..], c));
    DefaultStops(w.last, rest);
    RuleListOfShow(w.rules, c);
    Alpha1OfConcat(w.name, "{" + b);
    TagOfConcat("{", b);
    TagOfConcat(",", d);
    Alpha1OfConcat(w.last, e);
    TagOfConcat("}\n", rest);
  }

  /** Tags that are not empty and do not start with a digit, so a numeral before one ends there. */
  predicate Separating(tags: seq<seq<char>>)
  {
    forall i | 0 <= i < |tags| :: tags[i] != [] && !IsDigit(tags[i][0])
  }

  lemma FieldsCons(tags: seq<seq<char>>, s: seq<char>, a: seq<char>, v: nat, b: seq<char>, vs: seq<nat>, rest: seq<char>)
    requires tags != []
    requires Tag(tags[0], s) == Some(a) && ParseU32(a) == Some((v, b))
    requires Fields(tags[1..], b) == Some((vs, rest))
    ensures Fields(tags, s) == Some(([v] + vs, rest))
  {
  }

  /** What follows a printed numeral in a field list does not start with a digit. */
  lemma FieldsEnd(tags: seq<seq<char>>, vs: seq<nat>, rest: seq<char>)
    requires |tags| == |vs| && Separating(tags)
    requires rest == [] || !IsDigit(rest[0])
    ensures var t := ShowFieldsThen(tags, vs, rest); t == [] || !IsDigit(t[0])
  {
    if tags != [] {
      assert ShowFieldsThen(tags, vs, rest)[0] == tags[0][0];
    }
  }

  lemma {:induction false} FieldsOfShow(tags: seq<seq<char>>, vs: seq<nat>, rest: seq<char>)
    requires |tags| == |vs| && Separating(tags)
    requires forall i | 0 <= i < |vs| :: vs[i] < U32_LIMIT
    requires rest == [] || !IsDigit(rest[0])
    ensures Fields(tags, ShowFieldsThen(tags, vs, rest)) == Some((vs, rest))
  {
    if tags != [] {
      var next := ShowFieldsThen(tags[1..], vs[1..], rest);
      var num := ShowNat(vs[0]) + next;
      FieldsOfShow(tags[1..], vs[1..], rest);
      FieldsEnd(tags[1..], vs[1..], rest);
      ParseU32OfShowNat(vs[0], next);
      TagOfConcat(tags[0], num);
      FieldsCons(tags, tags[0] + num, num, vs[0], next, vs[1..], rest);
      HeadTail(vs);
    }
  }

  /** A printed part followed by anything parses back to itself. */
  lemma ParsePartLineOfShow(p: Part, rest: seq<char>)
    requires WellFormedPart(p)
    ensures ParsePartLine(ShowPartThen(p, rest)) == Some((p, rest))
  {
    assert Separating(PART_TAGS);
    FieldsOfShow(PART_TAGS, [p.x, p.m, p.a, p.s], "}\n" + rest);
    TagOfConcat("}\n", rest);
  }

  lemma WorkflowLinesStep(s: seq<char>, w: Workflow, rest: seq<char>, acc: seq<Workflow>)
    requires ParseRuleLine(s) == Some((w, rest))
    ensures WorkflowLines(s, acc) == WorkflowLines(rest, acc + [w])
  {
  }

  lemma {:induction false} WorkflowLinesOfShow(ws: seq<Workflow>, rest: seq<char>, acc: seq<Workflow>)
    requires forall i | 0 <= i < |ws| :: WellFormedWorkflow(ws[i])
    requires ParseRuleLine(rest).None?
    ensures WorkflowLines(ShowWorkflowsThen(ws, rest), acc) == (acc + ws, rest)
  {
    if ws == [] {
      assert acc + ws == acc;
    } else {
      var tail := ShowWorkflowsThen(ws[1..], rest);
      ParseRuleLineOfShow(ws[0], tail);
      WorkflowLinesStep(ShowWorkflowsThen(ws, rest), ws[0], tail, acc);
      WorkflowLinesOfShow(ws[1..], rest, acc + [ws[0]]);
      AccStep(acc, ws);
    }
  }

  lemma PartLinesStep(s: seq<char>, p: Part, rest: seq<char>, acc: seq<Part>)
    requires ParsePartLine(s) == Some((p, rest))
    ensures PartLines(s, acc) == PartLines(rest, acc + [p])
  {
  }

  lemma PartLinesStop(s: seq<char>, acc: seq<Part>)
    requires ParsePartLine(s).None?
    ensures PartLines(s, acc) == (acc, s)
  {
  }

  /** Texts `ss`, each of which parses as one part line (the `ps` in turn) leaving the next,
      ending in a text that is not a part line. */
  ghost predicate PartChain(ss: seq<seq<char>>, ps: seq<Part>)
    decreases ps
  {
    |ss| == |ps| + 1 &&
    if ps == [] then ParsePartLine(ss[0]).None?
    else ParsePartLine(ss[0]) == Some((ps[0], ss[1])) && PartChain(ss[1..], ps[1..])
  }

  /** many1 collects the parts of a chain and stops at its last text. */
  lemma {:induction false} PartLinesChain(ss: seq<seq<char>>, ps: seq<Part>, acc: seq<Part>)
    requires PartChain(ss, ps)
    ensures PartLines(ss[0], acc) == (acc + ps, ss[|ps|])
    decreases ps
  {
    if ps == [] {
      PartLinesStop(ss[0], acc);
      assert acc + ps == acc;
    } else {
      PartLinesStep(ss[0], ps[0], ss[1], acc);
      PartLinesChain(ss[1..], ps[1..], acc + [ps[0]]);
      AccStep(acc, ps);
    }
  }

  /** The texts that remain after each printed part line. */
  function PartSuffixes(ps: seq<Part>, rest: seq<char>): (ss: seq<seq<char>>)
    ensures |ss| == |ps| + 1 && ss[0] == ShowPartsThen(ps, rest) && ss[|ps|] == rest
  {
    if ps == [] then [rest] else [ShowPartsThen(ps, rest)] + PartSuffixes(ps[1..], rest)
  }

  lemma PartChainCons(ss: seq<seq<char>>, ps: seq<Part>, s: seq<char>, p: Part)
    requires PartChain(ss, ps) && ParsePartLine(s) == Some((p, ss[0]))
    ensures PartChain([s] + ss, [p] + ps)
  {
    assert ([s] + ss)[1..] == ss && ([p] + ps)[1..] == ps;
  }

  lemma PartHead(ps: seq<Part>, rest: seq<char>)
    requires ps != [] && WellFormedPart(ps[0])
    ensures ParsePartLine(ShowPartsThen(ps, rest)) == Some((ps[0], ShowPartsThen(ps[1..], rest)))
  {
    var tail := ShowPartsThen(ps[1..], rest);
    assert ShowPartsThen(ps, rest) == ShowPartThen(ps[0], tail);
    ParsePartLineOfShow(ps[0], tail);
  }

  lemma PartChainOfShowStep(ps: seq<Part>, rest: seq<char>)
    requires ps != [] && WellFormedPart(ps[0])
    requires PartChain(PartSuffixes(ps[1..], rest), ps[1..])
    ensures PartChain(PartSuffixes(ps, rest), ps)
  {
    PartHead(ps, rest);
    PartChainCons(PartSuffixes(ps[1..], rest), ps[1..], ShowPartsThen(ps, rest), ps[0]);
    assert [ps[0]] + ps[1..] == ps;
  }

  lemma {:induction false} PartChainOfShow(ps: seq<Part>, rest: seq<char>)
    requires forall i | 0 <= i < |ps| :: WellFormedPart(ps[i])
    requires ParsePartLine(rest).None?
    ensures PartChain(PartSuffixes(ps, rest), ps)
  {
    if ps != [] {
      PartChainOfShow(ps[1..], rest);
      PartChainOfShowStep(ps, rest);
    }
  }

  lemma PartLinesOfShow(ps: seq<Part>, rest: seq<char>, acc: seq<Part>)
    requires forall i | 0 <= i < |ps| :: WellFormedPart(ps[i])
    requires ParsePartLine(rest).None?
    ensures PartLines(ShowPartsThen(ps, rest), acc) == (acc + ps, rest)
  {
    PartChainOfShow(ps, rest);
    PartLinesChain(PartSuffixes(ps, rest), ps, acc);
  }

  /** A printed input, workflows then an empty line then parts, parses back whole, with what
      follows the parts left unread. */
  lemma ParseOfShow(ws: seq<Workflow>, ps: seq<Part>, rest: seq<char>)
    requires ws != [] && forall i | 0 <= i < |ws| :: WellFormedWorkflow(ws[i])
    requires ps != [] && forall i | 0 <= i < |ps| :: WellFormedPart(ps[i])
    requires ParsePartLine(rest).None?
    ensures Parse(ShowWorkflowsThen(ws, "\n" + ShowPartsThen(ps, rest))) == Some(((ws, ps), rest))
  {
    var t := ShowPartsThen(ps, rest);
    assert ParseRuleLine("\n" + t).None?;
    WorkflowLinesOfShow(ws, "\n" + t, []);
    assert [] + ws == ws;
    assert Newline("\n" + t) == Some(t);
    PartLinesOfShow(ps, rest, []);
    assert [] + ps == ps;
  }

  // ---------------------------------------------------------------------------------------
  // The workflow map.

  /** A workflow's rules and default target, as `build_map` stores them under its name. */
  type Flow = (seq<Rule>, seq<char>)

  /** The map `build_map` fills: every workflow inserted in order, so a later one with the same
      name wins. */
  function MapOf(ws: seq<Workflow>): map<seq<char>, Flow>
  {
    if ws == [] then map[]
    else
      var last := ws[|ws| - 1];
      MapOf(ws[..|ws| - 1])[last.name := (last.rules, last.last)]
  }

  /** The map holds exactly the workflow names, each with the rules of the last workflow of
      that name. */
  lemma {:induction false} MapOfLastWins(ws: seq<Workflow>, key: seq<char>)
    ensures key in MapOf(ws) <==> exists i | 0 <= i < |ws| :: ws[i].name == key
    ensures forall i | 0 <= i < |ws| && ws[i].name == key && (forall j | i < j < |ws| :: ws[j].name != key) ::
      MapOf(ws)[key] == (ws[i].rules, ws[i].last)
  {
    if ws != [] {
      var init := ws[..|ws| - 1];
      MapOfLastWins(init, key);
      assert forall i | 0 <= i < |init| :: init[i] == ws[i];
      if key in MapOf(ws) && ws[|ws| - 1].name != key {
        var i :| 0 <= i < |init| && init[i].name == key;
        assert ws[i].name == key;
      }
    }
  }

  /** `build_map`: one insertion per workflow. */
  method BuildMap(ws: seq<Workflow>) returns (m: map<seq<char>, Flow>)
    ensures m == MapOf(ws)
  {
    m := map[];
    for i := 0 to |ws|
      invariant m == MapOf(ws[..i])
    {
      assert ws[..i + 1][..i] == ws[..i];
      m := m[ws[i].name := (ws[i].rules, ws[i].last)];
    }
    assert ws[..|ws|] == ws;
  }

  // ---------------------------------------------------------------------------------------
  // One workflow.

  /** The rating a rule names; None for a name other than x, m, a, s (`unreachable!`). */
  function Rating(p: Part, param: seq<char>): Option<nat>
  {
    if param == "x" then Some(p.x)
    else if param == "m" then Some(p.m)
    else if param == "a" then Some(p.a)
    else if param == "s" then Some(p.s)
    else None
  }

  /** Whether a rule's strict comparison holds for the part; None where `process_part` reaches
      `unreachable!` (an unknown rating, then an operator other than '<' and '>'). */
  function Holds(p: Part, r: Rule): Option<bool>
  {
    match Rating(p, r.param)
    case None => None
    case Some(v) =>
      if r.op == '>' then Some(v > r.value)
      else if r.op == '<' then Some(v < r.value)
      else None
  }

  /** The workflow a part is sent to next: the target of the first rule that holds, else the
      default; None on a panic. */
  function NextFlow(p: Part, rules: seq<Rule>, last: seq<char>): Option<seq<char>>
  {
    if rules == [] then Some(last)
    else
      match Holds(p, rules[0])
      case None => None
      case Some(b) => if b then Some(rules[0].target) else NextFlow(p, rules[1..], last)
  }

  /** Once the first k rules fail, the k-th decides: its target when it holds, a panic when it
      cannot be evaluated, the default when there is none. */
  lemma {:induction false} FirstMatch(p: Part, rules: seq<Rule>, last: seq<char>, k: nat)
    requires k <= |rules| && forall i | 0 <= i < k :: Holds(p, rules[i]) == Some(false)
    ensures k == |rules| ==> NextFlow(p, rules, last) == Some(last)
    ensures k < |rules| && Holds(p, rules[k]) == Some(true) ==> NextFlow(p, rules, last) == Some(rules[k].target)
    ensures k < |rules| && Holds(p, rules[k]).None? ==> NextFlow(p, rules, last).None?
  {
    if k > 0 {
      assert Holds(p, rules[0]) == Some(false);
      FirstMatch(p, rules[1..], last, k - 1);
    }
  }

  /** Rule k decides: the rules before it fail, and it does not fail or is past the end. */
  predicate DecidesAt(p: Part, rules: seq<Rule>, k: nat)
  {
    k <= |rules| &&
    (forall i | 0 <= i < k :: Holds(p, rules[i]) == Some(false)) &&
    (k == |rules| || Holds(p, rules[k]) != Some(false))
  }

  /** Every rule list has such a deciding position. */
  lemma {:induction false} DecidingRule(p: Part, rules: seq<Rule>)
    ensures exists k: nat :: DecidesAt(p, rules, k)
  {
    if rules != [] && Holds(p, rules[0]) == Some(false) {
      DecidingRule(p, rules[1..]);
      var k: nat :| DecidesAt(p, rules[1..], k);
      forall i | 0 <= i < k + 1
        ensures Holds(p, rules[i]) == Some(false)
      {
        if i > 0 {
          assert rules[i] == rules[1..][i - 1];
        }
      }
      assert k + 1 == |rules| || rules[k + 1] == rules[1..][k];
      assert DecidesAt(p, rules, k + 1);
    } else {
      assert DecidesAt(p, rules, 0);
    }
  }

  /** `process_part`: the rules in turn, returning at the first that holds. */
  method ProcessPart(p: Part, rules: seq<Rule>, last: seq<char>) returns (r: Option<seq<char>>)
    ensures r == NextFlow(p, rules, last)
  {
    for i := 0 to |rules|
      invariant NextFlow(p, rules[i..], last) == NextFlow(p, rules, last)
    {
      var rule := rules[i];
      assert rules[i..][1..] == rules[i + 1..];
      var v: nat;
      if rule.param == "x" {
        v := p.x;
      } else if rule.param == "m" {
        v := p.m;
      } else if rule.param == "a" {
        v := p.a;
      } else if rule.param == "s" {
        v := p.s;
      } else {
        return None;
      }
      var res: bool;
      if rule.op == '>' {
        res := v > rule.value;
      } else if rule.op == '<' {
        res := v < rule.value;
      } else {
        return None;
      }
      if res {
        return Some(rule.target);
      }
    }
    return Some(last);
  }

  // ---------------------------------------------------------------------------------------
  // Routing a part.

  /** Where a part sorted by its workflow is sent next; None where the lookup fails
      (`map.get(..).unwrap()`) or the workflow panics. */
  function Next(m: map<seq<char>, Flow>, p: Part, w: seq<char>): Option<seq<char>>
  {
    if w in m then NextFlow(p, m[w].0, m[w].1) else None
  }

  datatype Outcome = Accepted | Rejected | Panicked | OutOfFuel

  /** The fate of a part that is at workflow w, within `fuel` workflows. The source loops
      without bound; a cycle of workflows runs out of fuel here. */
  function Verdict(m: map<seq<char>, Flow>, p: Part, w: seq<char>, fuel: nat): Outcome
    decreases fuel
  {
    if fuel == 0 then OutOfFuel
    else
      match Next(m, p, w)
      case None => Panicked
      case Some(n) =>
        if n == "R" then Rejected
        else if n == "A" then Accepted
        else Verdict(m, p, n, fuel - 1)
  }

  /** The outcome a final step gives: a panic, or a move to "A" or "R". */
  function Final(e: Option<seq<char>>): Outcome
  {
    if e == Some("A") then Accepted else if e == Some("R") then Rejected else Panicked
  }

  predicate IsFinal(e: Option<seq<char>>)
  {
    e.None? || e == Some("A") || e == Some("R")
  }

  /** Workflow a sends the part on to b, which is neither "A" nor "R". */
  predicate Link(m: map<seq<char>, Flow>, p: Part, a: seq<char>, b: seq<char>)
  {
    Next(m, p, a) == Some(b) && b != "A" && b != "R"
  }

  /** The workflows `ws` a part visits in turn, none of them after the first "A" or "R", with
      `e` what the last of them does with it. */
  ghost predicate Path(m: map<seq<char>, Flow>, p: Part, ws: seq<seq<char>>, e: Option<seq<char>>)
  {
    ws != [] &&
    (forall i | 0 <= i < |ws| - 1 :: Link(m, p, ws[i], ws[i + 1])) &&
    Next(m, p, ws[|ws| - 1]) == e
  }

  lemma PathTail(m: map<seq<char>, Flow>, p: Part, ws: seq<seq<char>>, e: Option<seq<char>>)
    requires |ws| > 1 && Path(m, p, ws, e)
    ensures Path(m, p, ws[1..], e) && Link(m, p, ws[0], ws[1])
  {
    assert Link(m, p, ws[0], ws[1]);
    forall i | 0 <= i < |ws[1..]| - 1
      ensures Link(m, p, ws[1..][i], ws[1..][i + 1])
    {
      assert ws[1..][i] == ws[i + 1] && ws[1..][i + 1] == ws[i + 2];
      assert Link(m, p, ws[i + 1], ws[i + 2]);
    }
  }

  lemma PathCons(m: map<seq<char>, Flow>, p: Part, w: seq<char>, ws: seq<seq<char>>, e: Option<seq<char>>)
    requires Path(m, p, ws, e) && Link(m, p, w, ws[0])
    ensures Path(m, p, [w] + ws, e)
  {
    var vs := [w] + ws;
    forall i | 0 <= i < |vs| - 1
      ensures Link(m, p, vs[i], vs[i + 1])
    {
      if i > 0 {
        assert vs[i] == ws[i - 1] && vs[i + 1] == ws[i];
        assert Link(m, p, ws[i - 1], ws[i]);
      }
    }
    assert vs[|vs| - 1] == ws[|ws| - 1];
  }

  lemma {:induction false} VerdictHasPath(m: map<seq<char>, Flow>, p: Part, w: seq<char>, fuel: nat, e: Option<seq<char>>)
    requires IsFinal(e) && Verdict(m, p, w, fuel) == Final(e)
    ensures exists ws :: |ws| <= fuel && Path(m, p, ws, e) && ws[0] == w
    decreases fuel
  {
    var n := Next(m, p, w);
    if n == e {
      assert Path(m, p, [w], e);
    } else {
      assert n.Some? && Link(m, p, w, n.value);
      VerdictHasPath(m, p, n.value, fuel - 1, e);
      var ws :| |ws| <= fuel - 1 && Path(m, p, ws, e) && ws[0] == n.value;
      PathCons(m, p, w, ws, e);
      assert ([w] + ws)[0] == w;
    }
  }

  lemma {:induction false} PathHasVerdict(m: map<seq<char>, Flow>, p: Part, ws: seq<seq<char>>, fuel: nat, e: Option<seq<char>>)
    requires IsFinal(e) && Path(m, p, ws, e) && |ws| <= fuel
    ensures Verdict(m, p, ws[0], fuel) == Final(e)
    decreases fuel
  {
    if |ws| == 1 {
      assert Next(m, p, ws[0]) == e;
    } else {
      PathTail(m, p, ws, e);
      PathHasVerdict(m, p, ws[1..], fuel - 1, e);
    }
  }

  /** A part ends Accepted, Rejected or Panicked within `fuel` workflows exactly when a path of
      at most `fuel` workflows from w ends that way. */
  lemma VerdictPath(m: map<seq<char>, Flow>, p: Part, w: seq<char>, fuel: nat, e: Option<seq<char>>)
    requires IsFinal(e)
    ensures Verdict(m, p, w, fuel) == Final(e) <==>
      exists ws :: |ws| <= fuel && Path(m, p, ws, e) && ws[0] == w
  {
    if Verdict(m, p, w, fuel) == Final(e) {
      VerdictHasPath(m, p, w, fuel, e);
    }
    if exists ws :: |ws| <= fuel && Path(m, p, ws, e) && ws[0] == w {
      var ws :| |ws| <= fuel && Path(m, p, ws, e) && ws[0] == w;
      PathHasVerdict(m, p, ws, fuel, e);
    }
  }

  /** More fuel changes nothing once a part is decided. */
  lemma {:induction false} VerdictMoreFuel(m: map<seq<char>, Flow>, p: Part, w: seq<char>, fuel: nat, more: nat)
    requires fuel <= more && Verdict(m, p, w, fuel) != OutOfFuel
    ensures Verdict(m, p, w, more) == Verdict(m, p, w, fuel)
    decreases fuel
  {
    var n := Next(m, p, w);
    if n.Some? && n.value != "R" && n.value != "A" {
      VerdictMoreFuel(m, p, n.value, fuel - 1, more - 1);
    }
  }

  /** The inner loop of `proc_1`: from "in", one workflow after another until "R" or "A". */
  method Route(m: map<seq<char>, Flow>, p: Part, fuel: nat) returns (o: Outcome)
    ensures o == Verdict(m, p, "in", fuel)
  {
    var w := "in";
    var f := fuel;
    while true
      invariant Verdict(m, p, w, f) == Verdict(m, p, "in", fuel)
      decreases f
    {
      if f == 0 {
        return OutOfFuel;
      }
      if w !in m {
        return Panicked;
      }
      var next := ProcessPart(p, m[w].0, m[w].1);
      if next.None? {
        return Panicked;
      }
      f := f - 1;
      w := next.value;
      if w == "R" {
        return Rejected;
      }
      if w == "A" {
        return Accepted;
      }
    }
  }

  // ---------------------------------------------------------------------------------------
  // Adding up.

  /** The answer, or why there is none. */
  datatype Result = Rated(total: nat) | Panic | Unfinished

  function Score(p: Part): nat
  {
    p.x + p.m + p.a + p.s
  }

  /** The outer loop of `proc_1`: parts in order, stopping at the first that panics or runs out
      of fuel. */
  function Rate(m: map<seq<char>, Flow>, parts: seq<Part>, fuel: nat): Result
  {
    if parts == [] then Rated(0)
    else
      var before := Rate(m, parts[..|parts| - 1], fuel);
      if !before.Rated? then before
      else
        var p := parts[|parts| - 1];
        match Verdict(m, p, "in", fuel)
        case Accepted => Rated(before.total + Score(p))
        case Rejected => before
        case Panicked => Panic
        case OutOfFuel => Unfinished
  }

  predicate Decided(o: Outcome)
  {
    o == Accepted || o == Rejected
  }

  /** The parts that end Accepted, in order. */
  function AcceptedParts(m: map<seq<char>, Flow>, parts: seq<Part>, fuel: nat): (r: seq<Part>)
    ensures forall i | 0 <= i < |r| :: Verdict(m, r[i], "in", fuel) == Accepted
    ensures |r| <= |parts|
  {
    if parts == [] then []
    else if Verdict(m, parts[0], "in", fuel) == Accepted then [parts[0]] + AcceptedParts(m, parts[1..], fuel)
    else AcceptedParts(m, parts[1..], fuel)
  }

  function Scores(ps: seq<Part>): nat
  {
    if ps == [] then 0 else Score(ps[0]) + Scores(ps[1..])
  }

  lemma {:induction false} ScoresAppend(a: seq<Part>, b: seq<Part>)
    ensures Scores(a + b) == Scores(a) + Scores(b)
  {
    if a != [] {
      assert (a + b)[1..] == a[1..] + b;
      ScoresAppend(a[1..], b);
    } else {
      assert a + b == b;
    }
  }

  /** Filtering a sequence with one more part at its end. */
  lemma {:induction false} AcceptedSnoc(m: map<seq<char>, Flow>, parts: seq<Part>, fuel: nat)
    requires parts != []
    ensures var last := parts[|parts| - 1];
      AcceptedParts(m, parts, fuel) ==
        AcceptedParts(m, parts[..|parts| - 1], fuel) + (if Verdict(m, last, "in", fuel) == Accepted then [last] else [])
  {
    if |parts| > 1 {
      AcceptedSnoc(m, parts[1..], fuel);
      assert parts[1..][..|parts[1..]| - 1] == parts[..|parts| - 1][1..];
    }
  }

  /** The loop yields a total exactly when every part ends Accepted or Rejected, and the total
      is the sum of the ratings of the accepted parts. */
  lemma {:induction false} RateMeaning(m: map<seq<char>, Flow>, parts: seq<Part>, fuel: nat)
    ensures Rate(m, parts, fuel).Rated? <==> forall i | 0 <= i < |parts| :: Decided(Verdict(m, parts[i], "in", fuel))
    ensures Rate(m, parts, fuel).Rated? ==> Rate(m, parts, fuel).total == Scores(AcceptedParts(m, parts, fuel))
  {
    if parts != [] {
      var init := parts[..|parts| - 1];
      var last := parts[|parts| - 1];
      RateMeaning(m, init, fuel);
      assert forall i | 0 <= i < |init| :: init[i] == parts[i];
      AcceptedSnoc(m, parts, fuel);
      var tail := if Verdict(m, last, "in", fuel) == Accepted then [last] else [];
      ScoresAppend(AcceptedParts(m, init, fuel), tail);
      assert Scores([last]) == Score(last);
    }
  }

  /** Once a prefix has stopped the loop, nothing after it counts. */
  lemma {:induction false} RateKeeps(m: map<seq<char>, Flow>, parts: seq<Part>, fuel: nat, k: nat)
    requires k <= |parts| && !Rate(m, parts[..k], fuel).Rated?
    ensures Rate(m, parts, fuel) == Rate(m, parts[..k], fuel)
  {
    if k < |parts| {
      var init := parts[..|parts| - 1];
      assert init[..k] == parts[..k];
      RateKeeps(m, init, fuel, k);
    } else {
      assert parts[..k] == parts;
    }
  }

  /** The first part that is not decided decides the loop: a panic, or running out of fuel. */
  lemma FirstUndecided(m: map<seq<char>, Flow>, parts: seq<Part>, fuel: nat, k: nat)
    requires k < |parts| && forall i | 0 <= i < k :: Decided(Verdict(m, parts[i], "in", fuel))
    requires !Decided(Verdict(m, parts[k], "in", fuel))
    ensures Rate(m, parts, fuel) == if Verdict(m, parts[k], "in", fuel) == Panicked then Panic else Unfinished
  {
    var pre := parts[..k + 1];
    assert pre[..k] == parts[..k];
    RateMeaning(m, parts[..k], fuel);
    assert pre[k] == parts[k];
    RateKeeps(m, parts, fuel, k + 1);
  }

  /** The loop over the parts in `proc_1`, with `ret` the running total. */
  method SortParts(m: map<seq<char>, Flow>, parts: seq<Part>, fuel: nat) returns (r: Result)
    ensures r == Rate(m, parts, fuel)
  {
    var ret: nat := 0;
    for i := 0 to |parts|
      invariant Rate(m, parts[..i], fuel) == Rated(ret)
    {
      assert parts[..i + 1][..i] == parts[..i];
      var part := parts[i];
      var o := Route(m, part, fuel);
      if o == Panicked {
        RateKeeps(m, parts, fuel, i + 1);
        return Panic;
      }
      if o == OutOfFuel {
        RateKeeps(m, parts, fuel, i + 1);
        return Unfinished;
      }
      if o == Accepted {
        ret := ret + part.x + part.m + part.a + part.s;
      }
    }
    assert parts[..|parts|] == parts;
    return Rated(ret);
  }

  // ---------------------------------------------------------------------------------------
  // The puzzle.

  /** `proc_1`: parse (a failed parse panics at `unwrap`), build the map, sort the parts. */
  function Solve(input: seq<char>, fuel: nat): Result
  {
    match Parse(input)
    case None => Panic
    case Some(((ws, parts), _)) => Rate(MapOf(ws), parts, fuel)
  }

  /** The part of `proc_1` after parsing. */
  method Sort(ws: seq<Workflow>, parts: seq<Part>, fuel: nat) returns (r: Result)
    ensures r == Rate(MapOf(ws), parts, fuel)
  {
    var m := BuildMap(ws);
    r := SortParts(m, parts, fuel);
  }

  method Proc1(input: seq<char>, fuel: nat) returns (r: Result)
    ensures r == Solve(input, fuel)
  {
    var parsed := Parse(input);
    if parsed.None? {
      return Panic;
    }
    r := Sort(parsed.value.0.0, parsed.value.0.1, fuel);
  }
}
