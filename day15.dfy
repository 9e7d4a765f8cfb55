/** Day 15: the initialisation sequence is a comma-separated list of steps on one line; each
    step is hashed by the holiday ASCII string helper, and the answer is the sum of the hashes. */
module Day15 {
  import opened Common

  // ---------------------------------------------------------------------------------------
  // The hash.

  /** For every character: add its code, multiply by 17, keep the remainder modulo 256. */
  function HashOf(s: seq<char>): (h: nat)
    ensures h < 256
  {
    if s == [] then 0 else ((HashOf(s[..|s| - 1]) + s[|s| - 1] as int) * 17) % 256
  }

  /** `hash`: the loop over the characters, in `u32` arithmetic. */
  method Hash(data: seq<char>) returns (ret: nat)
    ensures ret == HashOf(data)
  {
    ret := 0;
    for i := 0 to |data|
      invariant ret == HashOf(data[..i])
    {
      assert data[..i + 1][..i] == data[..i];
      assert (ret + data[i] as int) * 17 < 0x1_0000_0000 by {
        NoWrap(ret, data[i]);
      }
      ret := ret + data[i] as int;
      ret := ret * 17;
      ret := ret % 256;
    }
    assert data[..|data|] == data;
  }

  /** The running value stays far below 2^32, so the `u32` steps never wrap. */
  lemma NoWrap(h: nat, c: char)
    requires h < 256
    ensures (h + c as int) * 17 < 0x1_0000_0000
  {
    assert c as int < 0x11_0000;
  }

  lemma HashEmpty()
    ensures HashOf([]) == 0
  {
  }

  lemma HashOfHASH(s: seq<char>)
    requires s == "HASH"
    ensures HashOf(s) == 52
  {
    assert s[..3] == "HAS" && s[..3][..2] == "HA" && s[..3][..2][..1] == "H";
    assert HashOf("H") == 200;
    assert HashOf("HA") == 153;
    assert HashOf("HAS") == 172;
  }

  function Pow17(n: nat): (p: nat)
    ensures p >= 1
  {
    if n == 0 then 1 else 17 * Pow17(n - 1)
  }

  /** The codes weighted by powers of 17: the first character by 17^|s|, the last by 17. */
  function Weights(s: seq<char>): nat
  {
    if s == [] then 0 else s[0] as int * Pow17(|s|) + Weights(s[1..])
  }

  lemma {:induction false} WeightsSnoc(s: seq<char>, c: char)
    ensures Weights(s + [c]) == (Weights(s) + c as int) * 17
  {
    if s == [] {
      assert [c][1..] == [];
    } else {
      var t := s[1..];
      assert (s + [c])[1..] == t + [c];
      WeightsSnoc(t, c);
      var x := s[0] as int;
      var p := Pow17(|s|);
      assert Pow17(|s + [c]|) == 17 * p;
      calc {
        Weights(s + [c]);
        x * (17 * p) + Weights(t + [c]);
        x * (17 * p) + (Weights(t) + c as int) * 17;
        { assert x * (17 * p) == (x * p) * 17; }
        (x * p + Weights(t) + c as int) * 17;
      }
    }
  }

  lemma ModStep(a: nat, c: nat)
    ensures ((a % 256 + c) * 17) % 256 == ((a + c) * 17) % 256
  {
    var q := a / 256;
    assert a == 256 * q + a % 256;
    assert (a + c) * 17 == 256 * (17 * q) + (a % 256 + c) * 17;
  }

  /** The hash is the weighted sum of the codes modulo 256. */
  lemma {:induction false} HashIsWeights(s: seq<char>)
    ensures HashOf(s) == Weights(s) % 256
  {
    if s != [] {
      var front := s[..|s| - 1];
      var c := s[|s| - 1];
      HashIsWeights(front);
      assert s == front + [c];
      WeightsSnoc(front, c);
      ModStep(Weights(front), c as int);
    }
  }

  /** Hashing continues from where a prefix left off. */
  lemma {:induction false} HashAppend(a: seq<char>, b: seq<char>)
    ensures HashOf(a + b) == HashFrom(HashOf(a), b)
    decreases |b|
  {
    if b == [] {
      assert a + b == a;
    } else {
      var front := b[..|b| - 1];
      HashAppend(a, front);
      assert (a + b)[..|a + b| - 1] == a + front;
      assert (a + b)[|a + b| - 1] == b[|b| - 1];
    }
  }

  /** The hash of `b` started from `h` instead of 0. */
  function HashFrom(h: nat, b: seq<char>): nat
  {
    if b == [] then h else ((HashFrom(h, b[..|b| - 1]) + b[|b| - 1] as int) * 17) % 256
  }

  // ---------------------------------------------------------------------------------------
  // Parsing: `separated_list1(tag(","), many1(none_of(",\n")))`, then a newline.

  predicate IsStepChar(c: char) { c != ',' && c != '\n' }

  predicate IsStep(b: seq<char>)
  {
    b != [] && forall i | 0 <= i < |b| :: IsStepChar(b[i])
  }

  predicate AllSteps(bs: seq<seq<char>>)
  {
    forall k | 0 <= k < |bs| :: IsStep(bs[k])
  }

  /** `parse_block`: one or more characters other than ',' and newline. */
  function ParseBlock(s: seq<char>): (r: Option<(seq<char>, seq<char>)>)
    ensures r.Some? ==> IsStep(r.value.0) && r.value.0 + r.value.1 == s
    ensures r.None? <==> s == [] || !IsStepChar(s[0])
  {
    var k := Span(s, IsStepChar);
    if k == 0 then None else Some((s[..k], s[k..]))
  }

  lemma ConsStep(b: seq<char>, bs: seq<seq<char>>)
    requires IsStep(b) && AllSteps(bs)
    ensures AllSteps([b] + bs)
  {
    assert forall k | 1 <= k <= |bs| :: ([b] + bs)[k] == bs[k - 1];
  }

  /** After the first step: a ',' and another step, as long as both are there. When the
      ',' is not followed by a step, the list ends before the ','. */
  function MoreBlocks(s: seq<char>): (r: (seq<seq<char>>, seq<char>))
    ensures AllSteps(r.0) && |r.1| <= |s|
    decreases |s|
  {
    if s != [] && s[0] == ',' then
      match ParseBlock(s[1..])
      case None => ([], s)
      case Some((b, rest)) =>
        var tail := MoreBlocks(rest);
        ConsStep(b, tail.0);
        ([b] + tail.0, tail.1)
    else ([], s)
  }

  function ParseList(s: seq<char>): (r: Option<(seq<seq<char>>, seq<char>)>)
    ensures r.Some? ==> r.value.0 != [] && AllSteps(r.value.0)
  {
    match ParseBlock(s)
    case None => None
    case Some((b, rest)) =>
      var tail := MoreBlocks(rest);
      ConsStep(b, tail.0);
      Some(([b] + tail.0, tail.1))
  }

  /** `parse`: the list, then a newline. */
  function Parse(s: seq<char>): (r: Option<(seq<seq<char>>, seq<char>)>)
    ensures r.Some? ==> r.value.0 != [] && AllSteps(r.value.0)
  {
    match ParseList(s)
    case None => None
    case Some((bs, rest)) =>
      match Newline(rest)
      case None => None
      case Some(after) => Some((bs, after))
  }

  function ShowTail(bs: seq<seq<char>>): seq<char>
  {
    if bs == [] then [] else "," + bs[0] + ShowTail(bs[1..])
  }

  /** The steps joined by commas. */
  function ShowList(bs: seq<seq<char>>): seq<char>
    requires bs != []
  {
    bs[0] + ShowTail(bs[1..])
  }

  lemma ParseBlockOfShow(b: seq<char>, rest: seq<char>)
    requires IsStep(b) && (rest == [] || !IsStepChar(rest[0]))
    ensures ParseBlock(b + rest) == Some((b, rest))
  {
    SpanOfConcat(b, rest, IsStepChar);
    assert (b + rest)[..|b|] == b && (b + rest)[|b|..] == rest;
  }

  lemma ShowTailSplit(bs: seq<seq<char>>, rest: seq<char>)
    requires bs != []
    ensures ShowTail(bs) + rest == [','] + (bs[0] + (ShowTail(bs[1..]) + rest))
  {
    var t := ShowTail(bs[1..]);
    assert ShowTail(bs) == [','] + bs[0] + t;
    AppendAssoc([','] + bs[0], t, rest);
    AppendAssoc([','], bs[0], t + rest);
  }

  /** What may follow the last step: nothing, or a ',' or newline that does not start
      another `,step`. */
  predicate EndsList(rest: seq<char>)
  {
    (rest == [] || !IsStepChar(rest[0])) && MoreBlocks(rest) == ([], rest)
  }

  lemma NewlineEnds(after: seq<char>)
    ensures EndsList("\n" + after)
  {
  }

  lemma CommaNewlineEnds(after: seq<char>)
    ensures EndsList(",\n" + after)
  {
    assert (",\n" + after)[1..] == "\n" + after;
  }

  lemma MoreBlocksStep(s: seq<char>, b: seq<char>, rest: seq<char>, bs: seq<seq<char>>, r: seq<char>)
    requires s == [','] + (b + rest) && IsStep(b) && (rest == [] || !IsStepChar(rest[0]))
    requires MoreBlocks(rest) == (bs, r)
    ensures MoreBlocks(s) == ([b] + bs, r)
  {
    assert s[1..] == b + rest;
    ParseBlockOfShow(b, rest);
  }

  lemma StepsTail(bs: seq<seq<char>>)
    requires bs != [] && AllSteps(bs)
    ensures IsStep(bs[0]) && AllSteps(bs[1..]) && bs == [bs[0]] + bs[1..]
  {
    assert forall k | 0 <= k < |bs| - 1 :: bs[1..][k] == bs[k + 1];
  }

  lemma TailStart(bs: seq<seq<char>>, rest: seq<char>)
    requires EndsList(rest)
    ensures ShowTail(bs) + rest == [] || !IsStepChar((ShowTail(bs) + rest)[0])
  {
    if bs != [] {
      ShowTailSplit(bs, rest);
    } else {
      assert ShowTail(bs) + rest == rest;
    }
  }

  lemma {:induction false} MoreBlocksOfShow(bs: seq<seq<char>>, rest: seq<char>)
    requires AllSteps(bs) && EndsList(rest)
    ensures MoreBlocks(ShowTail(bs) + rest) == (bs, rest)
  {
    if bs == [] {
      assert ShowTail(bs) + rest == rest;
    } else {
      var tail := bs[1..];
      StepsTail(bs);
      var after := ShowTail(tail) + rest;
      MoreBlocksOfShow(tail, rest);
      TailStart(tail, rest);
      ShowTailSplit(bs, rest);
      MoreBlocksStep(ShowTail(bs) + rest, bs[0], after, tail, rest);
    }
  }

  lemma {:induction false} ParseListOfShow(bs: seq<seq<char>>, rest: seq<char>)
    requires bs != [] && AllSteps(bs) && EndsList(rest)
    ensures ParseList(ShowList(bs) + rest) == Some((bs, rest))
  {
    var tail := bs[1..];
    StepsTail(bs);
    assert ShowList(bs) + rest == bs[0] + (ShowTail(tail) + rest);
    TailStart(tail, rest);
    ParseBlockOfShow(bs[0], ShowTail(tail) + rest);
    MoreBlocksOfShow(tail, rest);
    assert bs == [bs[0]] + tail;
  }

  /** A comma-joined list of steps and a newline read back as those steps. */
  lemma ParseOfShow(bs: seq<seq<char>>, after: seq<char>)
    requires bs != [] && AllSteps(bs)
    ensures Parse(ShowList(bs) + ("\n" + after)) == Some((bs, after))
  {
    NewlineEnds(after);
    ParseListOfShow(bs, "\n" + after);
  }

  /** A comma right before the newline leaves the list before the comma, and the missing
      newline makes the parse fail. */
  lemma TrailingComma(bs: seq<seq<char>>, after: seq<char>)
    requires bs != [] && AllSteps(bs)
    ensures ParseList(ShowList(bs) + (",\n" + after)) == Some((bs, ",\n" + after))
    ensures Parse(ShowList(bs) + (",\n" + after)) == None
  {
    CommaNewlineEnds(after);
    ParseListOfShow(bs, ",\n" + after);
  }

  // ---------------------------------------------------------------------------------------
  // `proc`.

  function SumHashes(bs: seq<seq<char>>): nat
  {
    if bs == [] then 0 else SumHashes(bs[..|bs| - 1]) + HashOf(bs[|bs| - 1])
  }

  /** `proc`: the sum of the hashes of the parsed steps; nothing when parsing fails. */
  function Proc(input: seq<char>): (r: Option<nat>)
    ensures r.Some? <==> Parse(input).Some?
    ensures r.Some? ==> r.value <= 255 * |Parse(input).value.0|
  {
    match Parse(input)
    case None => None
    case Some((bs, _)) =>
      SumHashesBound(bs);
      Some(SumHashes(bs))
  }

  lemma {:induction false} SumHashesBound(bs: seq<seq<char>>)
    ensures SumHashes(bs) <= 255 * |bs|
  {
    if bs != [] {
      SumHashesBound(bs[..|bs| - 1]);
    }
  }

  /** Each step adds less than 256; the answer is the hash sum of the printed steps. */
  lemma ProcOfShow(bs: seq<seq<char>>, after: seq<char>)
    requires bs != [] && AllSteps(bs)
    ensures Proc(ShowList(bs) + ("\n" + after)) == Some(SumHashes(bs))
    ensures SumHashes(bs) <= 255 * |bs|
  {
    ParseOfShow(bs, after);
    SumHashesBound(bs);
  }
}
