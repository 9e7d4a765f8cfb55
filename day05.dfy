/** Day 5: seeds pass through a list of conversion tables. Part one maps
    single values; part two maps inclusive ranges of values by splitting
    each range against the table entries. */
module Day05 {
  import opened Common

  /** A table line "dst src len": the values src .. src+len-1 become dst .. dst+len-1. */
  datatype Entry = Entry(dst: nat, src: nat, len: nat)

  /** An inclusive range of values, first and last. */
  type Range = (nat, nat)

  /** `convert_item`: the value moved by the entry, or None when the entry does not cover it. */
  function ConvertItem(item: nat, t: Entry): (r: Option<nat>)
    ensures r.Some? <==> t.src <= item < t.src + t.len
    ensures r.Some? ==> r.value - t.dst == item - t.src
  {
    if item >= t.src then
      var offset := item - t.src;
      if offset < t.len then Some(t.dst + offset) else None
    else None
  }

  /** The value after one table: moved by the first entry that covers it, unchanged when none does. */
  function MatchItem(item: nat, table: seq<Entry>): nat
  {
    if table == [] then item
    else match ConvertItem(item, table[0])
      case Some(v) => v
      case None => MatchItem(item, table[1..])
  }

  /** MatchItem is the value of the first covering entry, or the value itself. */
  lemma {:induction false} MatchItemFirst(item: nat, table: seq<Entry>, k: nat)
    requires k <= |table|
    requires forall j | 0 <= j < k :: ConvertItem(item, table[j]).None?
    ensures k == |table| ==> MatchItem(item, table) == item
    ensures k < |table| && ConvertItem(item, table[k]).Some? ==> MatchItem(item, table) == ConvertItem(item, table[k]).value
  {
    if k > 0 {
      MatchItemFirst(item, table[1..], k - 1);
    }
  }

  /** `match_items`: rewrites every value in place through the first entry that covers it. */
  method MatchItems(items: seq<nat>, table: seq<Entry>) returns (ret: seq<nat>)
    ensures |ret| == |items| && forall i | 0 <= i < |items| :: ret[i] == MatchItem(items[i], table)
  {
    ret := items;
    for i := 0 to |ret|
      invariant |ret| == |items|
      invariant forall k | 0 <= k < i :: ret[k] == MatchItem(items[k], table)
      invariant forall k | i <= k < |ret| :: ret[k] == items[k]
    {
      var j := 0;
      while j < |table|
        invariant j <= |table|
        invariant ret[i] == items[i]
        invariant MatchItem(items[i], table) == MatchItem(items[i], table[j..])
      {
        var res := ConvertItem(ret[i], table[j]);
        if res.Some? {
          ret := ret[i := res.value];
          break;
        }
        assert table[j..][1..] == table[j + 1..];
        j := j + 1;
      }
    }
  }

  /** A value after the given tables, applied in order. */
  function Through(item: nat, blocks: seq<seq<Entry>>): nat
  {
    if blocks == [] then item else MatchItem(Through(item, blocks[..|blocks| - 1]), blocks[|blocks| - 1])
  }

  /** `convert_seeds`: every seed through every table, in order. */
  method ConvertSeeds(seeds: seq<nat>, blocks: seq<seq<Entry>>) returns (items: seq<nat>)
    ensures |items| == |seeds| && forall i | 0 <= i < |seeds| :: items[i] == Through(seeds[i], blocks)
  {
    items := seeds;
    for b := 0 to |blocks|
      invariant |items| == |seeds| && forall i | 0 <= i < |seeds| :: items[i] == Through(seeds[i], blocks[..b])
    {
      assert blocks[..b + 1][..b] == blocks[..b];
      items := MatchItems(items, blocks[b]);
    }
    assert blocks[..|blocks|] == blocks;
  }

  /** `iter().min()`: None for an empty list. */
  function MinOf(xs: seq<nat>): (m: Option<nat>)
    ensures m.None? <==> xs == []
    ensures m.Some? ==> m.value in xs && forall i | 0 <= i < |xs| :: m.value <= xs[i]
  {
    if xs == [] then None
    else
      var rest := MinOf(xs[1..]);
      if rest.None? || xs[0] <= rest.value then Some(xs[0]) else rest
  }

  // Part two: ranges.

  predicate In(x: nat, r: Range)
  {
    r.0 <= x <= r.1
  }

  predicate NonEmpty(r: Range)
  {
    r.0 <= r.1
  }

  predicate InPart(x: nat, p: Option<Range>)
  {
    p.Some? && In(x, p.value)
  }

  /** `split_range` computes `len - 1` in u32 arithmetic, so every entry must cover at least one value. */
  predicate ValidTable(table: seq<Entry>)
  {
    forall k | 0 <= k < |table| :: table[k].len >= 1
  }

  function SrcLast(t: Entry): nat
    requires t.len >= 1
  {
    t.src + (t.len - 1)
  }

  /** `split_range`: the part of the range below the entry's source values, the part inside them, and the part above. */
  function SplitRange(r: Range, t: Entry): (parts: (Option<Range>, Option<Range>, Option<Range>))
    requires t.len >= 1
    ensures parts.1.None? ==> parts.0.None? && parts.2.None?
    ensures parts.1.Some? ==> t.src <= parts.1.value.0 && t.src <= parts.1.value.1
  {
    var srcFirst, srcLast := t.src, SrcLast(t);
    if r.0 <= srcLast && r.1 >= srcFirst then
      var left := if r.0 < srcFirst then Some((r.0, srcFirst - 1)) else None;
      var right := if r.1 > srcLast then Some((srcLast + 1, r.1)) else None;
      (left, Some((Max(r.0, srcFirst), Min(r.1, srcLast))), right)
    else (None, None, None)
  }

  /** For a non-empty range there is a centre exactly when some value of the range is covered by the entry. The centre
      holds exactly the covered values; the parts are non-empty, lie below, inside and above the entry's source
      values, follow one another without a gap, and together hold exactly the values of the range. */
  lemma SplitRangePartition(r: Range, t: Entry)
    requires t.len >= 1 && NonEmpty(r)
    ensures var (left, center, right) := SplitRange(r, t);
      && (center.None? <==> forall x | In(x, r) :: ConvertItem(x, t).None?)
      && (forall x: nat :: InPart(x, center) <==> In(x, r) && ConvertItem(x, t).Some?)
      && (center.Some? ==> forall x: nat :: In(x, r) <==> InPart(x, left) || InPart(x, center) || InPart(x, right))
      && (forall x: nat :: InPart(x, left) ==> x < t.src)
      && (forall x: nat :: InPart(x, right) ==> x > SrcLast(t))
      && (left.Some? ==> NonEmpty(left.value) && left.value.1 + 1 == center.value.0)
      && (right.Some? ==> NonEmpty(right.value) && center.value.1 + 1 == right.value.0)
      && (center.Some? ==> NonEmpty(center.value))
  {
    var (left, center, right) := SplitRange(r, t);
    if center.None? {
      forall x | In(x, r)
        ensures ConvertItem(x, t).None?
      {
      }
    } else {
      var m := Max(r.0, t.src);
      assert In(m, r) && ConvertItem(m, t).Some?;
    }
  }

  /** The cases of the tests, among them the eight layouts of a range against the entry (0, 15, 10). */
  lemma SplitRangeExamples()
    ensures SplitRange((79, 92), Entry(50, 98, 2)) == (None, None, None)
    ensures SplitRange((79, 92), Entry(52, 50, 48)) == (None, Some((79, 92)), None)
    ensures SplitRange((10, 20), Entry(0, 15, 10)) == (Some((10, 14)), Some((15, 20)), None)
    ensures SplitRange((10, 25), Entry(0, 15, 10)) == (Some((10, 14)), Some((15, 24)), Some((25, 25)))
    ensures SplitRange((10, 24), Entry(0, 15, 10)) == (Some((10, 14)), Some((15, 24)), None)
    ensures SplitRange((15, 24), Entry(0, 15, 10)) == (None, Some((15, 24)), None)
    ensures SplitRange((15, 24), Entry(0, 15, 20)) == (None, Some((15, 24)), None)
    ensures SplitRange((15, 34), Entry(0, 15, 10)) == (None, Some((15, 24)), Some((25, 34)))
    ensures SplitRange((15, 15), Entry(0, 15, 10)) == (None, Some((15, 15)), None)
    ensures SplitRange((24, 24), Entry(0, 15, 10)) == (None, Some((24, 24)), None)
    ensures SplitRange((0, 30), Entry(0, 15, 10)) == (Some((0, 14)), Some((15, 24)), Some((25, 30)))
  {
  }

  /** The examples of `convert_item` in the tests. */
  lemma ConvertItemExamples()
    ensures ConvertItem(79, Entry(50, 98, 2)) == None && ConvertItem(79, Entry(52, 50, 48)) == Some(81)
    ensures ConvertItem(69, Entry(0, 69, 2)) == Some(0) && ConvertItem(70, Entry(0, 69, 2)) == Some(1)
    ensures ConvertItem(71, Entry(0, 69, 2)) == None && ConvertItem(68, Entry(0, 69, 2)) == None
  {
  }

  /** The range an entry moves the part `c` of a range to: shifted by dst - src. */
  function Shift(c: Range, t: Entry): (moved: Range)
    requires t.src <= c.0 && t.src <= c.1
    ensures moved.1 - moved.0 == c.1 - c.0
  {
    (c.0 - t.src + t.dst, c.1 - t.src + t.dst)
  }

  function Part(p: Option<Range>): (rs: seq<Range>)
    ensures (p.None? ==> rs == []) && (p.Some? ==> rs == [p.value])
  {
    if p.Some? then [p.value] else []
  }

  /** What `convert_seed_range` emits for one range: at the first entry that meets the range, the parts
      below and above it, unchanged, and then the part inside it, moved; the range itself when no entry meets it. */
  function RangeOut(r: Range, table: seq<Entry>): (out: seq<Range>)
    requires ValidTable(table)
    ensures 1 <= |out| <= 3
  {
    if table == [] then [r]
    else
      var (left, center, right) := SplitRange(r, table[0]);
      if center.Some? then Part(left) + Part(right) + [Shift(center.value, table[0])]
      else RangeOut(r, table[1..])
  }

  /** A range that meets no entry passes through unchanged. */
  lemma {:induction false} RangeOutPassThrough(r: Range, table: seq<Entry>)
    requires ValidTable(table)
    requires forall k | 0 <= k < |table| :: SplitRange(r, table[k]).1.None?
    ensures RangeOut(r, table) == [r]
  {
    if table != [] {
      RangeOutPassThrough(r, table[1..]);
    }
  }

  /** The outputs of all ranges, in order. */
  function RangesOut(rs: seq<Range>, table: seq<Entry>): seq<Range>
    requires ValidTable(table)
  {
    if rs == [] then [] else RangesOut(rs[..|rs| - 1], table) + RangeOut(rs[|rs| - 1], table)
  }

  lemma RangeOutStep(r: Range, table: seq<Entry>, j: nat)
    requires ValidTable(table) && j < |table|
    ensures var (left, center, right) := SplitRange(r, table[j]);
      RangeOut(r, table[j..]) ==
        if center.Some? then Part(left) + Part(right) + [Shift(center.value, table[j])] else RangeOut(r, table[j + 1..])
  {
    assert table[j..][0] == table[j];
    assert table[j..][1..] == table[j + 1..];
  }

  lemma RangesOutStep(rs: seq<Range>, table: seq<Entry>, n: nat)
    requires ValidTable(table) && n < |rs|
    ensures RangesOut(rs[..n + 1], table) == RangesOut(rs[..n], table) + RangeOut(rs[n], table)
  {
    assert rs[..n + 1][..n] == rs[..n];
  }

  /** `convert_seed_range`, as written: for each range, the entries are tried in order; the left and right
      parts are pushed, and the first entry with a centre pushes the moved centre and ends the search. */
  method ConvertSeedRange(seedRange: seq<Range>, table: seq<Entry>) returns (tmp: seq<Range>)
    requires ValidTable(table)
    ensures tmp == RangesOut(seedRange, table)
  {
    tmp := [];
    for n := 0 to |seedRange|
      invariant tmp == RangesOut(seedRange[..n], table)
    {
      var r := seedRange[n];
      RangesOutStep(seedRange, table, n);
      ghost var done := tmp;
      var split := false;
      var j := 0;
      while j < |table|
        invariant j <= |table|
        invariant !split ==> tmp == done && RangeOut(r, table) == RangeOut(r, table[j..])
      {
        var t := table[j];
        var (left, center, right) := SplitRange(r, t);
        RangeOutStep(r, table, j);
        if left.Some? {
          tmp := tmp + [left.value];
        }
        if right.Some? {
          tmp := tmp + [right.value];
        }
        if center.Some? {
          var a := center.value.0 - t.src + t.dst;
          var b := center.value.1 - t.src + t.dst;
          tmp := tmp + [(a, b)];
          split := true;
          assert tmp == done + RangeOut(r, table);
          break;
        }
        j := j + 1;
      }
      if !split {
        assert table[j..] == [];
        tmp := tmp + [r];
      }
    }
    assert seedRange[..|seedRange|] == seedRange;
  }

  /** The single-value chain of the tests, one table at a time: 82 becomes 84, 84, 84, 77, 45 and 46. */
  lemma ConvertSeedRangeExamples1()
    ensures RangesOut([(82, 82)], [Entry(50, 98, 2), Entry(52, 50, 48)]) == [(84, 84)]
    ensures RangesOut([(84, 84)], [Entry(0, 15, 37), Entry(37, 52, 2), Entry(39, 0, 15)]) == [(84, 84)]
  {
  }

  lemma ConvertSeedRangeExamples2()
    ensures RangesOut([(84, 84)], [Entry(49, 53, 8), Entry(0, 11, 42), Entry(42, 0, 7), Entry(57, 7, 4)]) == [(84, 84)]
    ensures RangesOut([(84, 84)], [Entry(88, 18, 7), Entry(18, 25, 70)]) == [(77, 77)]
  {
  }

  lemma ConvertSeedRangeExamples3()
    ensures RangesOut([(77, 77)], [Entry(45, 77, 23), Entry(81, 45, 19), Entry(68, 64, 13)]) == [(45, 45)]
    ensures RangesOut([(45, 45)], [Entry(0, 69, 1), Entry(1, 0, 69)]) == [(46, 46)]
  {
  }

  /** As written, the parts of a range left over by the first entry that meets it are not offered to the
      later entries: 12 lies in (10, 20) and the table sends it to 202, but no output range holds 202. */
  lemma LeftoverNotConverted()
    ensures RangesOut([(10, 20)], [Entry(100, 15, 10), Entry(200, 10, 5)]) == [(10, 14), (100, 105)]
    ensures In(12, (10, 20)) && MatchItem(12, [Entry(100, 15, 10), Entry(200, 10, 5)]) == 202
    ensures !In(202, (10, 14)) && !In(202, (100, 105))
  {
    assert RangeOut((10, 20), [Entry(100, 15, 10), Entry(200, 10, 5)]) == [(10, 14), (100, 105)];
  }

  /** Some range of rs holds y. */
  predicate Covers(rs: seq<Range>, y: nat)
  {
    exists i | 0 <= i < |rs| :: In(y, rs[i])
  }

  lemma CoversConcat(a: seq<Range>, b: seq<Range>, y: nat)
    ensures Covers(a + b, y) <==> Covers(a, y) || Covers(b, y)
  {
    if Covers(a + b, y) {
      var i :| 0 <= i < |a + b| && In(y, (a + b)[i]);
      if i >= |a| {
        assert (a + b)[i] == b[i - |a|];
      }
    }
    if Covers(b, y) {
      var i :| 0 <= i < |b| && In(y, b[i]);
      assert (a + b)[|a| + i] == b[i];
    }
    if Covers(a, y) {
      var i :| 0 <= i < |a| && In(y, a[i]);
      assert (a + b)[i] == a[i];
    }
  }

  /** The intended conversion of one range: the centre is moved, and the parts left and right of it go on to the
      remaining entries, so that every value is converted by the first entry that covers it. */
  function RangeImage(r: Range, table: seq<Entry>): (out: seq<Range>)
    requires ValidTable(table)
    ensures out != []
    decreases |table|
  {
    if table == [] then [r]
    else
      var (left, center, right) := SplitRange(r, table[0]);
      if center.None? then RangeImage(r, table[1..])
      else
        [Shift(center.value, table[0])]
        + (if left.Some? then RangeImage(left.value, table[1..]) else [])
        + (if right.Some? then RangeImage(right.value, table[1..]) else [])
  }

  predicate AllNonEmpty(rs: seq<Range>)
  {
    forall i | 0 <= i < |rs| :: NonEmpty(rs[i])
  }

  lemma AllNonEmptyConcat(a: seq<Range>, b: seq<Range>)
    requires AllNonEmpty(a) && AllNonEmpty(b)
    ensures AllNonEmpty(a + b)
  {
    assert forall i | |a| <= i < |a + b| :: (a + b)[i] == b[i - |a|];
  }

  /** A non-empty range converts to non-empty ranges. */
  lemma {:induction false} RangeImageNonEmpty(r: Range, table: seq<Entry>)
    requires ValidTable(table) && NonEmpty(r)
    ensures AllNonEmpty(RangeImage(r, table))
    decreases |table|
  {
    if table != [] {
      var (left, center, right) := SplitRange(r, table[0]);
      SplitRangePartition(r, table[0]);
      if center.None? {
        RangeImageNonEmpty(r, table[1..]);
      } else {
        var l := if left.Some? then RangeImage(left.value, table[1..]) else [];
        var rt := if right.Some? then RangeImage(right.value, table[1..]) else [];
        if left.Some? {
          RangeImageNonEmpty(left.value, table[1..]);
        }
        if right.Some? {
          RangeImageNonEmpty(right.value, table[1..]);
        }
        AllNonEmptyConcat([Shift(center.value, table[0])], l);
        AllNonEmptyConcat([Shift(center.value, table[0])] + l, rt);
      }
    }
  }

  /** A value that no entry before index 1 covers converts as the rest of the table converts it. */
  lemma MatchItemSkip(x: nat, table: seq<Entry>)
    requires table != [] && ConvertItem(x, table[0]).None?
    ensures MatchItem(x, table) == MatchItem(x, table[1..])
  {
  }

  /** Every value of the range, converted, lies in the image. */
  lemma {:induction false} RangeImageComplete(r: Range, table: seq<Entry>, x: nat)
    requires ValidTable(table) && In(x, r)
    ensures Covers(RangeImage(r, table), MatchItem(x, table))
    decreases |table|
  {
    var out := RangeImage(r, table);
    if table == [] {
      assert In(x, out[0]);
    } else {
      var t := table[0];
      var (left, center, right) := SplitRange(r, t);
      SplitRangePartition(r, t);
      if center.None? {
        MatchItemSkip(x, table);
        RangeImageComplete(r, table[1..], x);
      } else {
        var c := [Shift(center.value, t)];
        var l := if left.Some? then RangeImage(left.value, table[1..]) else [];
        var rt := if right.Some? then RangeImage(right.value, table[1..]) else [];
        assert out == c + l + rt;
        var y := MatchItem(x, table);
        if InPart(x, center) {
          assert In(y, c[0]);
          CoversConcat(c, l, y);
        } else if InPart(x, left) {
          MatchItemSkip(x, table);
          RangeImageComplete(left.value, table[1..], x);
          CoversConcat(c, l, y);
        } else {
          MatchItemSkip(x, table);
          RangeImageComplete(right.value, table[1..], x);
        }
        CoversConcat(c + l, rt, y);
      }
    }
  }

  /** Every value of the image is the conversion of a value of the range. */
  lemma {:induction false} RangeImageSound(r: Range, table: seq<Entry>, y: nat) returns (x: nat)
    requires ValidTable(table) && NonEmpty(r) && Covers(RangeImage(r, table), y)
    ensures In(x, r) && MatchItem(x, table) == y
    decreases |table|
  {
    var out := RangeImage(r, table);
    if table == [] {
      x := y;
    } else {
      var t := table[0];
      var (left, center, right) := SplitRange(r, t);
      var i :| 0 <= i < |out| && In(y, out[i]);
      SplitRangePartition(r, t);
      if center.None? {
        x := RangeImageSound(r, table[1..], y);
        MatchItemSkip(x, table);
      } else {
        var c := [Shift(center.value, t)];
        var l := if left.Some? then RangeImage(left.value, table[1..]) else [];
        var rt := if right.Some? then RangeImage(right.value, table[1..]) else [];
        assert out == c + l + rt;
        CoversConcat(c + l, rt, y);
        CoversConcat(c, l, y);
        if Covers(c, y) {
          x := y - t.dst + t.src;
          assert InPart(x, center);
        } else if Covers(l, y) {
          x := RangeImageSound(left.value, table[1..], y);
          MatchItemSkip(x, table);
        } else {
          x := RangeImageSound(right.value, table[1..], y);
          MatchItemSkip(x, table);
        }
      }
    }
  }

  /** `convert_seed_range` with the parts left over by an entry offered to the later entries. */
  function ImageAll(rs: seq<Range>, table: seq<Entry>): (out: seq<Range>)
    requires ValidTable(table)
    ensures rs != [] ==> out != []
  {
    if rs == [] then [] else ImageAll(rs[..|rs| - 1], table) + RangeImage(rs[|rs| - 1], table)
  }

  lemma {:induction false} ImageAllNonEmpty(rs: seq<Range>, table: seq<Entry>)
    requires ValidTable(table) && AllNonEmpty(rs)
    ensures AllNonEmpty(ImageAll(rs, table))
  {
    if rs != [] {
      ImageAllNonEmpty(rs[..|rs| - 1], table);
      RangeImageNonEmpty(rs[|rs| - 1], table);
      AllNonEmptyConcat(ImageAll(rs[..|rs| - 1], table), RangeImage(rs[|rs| - 1], table));
    }
  }

  lemma {:induction false} ImageAllComplete(rs: seq<Range>, table: seq<Entry>, x: nat)
    requires ValidTable(table) && Covers(rs, x)
    ensures Covers(ImageAll(rs, table), MatchItem(x, table))
  {
    var init, last := rs[..|rs| - 1], rs[|rs| - 1];
    var i :| 0 <= i < |rs| && In(x, rs[i]);
    CoversConcat(ImageAll(init, table), RangeImage(last, table), MatchItem(x, table));
    if i < |rs| - 1 {
      assert In(x, init[i]);
      ImageAllComplete(init, table, x);
    } else {
      RangeImageComplete(last, table, x);
    }
  }

  lemma {:induction false} ImageAllSound(rs: seq<Range>, table: seq<Entry>, y: nat) returns (x: nat)
    requires ValidTable(table) && AllNonEmpty(rs) && Covers(ImageAll(rs, table), y)
    ensures Covers(rs, x) && MatchItem(x, table) == y
  {
    var init, last := rs[..|rs| - 1], rs[|rs| - 1];
    CoversConcat(ImageAll(init, table), RangeImage(last, table), y);
    if Covers(ImageAll(init, table), y) {
      x := ImageAllSound(init, table, y);
      var i :| 0 <= i < |init| && In(x, init[i]);
      assert In(x, rs[i]);
    } else {
      x := RangeImageSound(last, table, y);
      assert In(x, rs[|rs| - 1]);
    }
  }

  predicate ValidBlocks(blocks: seq<seq<Entry>>)
  {
    forall b | 0 <= b < |blocks| :: ValidTable(blocks[b])
  }

  /** The loop of `proc_2` over the tables, with the intended range conversion. */
  function ThroughRanges(rs: seq<Range>, blocks: seq<seq<Entry>>): (out: seq<Range>)
    requires ValidBlocks(blocks)
    ensures rs != [] ==> out != []
  {
    if blocks == [] then rs else ImageAll(ThroughRanges(rs, blocks[..|blocks| - 1]), blocks[|blocks| - 1])
  }

  /** Through all the tables, the ranges hold exactly the converted values of the seed ranges. */
  lemma {:induction false} ThroughRangesExact(rs: seq<Range>, blocks: seq<seq<Entry>>, x: nat, y: nat)
    returns (w: nat)
    requires ValidBlocks(blocks) && AllNonEmpty(rs)
    ensures AllNonEmpty(ThroughRanges(rs, blocks))
    ensures Covers(rs, x) ==> Covers(ThroughRanges(rs, blocks), Through(x, blocks))
    ensures Covers(ThroughRanges(rs, blocks), y) ==> Covers(rs, w) && Through(w, blocks) == y
  {
    if blocks == [] {
      w := y;
    } else {
      var init, last := blocks[..|blocks| - 1], blocks[|blocks| - 1];
      assert ValidBlocks(init);
      var mid := ThroughRanges(rs, init);
      var w0 := ThroughRangesExact(rs, init, x, 0);
      ImageAllNonEmpty(mid, last);
      if Covers(rs, x) {
        ImageAllComplete(mid, last, Through(x, init));
      }
      w := 0;
      if Covers(ThroughRanges(rs, blocks), y) {
        var v := ImageAllSound(mid, last, y);
        w := ThroughRangesExact(rs, init, 0, v);
      }
    }
  }

  /** `tmp.iter().map(|e| e.0).min()`. */
  function MinStart(rs: seq<Range>): (m: Option<nat>)
    ensures m.None? <==> rs == []
    ensures m.Some? ==> (exists i | 0 <= i < |rs| :: rs[i].0 == m.value) && forall i | 0 <= i < |rs| :: m.value <= rs[i].0
  {
    if rs == [] then None
    else
      var rest := MinStart(rs[1..]);
      if rest.None? || rs[0].0 <= rest.value then Some(rs[0].0)
      else
        assert exists i | 0 <= i < |rs[1..]| :: rs[1..][i].0 == rest.value;
        var i :| 0 <= i < |rs[1..]| && rs[1..][i].0 == rest.value;
        assert rs[i + 1].0 == rest.value;
        rest
  }

  /** The smallest start of the final ranges is the smallest converted value of any seed in the seed ranges. */
  lemma MinStartIsLowest(rs: seq<Range>, blocks: seq<seq<Entry>>)
    requires ValidBlocks(blocks) && AllNonEmpty(rs) && rs != []
    ensures var m := MinStart(ThroughRanges(rs, blocks)).value;
      && (exists x :: Covers(rs, x) && Through(x, blocks) == m)
      && (forall x | Covers(rs, x) :: m <= Through(x, blocks))
  {
    var out := ThroughRanges(rs, blocks);
    var m := MinStart(out).value;
    var _ := ThroughRangesExact(rs, blocks, 0, 0);
    var i :| 0 <= i < |out| && out[i].0 == m;
    assert In(m, out[i]);
    var w := ThroughRangesExact(rs, blocks, 0, m);
    forall x | Covers(rs, x)
      ensures m <= Through(x, blocks)
    {
      var _ := ThroughRangesExact(rs, blocks, x, 0);
      var j :| 0 <= j < |out| && In(Through(x, blocks), out[j]);
    }
  }

  // The almanac parsers.

  /** A parse that succeeds with the rest of the input, fails (nom's recoverable error, on which
      `separated_list1` ends the list), or panics (`map_item_parser` indexes past a short list). */
  datatype Outcome<T> = Done(value: T, rest: seq<char>) | Fail | Panic

  /** `seeds_parser`: "seeds: ", numbers separated by blanks, then two newlines. */
  function SeedsParser(s: seq<char>): (r: Option<(seq<nat>, seq<char>)>)
    ensures r.Some? ==> r.value.0 != [] && |r.value.1| < |s|
  {
    match Tag("seeds: ", s)
    case None => None
    case Some(r1) =>
      match U32List(r1)
      case None => None
      case Some((seeds, r2)) =>
        match Newline(r2)
        case None => None
        case Some(r3) =>
          match Newline(r3)
          case None => None
          case Some(r4) => Some((seeds, r4))
  }

  /** `map_item_parser`: a list of numbers of which the first three make the entry; fewer than three panic. */
  function MapItemParser(s: seq<char>): (r: Outcome<Entry>)
    ensures r.Done? ==> |r.rest| < |s|
  {
    match U32List(s)
    case None => Fail
    case Some((data, rest)) =>
      if |data| < 3 then Panic else Done(Entry(data[0], data[1], data[2]), rest)
  }

  /** The rest of `separated_list1(newline, map_item_parser)`: a newline and an entry as long as both are there. */
  function ItemsTail(s: seq<char>): (r: Outcome<seq<Entry>>)
    ensures r.Fail? ==> false
    ensures r.Done? ==> |r.rest| <= |s|
    decreases |s|
  {
    match Newline(s)
    case None => Done([], s)
    case Some(r1) =>
      match MapItemParser(r1)
      case Fail => Done([], s)
      case Panic => Panic
      case Done(item, r2) =>
        match ItemsTail(r2)
        case Done(items, r3) => Done([item] + items, r3)
        case _ => Panic
  }

  /** `terminated(not_line_ending, newline)`: a header line ended by '\n'; a '\r' before it makes it fail. */
  function HeaderLine(s: seq<char>): (r: Option<seq<char>>)
    ensures r.Some? ==> |r.value| < |s|
  {
    var k := LineEnd(s);
    if k < |s| && forall i | 0 <= i < k :: s[i] != '\r' then Some(s[k + 1..]) else None
  }

  /** `block_parser`: a header line, then entries separated by newlines. */
  function BlockParser(s: seq<char>): (r: Outcome<seq<Entry>>)
    ensures r.Done? ==> r.value != [] && |r.rest| < |s|
  {
    match HeaderLine(s)
    case None => Fail
    case Some(r1) =>
      match MapItemParser(r1)
      case Fail => Fail
      case Panic => Panic
      case Done(item, r2) =>
        match ItemsTail(r2)
        case Done(items, r3) => Done([item] + items, r3)
        case _ => Panic
  }

  /** The rest of `separated_list1(pair(newline, newline), block_parser)`. */
  function BlocksTail(s: seq<char>): (r: Outcome<seq<seq<Entry>>>)
    ensures r.Fail? ==> false
    decreases |s|
  {
    var sep := match Newline(s) case None => None case Some(r1) => Newline(r1);
    match sep
    case None => Done([], s)
    case Some(r2) =>
      match BlockParser(r2)
      case Fail => Done([], s)
      case Panic => Panic
      case Done(block, r3) =>
        match BlocksTail(r3)
        case Done(blocks, r4) => Done([block] + blocks, r4)
        case _ => Panic
  }

  /** `block_list_parser`. */
  function BlockListParser(s: seq<char>): (r: Outcome<seq<seq<Entry>>>)
    ensures r.Done? ==> r.value != []
  {
    match BlockParser(s)
    case Fail => Fail
    case Panic => Panic
    case Done(block, r1) =>
      match BlocksTail(r1)
      case Done(blocks, r2) => Done([block] + blocks, r2)
      case _ => Panic
  }

  /** `map_parser`: the seeds, the tables, and a final newline. */
  function MapParser(s: seq<char>): (r: Outcome<(seq<nat>, seq<seq<Entry>>)>)
    ensures r.Done? ==> r.value.0 != [] && r.value.1 != []
  {
    match SeedsParser(s)
    case None => Fail
    case Some((seeds, r1)) =>
      match BlockListParser(r1)
      case Fail => Fail
      case Panic => Panic
      case Done(blocks, r2) =>
        match Newline(r2)
        case None => Fail
        case Some(r3) => Done((seeds, blocks), r3)
  }

  // The two answers.

  /** `proc`: the lowest location of any seed; None where the source unwraps a failed parse. */
  method Proc(data: seq<char>) returns (r: Option<nat>)
    ensures r.None? <==> !MapParser(data).Done?
    ensures r.Some? ==>
      var (seeds, blocks) := MapParser(data).value;
      (exists i | 0 <= i < |seeds| :: Through(seeds[i], blocks) == r.value) &&
      forall i | 0 <= i < |seeds| :: r.value <= Through(seeds[i], blocks)
  {
    var parsed := MapParser(data);
    if !parsed.Done? {
      return None;
    }
    var (seeds, blocks) := parsed.value;
    var res := ConvertSeeds(seeds, blocks);
    var m := MinOf(res);
    r := m;
  }

  /** The i-th pair of seeds: a start and a count. */
  function PairStart(seeds: seq<nat>, i: nat): nat
    requires 2 * i + 1 < |seeds|
  {
    seeds[2 * i]
  }

  function PairCount(seeds: seq<nat>, i: nat): nat
    requires 2 * i + 1 < |seeds|
  {
    seeds[2 * i + 1]
  }

  /** The inclusive range of one pair; None where `start + count - 1` underflows and panics. */
  function SeedPair(start: nat, count: nat): (r: Option<Range>)
    ensures r.None? <==> start + count == 0
    ensures r.Some? ==> forall x: nat :: In(x, r.value) <==> start <= x < start + count
  {
    if start + count == 0 then None else Some((start, start + count - 1))
  }

  /** The ranges of the first k pairs; a trailing odd seed is ignored. */
  function SeedRanges(seeds: seq<nat>, k: nat): (r: Option<seq<Range>>)
    requires 2 * k <= |seeds|
    ensures r.Some? ==> |r.value| == k
  {
    if k == 0 then Some([])
    else
      match SeedRanges(seeds, k - 1)
      case None => None
      case Some(rs) =>
        match SeedPair(PairStart(seeds, k - 1), PairCount(seeds, k - 1))
        case None => None
        case Some(p) => Some(rs + [p])
  }

  /** x is one of the seeds that the first k pairs describe. */
  predicate InSeeds(seeds: seq<nat>, k: nat, x: nat)
    requires 2 * k <= |seeds|
  {
    exists i | 0 <= i < k :: PairStart(seeds, i) <= x < PairStart(seeds, i) + PairCount(seeds, i)
  }

  /** With positive counts, the seed ranges are non-empty and hold exactly the seeds of the pairs. */
  lemma {:induction false} SeedRangesExact(seeds: seq<nat>, k: nat)
    requires 2 * k <= |seeds|
    requires forall i | 0 <= i < k :: PairCount(seeds, i) >= 1
    ensures SeedRanges(seeds, k).Some?
    ensures AllNonEmpty(SeedRanges(seeds, k).value)
    ensures forall x: nat :: Covers(SeedRanges(seeds, k).value, x) <==> InSeeds(seeds, k, x)
  {
    if k > 0 {
      SeedRangesExact(seeds, k - 1);
      var rs := SeedRanges(seeds, k - 1).value;
      var p := SeedPair(PairStart(seeds, k - 1), PairCount(seeds, k - 1)).value;
      assert SeedRanges(seeds, k).value == rs + [p];
      forall x: nat
        ensures Covers(rs + [p], x) <==> InSeeds(seeds, k, x)
      {
        CoversConcat(rs, [p], x);
        if In(x, p) {
          assert In(x, [p][0]);
        }
      }
    }
  }

  /** The answer of part two, with the intended range conversion; None where the source panics. */
  function LowestOfRanges(seeds: seq<nat>, blocks: seq<seq<Entry>>): Option<nat>
  {
    if !ValidBlocks(blocks) then None
    else
      match SeedRanges(seeds, |seeds| / 2)
      case None => None
      case Some(rs) => MinStart(ThroughRanges(rs, blocks))
  }

  /** With positive counts and at least one pair, part two is the lowest location of any seed of the pairs. */
  lemma LowestOfRangesIsLowest(seeds: seq<nat>, blocks: seq<seq<Entry>>)
    requires ValidBlocks(blocks) && |seeds| >= 2
    requires forall i | 0 <= i < |seeds| / 2 :: PairCount(seeds, i) >= 1
    ensures LowestOfRanges(seeds, blocks).Some?
    ensures var m := LowestOfRanges(seeds, blocks).value;
      && (exists x: nat :: InSeeds(seeds, |seeds| / 2, x) && Through(x, blocks) == m)
      && (forall x: nat | InSeeds(seeds, |seeds| / 2, x) :: m <= Through(x, blocks))
  {
    SeedRangesExact(seeds, |seeds| / 2);
    MinStartIsLowest(SeedRanges(seeds, |seeds| / 2).value, blocks);
  }

  /** `proc_2`: builds the seed ranges, converts them table by table and takes the lowest start. */
  method Proc2(data: seq<char>) returns (r: Option<nat>)
    ensures r == match MapParser(data) case Done((seeds, blocks), _) => LowestOfRanges(seeds, blocks) case _ => None
  {
    var parsed := MapParser(data);
    if !parsed.Done? {
      return None;
    }
    var (seeds, blocks) := parsed.value;
    if !ValidBlocks(blocks) {
      return None;
    }
    var seedRanges := BuildSeedRanges(seeds);
    if seedRanges.None? {
      return None;
    }
    var tmp := ConvertRanges(seedRanges.value, blocks);
    r := MinStart(tmp);
  }

  /** The first loop of `proc_2`: one range per pair of seeds. */
  method BuildSeedRanges(seeds: seq<nat>) returns (r: Option<seq<Range>>)
    ensures r == SeedRanges(seeds, |seeds| / 2)
  {
    var seedRanges: seq<Range> := [];
    for i := 0 to |seeds| / 2
      invariant SeedRanges(seeds, i) == Some(seedRanges)
    {
      var p := SeedPair(seeds[i * 2], seeds[i * 2 + 1]);
      if p.None? {
        PairsStayNone(seeds, i + 1, |seeds| / 2);
        return None;
      }
      seedRanges := seedRanges + [p.value];
    }
    r := Some(seedRanges);
  }

  /** The second loop of `proc_2`: the ranges through each table in turn. */
  method ConvertRanges(seedRanges: seq<Range>, blocks: seq<seq<Entry>>) returns (tmp: seq<Range>)
    requires ValidBlocks(blocks)
    ensures tmp == ThroughRanges(seedRanges, blocks)
  {
    tmp := seedRanges;
    for b := 0 to |blocks|
      invariant ValidBlocks(blocks[..b])
      invariant tmp == ThroughRanges(seedRanges, blocks[..b])
    {
      assert blocks[..b + 1][..b] == blocks[..b];
      tmp := ImageAll(tmp, blocks[b]);
    }
    assert blocks[..|blocks|] == blocks;
  }

  /** A pair that panics makes every longer list of pairs panic. */
  lemma {:induction false} PairsStayNone(seeds: seq<nat>, k: nat, n: nat)
    requires k <= n && 2 * n <= |seeds|
    requires SeedRanges(seeds, k).None?
    ensures SeedRanges(seeds, n).None?
    decreases n - k
  {
    if k < n {
      PairsStayNone(seeds, k + 1, n);
    }
  }

  // Printing an almanac, and reading it back.

  predicate EntryFits(e: Entry)
  {
    e.dst < U32_LIMIT && e.src < U32_LIMIT && e.len < U32_LIMIT
  }

  predicate AllFit(es: seq<Entry>)
  {
    forall i | 0 <= i < |es| :: EntryFits(es[i])
  }

  /** A header line holds no line break. */
  predicate HeaderText(name: seq<char>)
  {
    forall i | 0 <= i < |name| :: name[i] != '\n' && name[i] != '\r'
  }

  /** One entry as the almanac prints it: three numbers separated by single blanks. */
  function ShowEntry(e: Entry): seq<char>
  {
    ShowNat(e.dst) + ShowPadded([(0, e.src), (0, e.len)])
  }

  /** The entries after the first of a table, each on a line of its own. */
  function ShowItems(es: seq<Entry>): seq<char>
  {
    if es == [] then [] else "\n" + (ShowEntry(es[0]) + ShowItems(es[1..]))
  }

  /** A table: its header line, then its entries. */
  function ShowBlock(name: seq<char>, es: seq<Entry>): seq<char>
    requires es != []
  {
    name + "\n" + (ShowEntry(es[0]) + ShowItems(es[1..]))
  }

  predicate PrintableBlocks(names: seq<seq<char>>, blocks: seq<seq<Entry>>)
  {
    |names| == |blocks| &&
    forall i | 0 <= i < |blocks| :: blocks[i] != [] && AllFit(blocks[i]) && HeaderText(names[i])
  }

  /** The tables after the first, each after a blank line. */
  function ShowBlocksTail(names: seq<seq<char>>, blocks: seq<seq<Entry>>): seq<char>
    requires PrintableBlocks(names, blocks)
  {
    if blocks == [] then [] else "\n\n" + (ShowBlock(names[0], blocks[0]) + ShowBlocksTail(names[1..], blocks[1..]))
  }

  /** A whole almanac: the seeds (each with its number of leading blanks after the first), a blank line, the tables and a final newline. */
  function ShowAlmanac(seeds: seq<(nat, nat)>, names: seq<seq<char>>, blocks: seq<seq<Entry>>): seq<char>
    requires seeds != [] && blocks != [] && PrintableBlocks(names, blocks)
  {
    "seeds: " + ((ShowNat(seeds[0].1) + ShowPadded(seeds[1..])) +
      ("\n\n" + ((ShowBlock(names[0], blocks[0]) + ShowBlocksTail(names[1..], blocks[1..])) + "\n")))
  }

  /** What may follow the last entry of a table without being read as one more entry. */
  predicate ItemsEnd(rest: seq<char>)
  {
    rest == [] || (rest[0] == '\n' && (|rest| == 1 || !IsDigit(rest[1])))
  }

  lemma MapItemOfShow(e: Entry, rest: seq<char>)
    requires EntryFits(e) && EndsList(rest)
    ensures MapItemParser(ShowEntry(e) + rest) == Done(e, rest)
  {
    var es := [(0, e.dst), (0, e.src), (0, e.len)];
    assert es[1..] == [(0, e.src), (0, e.len)];
    U32ListOfShow(es, rest);
    AppendAssoc(ShowNat(e.dst), ShowPadded(es[1..]), rest);
    assert PaddedValues(es) == [e.dst, e.src, e.len];
  }

  lemma ItemsTailStep(s: seq<char>, item: Entry, r2: seq<char>, items: seq<Entry>, r3: seq<char>)
    requires s != [] && s[0] == '\n'
    requires MapItemParser(s[1..]) == Done(item, r2) && ItemsTail(r2) == Done(items, r3)
    ensures ItemsTail(s) == Done([item] + items, r3)
  {
  }

  lemma ItemsTailStop(s: seq<char>)
    requires ItemsEnd(s)
    ensures ItemsTail(s) == Done([], s) && EndsList(s)
  {
    EndsListAtOther(s);
  }

  /** A newline, then a line that starts with a number. */
  lemma ItemLineEnds(e: Entry, tail: seq<char>)
    ensures EndsList("\n" + (ShowEntry(e) + tail))
  {
    var body := ShowEntry(e) + tail;
    EndsListAtOther("\n" + body);
  }

  lemma {:induction false} ItemsTailOfShow(es: seq<Entry>, rest: seq<char>)
    requires AllFit(es) && ItemsEnd(rest)
    ensures ItemsTail(ShowItems(es) + rest) == Done(es, rest)
    ensures EndsList(ShowItems(es) + rest)
  {
    if es == [] {
      ItemsTailStop(rest);
    } else {
      var tail := ShowItems(es[1..]) + rest;
      ItemsTailOfShow(es[1..], rest);
      MapItemOfShow(es[0], tail);
      var body := ShowEntry(es[0]) + tail;
      AppendAssoc(ShowEntry(es[0]), ShowItems(es[1..]), rest);
      AppendAssoc("\n", ShowEntry(es[0]) + ShowItems(es[1..]), rest);
      assert ShowItems(es) + rest == "\n" + body;
      assert ("\n" + body)[1..] == body;
      ItemsTailStep("\n" + body, es[0], tail, es[1..], rest);
      HeadTail(es);
      ItemLineEnds(es[0], tail);
    }
  }

  lemma BlockStep(s: seq<char>, body: seq<char>, item: Entry, r2: seq<char>, items: seq<Entry>, r3: seq<char>)
    requires HeaderLine(s) == Some(body)
    requires MapItemParser(body) == Done(item, r2) && ItemsTail(r2) == Done(items, r3)
    ensures BlockParser(s) == Done([item] + items, r3)
  {
  }

  /** The header line of a printed table is read up to its newline. */
  lemma HeaderOfShow(name: seq<char>, body: seq<char>)
    requires HeaderText(name)
    ensures HeaderLine(name + "\n" + body) == Some(body)
  {
    var s := name + "\n" + body;
    LineEndOfConcat(name, body);
    assert s[|name| + 1..] == body;
    assert forall i | 0 <= i < |name| :: s[i] == name[i];
  }

  lemma BlockOfShow(name: seq<char>, es: seq<Entry>, rest: seq<char>)
    requires HeaderText(name) && es != [] && AllFit(es) && ItemsEnd(rest)
    ensures BlockParser(ShowBlock(name, es) + rest) == Done(es, rest)
  {
    var tail := ShowItems(es[1..]) + rest;
    ItemsTailOfShow(es[1..], rest);
    MapItemOfShow(es[0], tail);
    var body := ShowEntry(es[0]) + tail;
    AppendAssoc(ShowEntry(es[0]), ShowItems(es[1..]), rest);
    AppendAssoc(name + "\n", ShowEntry(es[0]) + ShowItems(es[1..]), rest);
    assert ShowBlock(name, es) + rest == name + "\n" + body;
    HeaderOfShow(name, body);
    BlockStep(name + "\n" + body, body, es[0], tail, es[1..], rest);
    HeadTail(es);
  }

  /** What may follow the last table: its final newline, not followed by a digit or another newline. */
  predicate AlmanacEnd(rest: seq<char>)
  {
    |rest| >= 1 && rest[0] == '\n' && (|rest| == 1 || (rest[1] != '\n' && !IsDigit(rest[1])))
  }

  lemma BlocksTailStep(s: seq<char>, block: seq<Entry>, r3: seq<char>, blocks: seq<seq<Entry>>, r4: seq<char>)
    requires |s| >= 2 && s[0] == '\n' && s[1] == '\n'
    requires BlockParser(s[2..]) == Done(block, r3) && BlocksTail(r3) == Done(blocks, r4)
    ensures BlocksTail(s) == Done([block] + blocks, r4)
  {
    assert s[1..][1..] == s[2..];
  }

  lemma BlocksTailStop(rest: seq<char>)
    requires AlmanacEnd(rest)
    ensures BlocksTail(rest) == Done([], rest) && ItemsEnd(rest)
  {
  }

  /** The printed tables after the first start with a blank line and the next table. */
  lemma BlocksTailHead(names: seq<seq<char>>, blocks: seq<seq<Entry>>, rest: seq<char>)
    requires blocks != [] && PrintableBlocks(names, blocks) && AlmanacEnd(rest)
    requires ItemsEnd(ShowBlocksTail(names[1..], blocks[1..]) + rest)
    ensures PrintableBlocks(names[1..], blocks[1..]) && blocks == [blocks[0]] + blocks[1..]
    ensures var s := ShowBlocksTail(names, blocks) + rest;
      |s| >= 2 && s[0] == '\n' && s[1] == '\n' && ItemsEnd(s) &&
      BlockParser(s[2..]) == Done(blocks[0], ShowBlocksTail(names[1..], blocks[1..]) + rest)
  {
    assert PrintableBlocks(names[1..], blocks[1..]) by {
      assert forall i | 0 <= i < |blocks[1..]| :: blocks[1..][i] == blocks[i + 1] && names[1..][i] == names[i + 1];
    }
    var tail := ShowBlocksTail(names[1..], blocks[1..]) + rest;
    BlockOfShow(names[0], blocks[0], tail);
    var body := ShowBlock(names[0], blocks[0]) + tail;
    AppendAssoc(ShowBlock(names[0], blocks[0]), ShowBlocksTail(names[1..], blocks[1..]), rest);
    AppendAssoc("\n\n", ShowBlock(names[0], blocks[0]) + ShowBlocksTail(names[1..], blocks[1..]), rest);
    assert ShowBlocksTail(names, blocks) + rest == "\n\n" + body;
    assert ("\n\n" + body)[2..] == body;
    HeadTail(blocks);
  }

  lemma {:induction false} BlocksTailOfShow(names: seq<seq<char>>, blocks: seq<seq<Entry>>, rest: seq<char>)
    requires PrintableBlocks(names, blocks) && AlmanacEnd(rest)
    ensures BlocksTail(ShowBlocksTail(names, blocks) + rest) == Done(blocks, rest)
    ensures ItemsEnd(ShowBlocksTail(names, blocks) + rest)
  {
    if blocks != [] {
      assert PrintableBlocks(names[1..], blocks[1..]) by {
        assert forall i | 0 <= i < |blocks[1..]| :: blocks[1..][i] == blocks[i + 1] && names[1..][i] == names[i + 1];
      }
      BlocksTailOfShow(names[1..], blocks[1..], rest);
      BlocksTailHead(names, blocks, rest);
      var tail := ShowBlocksTail(names[1..], blocks[1..]) + rest;
      BlocksTailStep(ShowBlocksTail(names, blocks) + rest, blocks[0], tail, blocks[1..], rest);
    } else {
      BlocksTailStop(rest);
    }
  }

  lemma BlockListOfShow(names: seq<seq<char>>, blocks: seq<seq<Entry>>, rest: seq<char>)
    requires blocks != [] && PrintableBlocks(names, blocks) && AlmanacEnd(rest)
    ensures BlockListParser(ShowBlock(names[0], blocks[0]) + ShowBlocksTail(names[1..], blocks[1..]) + rest) == Done(blocks, rest)
  {
    var tail := ShowBlocksTail(names[1..], blocks[1..]) + rest;
    assert PrintableBlocks(names[1..], blocks[1..]) by {
      assert forall i | 0 <= i < |blocks[1..]| :: blocks[1..][i] == blocks[i + 1] && names[1..][i] == names[i + 1];
    }
    BlocksTailOfShow(names[1..], blocks[1..], rest);
    BlockOfShow(names[0], blocks[0], tail);
    AppendAssoc(ShowBlock(names[0], blocks[0]), ShowBlocksTail(names[1..], blocks[1..]), rest);
    HeadTail(blocks);
  }

  lemma SeedsStep(s: seq<char>, t: seq<char>, seeds: seq<nat>, r2: seq<char>, r3: seq<char>, r: seq<char>)
    requires Tag("seeds: ", s) == Some(t) && U32List(t) == Some((seeds, r2))
    requires Newline(r2) == Some(r3) && Newline(r3) == Some(r)
    ensures SeedsParser(s) == Some((seeds, r))
  {
  }

  lemma TwoNewlines(r: seq<char>)
    ensures Newline("\n\n" + r) == Some("\n" + r) && Newline("\n" + r) == Some(r)
  {
    assert ("\n\n" + r)[1..] == "\n" + r;
    assert ("\n" + r)[1..] == r;
  }

  lemma MapParserStep(s: seq<char>, seeds: seq<nat>, r1: seq<char>, blocks: seq<seq<Entry>>)
    requires SeedsParser(s) == Some((seeds, r1)) && BlockListParser(r1) == Done(blocks, "\n")
    ensures MapParser(s) == Done((seeds, blocks), [])
  {
    var nl: seq<char> := "\n";
    assert nl[1..] == [];
  }

  /** `map_parser` reads a printed almanac back: the seeds and every table, entry by entry. */
  lemma MapParserOfShow(seeds: seq<(nat, nat)>, names: seq<seq<char>>, blocks: seq<seq<Entry>>)
    requires seeds != [] && FitsU32(seeds) && blocks != [] && PrintableBlocks(names, blocks)
    ensures MapParser(ShowAlmanac(seeds, names, blocks)) == Done((PaddedValues(seeds), blocks), [])
  {
    var tables := ShowBlock(names[0], blocks[0]) + ShowBlocksTail(names[1..], blocks[1..]);
    BlockListOfShow(names, blocks, "\n");
    var after := "\n\n" + (tables + "\n");
    EndsListAtOther(after);
    U32ListOfShow(seeds, after);
    var list := ShowNat(seeds[0].1) + ShowPadded(seeds[1..]);
    AppendAssoc(ShowNat(seeds[0].1), ShowPadded(seeds[1..]), after);
    TagOfConcat("seeds: ", list + after);
    TwoNewlines(tables + "\n");
    SeedsStep("seeds: " + (list + after), list + after, PaddedValues(seeds), after, "\n" + (tables + "\n"), tables + "\n");
    assert ShowAlmanac(seeds, names, blocks) == "seeds: " + (list + after);
    MapParserStep("seeds: " + (list + after), PaddedValues(seeds), tables + "\n", blocks);
  }
}
