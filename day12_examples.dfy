/** The inline examples of day 12, evaluated. Each `...PartN` lemma works out the count on a few
    suffixes of the row and of its list, from the shortest suffixes back to the whole row,
    keeping only the values later parts still need. */
module Day12Examples {
  import opened Day12

  lemma SolveExample1Part0(d: seq<char>, l: seq<nat>)
    requires d == "???.###" && l == [1, 1, 3]
    ensures AfterGroup(d[2..], l[1..]) == 1
  {
    assert l[1..] == [1, 3];
    assert l[2..] == [3];
    assert AfterGroup(d[4..], l[2..]) == 1 by { assert d[4..][..3] == d[4..]; }
    assert Ways(d[4..], l[2..]) == 1 by { assert d[4..][0] == '#' && d[4..][1..] == d[5..]; }
    assert AfterGroup(d[2..], l[1..]) == 1 by { assert d[2..][1] == '.'; assert d[2..][2..] == d[4..]; }
  }

  lemma SolveExample1Part1(d: seq<char>, l: seq<nat>)
    requires d == "???.###" && l == [1, 1, 3]
    ensures AfterGroup(d[2..], l[1..]) == 1
    ensures Ways(d[4..], l[1..]) == 0
    ensures Ways(d[3..], l[1..]) == 0
  {
    SolveExample1Part0(d, l);
    assert l[1..] == [1, 3];
    assert AfterGroup(d[4..], l[1..]) == 0 by { assert d[4..][1] == '#'; }
    assert Ways(d[4..], l[1..]) == 0 by { assert d[4..][0] == '#' && d[4..][1..] == d[5..]; }
    assert Ways(d[3..], l[1..]) == 0 by { assert d[3..][0] == '.' && d[3..][1..] == d[4..]; }
  }

  lemma SolveExample1Part2(d: seq<char>, l: seq<nat>)
    requires d == "???.###" && l == [1, 1, 3]
    ensures Ways(d[4..], l[1..]) == 0
    ensures AfterGroup(d[0..], l[0..]) == 1
    ensures AfterGroup(d[1..], l[0..]) == 0
  {
    SolveExample1Part1(d, l);
    assert l[0..] == [1, 1, 3];
    assert l[1..] == [1, 3];
    assert Ways(d[2..], l[1..]) == 1 by { assert d[2..][0] == '?' && d[2..][1..] == d[3..]; }
    assert AfterGroup(d[0..], l[0..]) == 1 by { assert d[0..][1] == '?'; assert d[0..][2..] == d[2..]; }
    assert AfterGroup(d[1..], l[0..]) == 0 by { assert d[1..][1] == '?'; assert d[1..][2..] == d[3..]; }
  }

  lemma SolveExample1Part3(d: seq<char>, l: seq<nat>)
    requires d == "???.###" && l == [1, 1, 3]
    ensures AfterGroup(d[0..], l[0..]) == 1
    ensures AfterGroup(d[1..], l[0..]) == 0
    ensures AfterGroup(d[2..], l[0..]) == 0
    ensures Ways(d[4..], l[0..]) == 0
  {
    SolveExample1Part2(d, l);
    assert l[0..] == [1, 1, 3];
    assert l[1..] == [1, 3];
    assert AfterGroup(d[2..], l[0..]) == 0 by { assert d[2..][1] == '.'; assert d[2..][2..] == d[4..]; }
    assert AfterGroup(d[4..], l[0..]) == 0 by { assert d[4..][1] == '#'; }
    assert Ways(d[4..], l[0..]) == 0 by { assert d[4..][0] == '#' && d[4..][1..] == d[5..]; }
  }

  lemma SolveExample1Part4(d: seq<char>, l: seq<nat>)
    requires d == "???.###" && l == [1, 1, 3]
    ensures AfterGroup(d[0..], l[0..]) == 1
    ensures Ways(d[1..], l[0..]) == 0
  {
    SolveExample1Part3(d, l);
    assert l[0..] == [1, 1, 3];
    assert Ways(d[3..], l[0..]) == 0 by { assert d[3..][0] == '.' && d[3..][1..] == d[4..]; }
    assert Ways(d[2..], l[0..]) == 0 by { assert d[2..][0] == '?' && d[2..][1..] == d[3..]; }
    assert Ways(d[1..], l[0..]) == 0 by { assert d[1..][0] == '?' && d[1..][1..] == d[2..]; }
  }

  lemma SolveExample1Part5(d: seq<char>, l: seq<nat>)
    requires d == "???.###" && l == [1, 1, 3]
    ensures Ways(d[0..], l[0..]) == 1
  {
    SolveExample1Part4(d, l);
    assert l[0..] == [1, 1, 3];
    assert Ways(d[0..], l[0..]) == 1 by { assert d[0..][0] == '?' && d[0..][1..] == d[1..]; }
  }

  /** `solve` on "???.###" with runs 1,1,3: one way. */
  lemma SolveExample1(d: seq<char>, l: seq<nat>)
    requires d == "???.###" && l == [1, 1, 3]
    ensures Ways(d, l) == 1
  {
    SolveExample1Part5(d, l);
    assert d[0..] == d && l[0..] == l;
  }

  lemma SolveExample2Part0(d: seq<char>, l: seq<nat>)
    requires d == ".??..??...?##." && l == [1, 1, 3]
    ensures AfterGroup(d[10..], l[2..]) == 1
    ensures AfterGroup(d[11..], l[2..]) == 0
  {
    assert l[2..] == [3];
    assert l[3..] == [];
    assert Ways(d[14..], l[3..]) == 1;
    assert AfterGroup(d[10..], l[2..]) == 1 by { assert d[10..][3] == '.'; assert d[10..][4..] == d[14..]; }
    assert AfterGroup(d[11..], l[2..]) == 0 by { assert d[11..][..3][2] == '.'; }
  }

  lemma SolveExample2Part1(d: seq<char>, l: seq<nat>)
    requires d == ".??..??...?##." && l == [1, 1, 3]
    ensures Ways(d[9..], l[2..]) == 1
  {
    SolveExample2Part0(d, l);
    assert l[2..] == [3];
    assert Ways(d[11..], l[2..]) == 0 by { assert d[11..][0] == '#' && d[11..][1..] == d[12..]; }
    assert Ways(d[10..], l[2..]) == 1 by { assert d[10..][0] == '?' && d[10..][1..] == d[11..]; }
    assert Ways(d[9..], l[2..]) == 1 by { assert d[9..][0] == '.' && d[9..][1..] == d[10..]; }
  }

  lemma SolveExample2Part2(d: seq<char>, l: seq<nat>)
    requires d == ".??..??...?##." && l == [1, 1, 3]
    ensures Ways(d[8..], l[2..]) == 1
    ensures AfterGroup(d[5..], l[1..]) == 1
  {
    SolveExample2Part1(d, l);
    assert l[1..] == [1, 3];
    assert l[2..] == [3];
    assert Ways(d[8..], l[2..]) == 1 by { assert d[8..][0] == '.' && d[8..][1..] == d[9..]; }
    assert Ways(d[7..], l[2..]) == 1 by { assert d[7..][0] == '.' && d[7..][1..] == d[8..]; }
    assert AfterGroup(d[5..], l[1..]) == 1 by { assert d[5..][1] == '?'; assert d[5..][2..] == d[7..]; }
  }

  lemma SolveExample2Part3(d: seq<char>, l: seq<nat>)
    requires d == ".??..??...?##." && l == [1, 1, 3]
    ensures AfterGroup(d[5..], l[1..]) == 1
    ensures AfterGroup(d[6..], l[1..]) == 1
    ensures AfterGroup(d[10..], l[1..]) == 0
    ensures AfterGroup(d[11..], l[1..]) == 0
  {
    SolveExample2Part2(d, l);
    assert l[1..] == [1, 3];
    assert l[2..] == [3];
    assert AfterGroup(d[6..], l[1..]) == 1 by { assert d[6..][1] == '.'; assert d[6..][2..] == d[8..]; }
    assert AfterGroup(d[10..], l[1..]) == 0 by { assert d[10..][1] == '#'; }
    assert AfterGroup(d[11..], l[1..]) == 0 by { assert d[11..][1] == '#'; }
  }

  lemma SolveExample2Part4(d: seq<char>, l: seq<nat>)
    requires d == ".??..??...?##." && l == [1, 1, 3]
    ensures AfterGroup(d[5..], l[1..]) == 1
    ensures AfterGroup(d[6..], l[1..]) == 1
    ensures Ways(d[9..], l[1..]) == 0
  {
    SolveExample2Part3(d, l);
    assert l[1..] == [1, 3];
    assert Ways(d[11..], l[1..]) == 0 by { assert d[11..][0] == '#' && d[11..][1..] == d[12..]; }
    assert Ways(d[10..], l[1..]) == 0 by { assert d[10..][0] == '?' && d[10..][1..] == d[11..]; }
    assert Ways(d[9..], l[1..]) == 0 by { assert d[9..][0] == '.' && d[9..][1..] == d[10..]; }
  }

  lemma SolveExample2Part5(d: seq<char>, l: seq<nat>)
    requires d == ".??..??...?##." && l == [1, 1, 3]
    ensures AfterGroup(d[5..], l[1..]) == 1
    ensures Ways(d[8..], l[1..]) == 0
    ensures Ways(d[7..], l[1..]) == 0
    ensures Ways(d[6..], l[1..]) == 1
  {
    SolveExample2Part4(d, l);
    assert l[1..] == [1, 3];
    assert Ways(d[8..], l[1..]) == 0 by { assert d[8..][0] == '.' && d[8..][1..] == d[9..]; }
    assert Ways(d[7..], l[1..]) == 0 by { assert d[7..][0] == '.' && d[7..][1..] == d[8..]; }
    assert Ways(d[6..], l[1..]) == 1 by { assert d[6..][0] == '?' && d[6..][1..] == d[7..]; }
  }

  lemma SolveExample2Part6(d: seq<char>, l: seq<nat>)
    requires d == ".??..??...?##." && l == [1, 1, 3]
    ensures Ways(d[8..], l[1..]) == 0
    ensures Ways(d[7..], l[1..]) == 0
    ensures Ways(d[4..], l[1..]) == 2
    ensures Ways(d[3..], l[1..]) == 2
  {
    SolveExample2Part5(d, l);
    assert l[1..] == [1, 3];
    assert Ways(d[5..], l[1..]) == 2 by { assert d[5..][0] == '?' && d[5..][1..] == d[6..]; }
    assert Ways(d[4..], l[1..]) == 2 by { assert d[4..][0] == '.' && d[4..][1..] == d[5..]; }
    assert Ways(d[3..], l[1..]) == 2 by { assert d[3..][0] == '.' && d[3..][1..] == d[4..]; }
  }

  lemma SolveExample2Part7(d: seq<char>, l: seq<nat>)
    requires d == ".??..??...?##." && l == [1, 1, 3]
    ensures Ways(d[8..], l[1..]) == 0
    ensures AfterGroup(d[1..], l[0..]) == 2
    ensures AfterGroup(d[2..], l[0..]) == 2
    ensures AfterGroup(d[5..], l[0..]) == 0
  {
    SolveExample2Part6(d, l);
    assert l[0..] == [1, 1, 3];
    assert l[1..] == [1, 3];
    assert AfterGroup(d[1..], l[0..]) == 2 by { assert d[1..][1] == '?'; assert d[1..][2..] == d[3..]; }
    assert AfterGroup(d[2..], l[0..]) == 2 by { assert d[2..][1] == '.'; assert d[2..][2..] == d[4..]; }
    assert AfterGroup(d[5..], l[0..]) == 0 by { assert d[5..][1] == '?'; assert d[5..][2..] == d[7..]; }
  }

  lemma SolveExample2Part8(d: seq<char>, l: seq<nat>)
    requires d == ".??..??...?##." && l == [1, 1, 3]
    ensures AfterGroup(d[1..], l[0..]) == 2
    ensures AfterGroup(d[2..], l[0..]) == 2
    ensures AfterGroup(d[5..], l[0..]) == 0
    ensures AfterGroup(d[6..], l[0..]) == 0
    ensures AfterGroup(d[10..], l[0..]) == 0
    ensures AfterGroup(d[11..], l[0..]) == 0
  {
    SolveExample2Part7(d, l);
    assert l[0..] == [1, 1, 3];
    assert l[1..] == [1, 3];
    assert AfterGroup(d[6..], l[0..]) == 0 by { assert d[6..][1] == '.'; assert d[6..][2..] == d[8..]; }
    assert AfterGroup(d[10..], l[0..]) == 0 by { assert d[10..][1] == '#'; }
    assert AfterGroup(d[11..], l[0..]) == 0 by { assert d[11..][1] == '#'; }
  }

  lemma SolveExample2Part9(d: seq<char>, l: seq<nat>)
    requires d == ".??..??...?##." && l == [1, 1, 3]
    ensures AfterGroup(d[1..], l[0..]) == 2
    ensures AfterGroup(d[2..], l[0..]) == 2
    ensures AfterGroup(d[5..], l[0..]) == 0
    ensures AfterGroup(d[6..], l[0..]) == 0
    ensures Ways(d[9..], l[0..]) == 0
  {
    SolveExample2Part8(d, l);
    assert l[0..] == [1, 1, 3];
    assert Ways(d[11..], l[0..]) == 0 by { assert d[11..][0] == '#' && d[11..][1..] == d[12..]; }
    assert Ways(d[10..], l[0..]) == 0 by { assert d[10..][0] == '?' && d[10..][1..] == d[11..]; }
    assert Ways(d[9..], l[0..]) == 0 by { assert d[9..][0] == '.' && d[9..][1..] == d[10..]; }
  }

  lemma SolveExample2Part10(d: seq<char>, l: seq<nat>)
    requires d == ".??..??...?##." && l == [1, 1, 3]
    ensures AfterGroup(d[1..], l[0..]) == 2
    ensures AfterGroup(d[2..], l[0..]) == 2
    ensures AfterGroup(d[5..], l[0..]) == 0
    ensures Ways(d[6..], l[0..]) == 0
  {
    SolveExample2Part9(d, l);
    assert l[0..] == [1, 1, 3];
    assert Ways(d[8..], l[0..]) == 0 by { assert d[8..][0] == '.' && d[8..][1..] == d[9..]; }
    assert Ways(d[7..], l[0..]) == 0 by { assert d[7..][0] == '.' && d[7..][1..] == d[8..]; }
    assert Ways(d[6..], l[0..]) == 0 by { assert d[6..][0] == '?' && d[6..][1..] == d[7..]; }
  }

  lemma SolveExample2Part11(d: seq<char>, l: seq<nat>)
    requires d == ".??..??...?##." && l == [1, 1, 3]
    ensures AfterGroup(d[1..], l[0..]) == 2
    ensures AfterGroup(d[2..], l[0..]) == 2
    ensures Ways(d[3..], l[0..]) == 0
  {
    SolveExample2Part10(d, l);
    assert l[0..] == [1, 1, 3];
    assert Ways(d[5..], l[0..]) == 0 by { assert d[5..][0] == '?' && d[5..][1..] == d[6..]; }
    assert Ways(d[4..], l[0..]) == 0 by { assert d[4..][0] == '.' && d[4..][1..] == d[5..]; }
    assert Ways(d[3..], l[0..]) == 0 by { assert d[3..][0] == '.' && d[3..][1..] == d[4..]; }
  }

  lemma SolveExample2Part12(d: seq<char>, l: seq<nat>)
    requires d == ".??..??...?##." && l == [1, 1, 3]
    ensures Ways(d[0..], l[0..]) == 4
  {
    SolveExample2Part11(d, l);
    assert l[0..] == [1, 1, 3];
    assert Ways(d[2..], l[0..]) == 2 by { assert d[2..][0] == '?' && d[2..][1..] == d[3..]; }
    assert Ways(d[1..], l[0..]) == 4 by { assert d[1..][0] == '?' && d[1..][1..] == d[2..]; }
    assert Ways(d[0..], l[0..]) == 4 by { assert d[0..][0] == '.' && d[0..][1..] == d[1..]; }
  }

  /** `solve` on ".??..??...?##." with runs 1,1,3: four ways. */
  lemma SolveExample2(d: seq<char>, l: seq<nat>)
    requires d == ".??..??...?##." && l == [1, 1, 3]
    ensures Ways(d, l) == 4
  {
    SolveExample2Part12(d, l);
    assert d[0..] == d && l[0..] == l;
  }

  lemma SolveExample3Part0(d: seq<char>, l: seq<nat>)
    requires d == "?###????????" && l == [3, 2, 1]
    ensures AfterGroup(d[0..], l[0..]) == 0
    ensures AfterGroup(d[8..], l[2..]) == 1
  {
    assert l[0..] == [3, 2, 1];
    assert l[2..] == [1];
    assert l[3..] == [];
    assert AfterGroup(d[0..], l[0..]) == 0 by { assert d[0..][3] == '#'; }
    assert Ways(d[10..], l[3..]) == 1;
    assert AfterGroup(d[8..], l[2..]) == 1 by { assert d[8..][1] == '?'; assert d[8..][2..] == d[10..]; }
  }

  lemma SolveExample3Part1(d: seq<char>, l: seq<nat>)
    requires d == "?###????????" && l == [3, 2, 1]
    ensures AfterGroup(d[0..], l[0..]) == 0
    ensures AfterGroup(d[8..], l[2..]) == 1
    ensures AfterGroup(d[9..], l[2..]) == 1
    ensures Ways(d[12..], l[3..]) == 1
  {
    SolveExample3Part0(d, l);
    assert l[2..] == [1];
    assert l[3..] == [];
    assert Ways(d[11..], l[3..]) == 1;
    assert AfterGroup(d[9..], l[2..]) == 1 by { assert d[9..][1] == '?'; assert d[9..][2..] == d[11..]; }
    assert Ways(d[12..], l[3..]) == 1;
  }

  lemma SolveExample3Part2(d: seq<char>, l: seq<nat>)
    requires d == "?###????????" && l == [3, 2, 1]
    ensures AfterGroup(d[0..], l[0..]) == 0
    ensures AfterGroup(d[8..], l[2..]) == 1
    ensures AfterGroup(d[9..], l[2..]) == 1
    ensures AfterGroup(d[10..], l[2..]) == 1
    ensures AfterGroup(d[11..], l[2..]) == 1
    ensures Ways(d[12..], l[2..]) == 0
  {
    SolveExample3Part1(d, l);
    assert l[2..] == [1];
    assert l[3..] == [];
    assert AfterGroup(d[10..], l[2..]) == 1 by { assert d[10..][1] == '?'; assert d[10..][2..] == d[12..]; }
    assert AfterGroup(d[11..], l[2..]) == 1 by { assert d[11..][..1] == d[11..]; }
    assert Ways(d[12..], l[2..]) == 0;
  }

  lemma SolveExample3Part3(d: seq<char>, l: seq<nat>)
    requires d == "?###????????" && l == [3, 2, 1]
    ensures AfterGroup(d[0..], l[0..]) == 0
    ensures AfterGroup(d[8..], l[2..]) == 1
    ensures Ways(d[12..], l[2..]) == 0
    ensures Ways(d[11..], l[2..]) == 1
    ensures Ways(d[10..], l[2..]) == 2
    ensures Ways(d[9..], l[2..]) == 3
  {
    SolveExample3Part2(d, l);
    assert l[2..] == [1];
    assert Ways(d[11..], l[2..]) == 1 by { assert d[11..][0] == '?' && d[11..][1..] == d[12..]; }
    assert Ways(d[10..], l[2..]) == 2 by { assert d[10..][0] == '?' && d[10..][1..] == d[11..]; }
    assert Ways(d[9..], l[2..]) == 3 by { assert d[9..][0] == '?' && d[9..][1..] == d[10..]; }
  }

  lemma SolveExample3Part4(d: seq<char>, l: seq<nat>)
    requires d == "?###????????" && l == [3, 2, 1]
    ensures AfterGroup(d[0..], l[0..]) == 0
    ensures Ways(d[12..], l[2..]) == 0
    ensures Ways(d[11..], l[2..]) == 1
    ensures Ways(d[10..], l[2..]) == 2
    ensures AfterGroup(d[5..], l[1..]) == 4
    ensures AfterGroup(d[6..], l[1..]) == 3
  {
    SolveExample3Part3(d, l);
    assert l[1..] == [2, 1];
    assert l[2..] == [1];
    assert Ways(d[8..], l[2..]) == 4 by { assert d[8..][0] == '?' && d[8..][1..] == d[9..]; }
    assert AfterGroup(d[5..], l[1..]) == 4 by { assert d[5..][2] == '?'; assert d[5..][3..] == d[8..]; }
    assert AfterGroup(d[6..], l[1..]) == 3 by { assert d[6..][2] == '?'; assert d[6..][3..] == d[9..]; }
  }

  lemma SolveExample3Part5(d: seq<char>, l: seq<nat>)
    requires d == "?###????????" && l == [3, 2, 1]
    ensures AfterGroup(d[0..], l[0..]) == 0
    ensures AfterGroup(d[5..], l[1..]) == 4
    ensures AfterGroup(d[6..], l[1..]) == 3
    ensures AfterGroup(d[7..], l[1..]) == 2
    ensures AfterGroup(d[8..], l[1..]) == 1
    ensures AfterGroup(d[9..], l[1..]) == 0
  {
    SolveExample3Part4(d, l);
    assert l[1..] == [2, 1];
    assert l[2..] == [1];
    assert AfterGroup(d[7..], l[1..]) == 2 by { assert d[7..][2] == '?'; assert d[7..][3..] == d[10..]; }
    assert AfterGroup(d[8..], l[1..]) == 1 by { assert d[8..][2] == '?'; assert d[8..][3..] == d[11..]; }
    assert AfterGroup(d[9..], l[1..]) == 0 by { assert d[9..][2] == '?'; assert d[9..][3..] == d[12..]; }
  }

  lemma SolveExample3Part6(d: seq<char>, l: seq<nat>)
    requires d == "?###????????" && l == [3, 2, 1]
    ensures AfterGroup(d[0..], l[0..]) == 0
    ensures AfterGroup(d[5..], l[1..]) == 4
    ensures AfterGroup(d[6..], l[1..]) == 3
    ensures AfterGroup(d[7..], l[1..]) == 2
    ensures AfterGroup(d[8..], l[1..]) == 1
    ensures AfterGroup(d[9..], l[1..]) == 0
    ensures Ways(d[10..], l[1..]) == 0
  {
    SolveExample3Part5(d, l);
    assert l[1..] == [2, 1];
    assert AfterGroup(d[10..], l[1..]) == 0 by { assert d[10..][..2] == d[10..]; }
    assert Ways(d[11..], l[1..]) == 0;
    assert Ways(d[10..], l[1..]) == 0 by { assert d[10..][0] == '?' && d[10..][1..] == d[11..]; }
  }

  lemma SolveExample3Part7(d: seq<char>, l: seq<nat>)
    requires d == "?###????????" && l == [3, 2, 1]
    ensures AfterGroup(d[0..], l[0..]) == 0
    ensures AfterGroup(d[5..], l[1..]) == 4
    ensures AfterGroup(d[6..], l[1..]) == 3
    ensures Ways(d[7..], l[1..]) == 3
  {
    SolveExample3Part6(d, l);
    assert l[1..] == [2, 1];
    assert Ways(d[9..], l[1..]) == 0 by { assert d[9..][0] == '?' && d[9..][1..] == d[10..]; }
    assert Ways(d[8..], l[1..]) == 1 by { assert d[8..][0] == '?' && d[8..][1..] == d[9..]; }
    assert Ways(d[7..], l[1..]) == 3 by { assert d[7..][0] == '?' && d[7..][1..] == d[8..]; }
  }

  lemma SolveExample3Part8(d: seq<char>, l: seq<nat>)
    requires d == "?###????????" && l == [3, 2, 1]
    ensures AfterGroup(d[0..], l[0..]) == 0
    ensures AfterGroup(d[1..], l[0..]) == 10
  {
    SolveExample3Part7(d, l);
    assert l[0..] == [3, 2, 1];
    assert l[1..] == [2, 1];
    assert Ways(d[6..], l[1..]) == 6 by { assert d[6..][0] == '?' && d[6..][1..] == d[7..]; }
    assert Ways(d[5..], l[1..]) == 10 by { assert d[5..][0] == '?' && d[5..][1..] == d[6..]; }
    assert AfterGroup(d[1..], l[0..]) == 10 by { assert d[1..][3] == '?'; assert d[1..][4..] == d[5..]; }
  }

  lemma SolveExample3Part9(d: seq<char>, l: seq<nat>)
    requires d == "?###????????" && l == [3, 2, 1]
    ensures Ways(d[0..], l[0..]) == 10
  {
    SolveExample3Part8(d, l);
    assert l[0..] == [3, 2, 1];
    assert Ways(d[1..], l[0..]) == 10 by { assert d[1..][0] == '#' && d[1..][1..] == d[2..]; }
    assert Ways(d[0..], l[0..]) == 10 by { assert d[0..][0] == '?' && d[0..][1..] == d[1..]; }
  }

  /** `solve` on "?###????????" with runs 3,2,1: ten ways. */
  lemma SolveExample3(d: seq<char>, l: seq<nat>)
    requires d == "?###????????" && l == [3, 2, 1]
    ensures Ways(d, l) == 10
  {
    SolveExample3Part9(d, l);
    assert d[0..] == d && l[0..] == l;
  }

  /** `part_two_process_data` on a row of 14 cells and five runs of 1: 74 cells, 25 runs. */
  lemma ExpandExample(data: seq<char>, list: seq<nat>)
    requires data == ".#?.#?.#?.#?.#" && list == [1, 1, 1, 1, 1]
    ensures Unfold(data, 4) == data + "?" + data + "?" + data + "?" + data + "?" + data
    ensures |Unfold(data, 4)| == 74
    ensures Repeat(list, 5) == [1, 1, 1, 1, 1, 1, 1, 1, 1, 1, 1, 1, 1, 1, 1, 1, 1, 1, 1, 1, 1, 1, 1, 1, 1]
  {
    assert Unfold(data, 1) == data + "?" + data;
    assert Unfold(data, 2) == data + "?" + data + "?" + data;
    assert Unfold(data, 3) == data + "?" + data + "?" + data + "?" + data;
    UnfoldLength(data, 4);
    Five(list);
  }

  lemma Five<T>(xs: seq<T>)
    ensures Repeat(xs, 5) == xs + xs + xs + xs + xs
  {
    assert Repeat(xs, 1) == xs;
    assert Repeat(xs, 2) == xs + xs;
    assert Repeat(xs, 3) == xs + xs + xs;
    assert Repeat(xs, 4) == xs + xs + xs + xs;
  }
}
