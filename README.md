# Advent of Code 2023 solutions, modelled in Dafny

This project models the puzzle solutions of an Advent of Code 2023
repository written in Rust (one crate per day, `day-N/src/main.rs`, with
day 2 split into `game.rs`, `game_parser.rs` and `main.rs`). For each day
the model keeps the input parsers (nom combinators become functions over
`seq<char>` that return the parsed value and the remaining text, or `None`),
the data structures, and the functions that compute the two answers. Loops
that accumulate into mutable variables become Dafny methods with loop
invariants, proved against a function of their inputs; expression-style code
becomes functions and lemmas.

Shared vocabulary sits in `common.dfy` (module `Common`): an `Option` type,
character classes, decimal numerals and the nom primitives `digit1`, `tag`,
`space1`, `alpha1` and `newline`, the u32 parse, and Rust's `str::lines`.
A u32 parse of a value of 2^32 or more fails, as `str::parse::<u32>` does.
The places where the source calls `unwrap()` on a failed parse and panics
are modelled as a `None` result.

## Model

| member | source | states |
|---|---|---|
| Day01.ProcLine | day-1/src/main.rs:9-20 | the digits of the line are collected in order and the result is ten times the first plus the last, as CalibrationValue defines; None for a line without digits, where the source panics |
| Day01.LineDigitsAppend | day-1/src/main.rs:11-15 | the digits of a concatenation are the digits of each part in order |
| Day01.CalibrationValueRange | day-1/src/main.rs:9-20 | a value exists exactly when the line has a digit, and it is at most 99 |
| Day01.SingleDigit | day-1/src/main.rs:17 | a line with one digit d is worth 11 * d (first and last digit coincide) |
| Day01.ExampleTwelve | day-1/src/main.rs:40 | "1abc2" is worth 12 |
| Day01.ExampleThirtyEight | day-1/src/main.rs:41 | "pqr3stu8vwx" is worth 38 |
| Day01.ExampleFifteen | day-1/src/main.rs:42 | "a1b2c3d4e5f" is worth 15 |
| Day01.ExampleSeventySeven | day-1/src/main.rs:43 | "treb7uchet" is worth 77 |
| Day01.Proc | day-1/src/main.rs:22-32 | the sum over the non-empty lines of their calibration values, None as soon as one non-empty line has no digit |
| Day01.NoneSticks | day-1/src/main.rs:22-32 | once one line has failed, the whole sum fails |
| Day02Game.ColorFromStr | day-2/src/game.rs:12-19 | exactly "red", "green" and "blue" are accepted, each as its colour |
| Day02Game.ColorNameReadsBack | day-2/src/game.rs:12-19 | every colour name is a word of letters that reads back as that colour |
| Day02Game.MaxSet | day-2/src/game.rs:36-45 | the loop computes the colour-wise maximum of all sets, MaxOf |
| Day02Game.MaxOfIsMaximum | day-2/src/game.rs:36-45 | the maximum dominates every set, and each of its counts is 0 or drawn in some set |
| Day02Game.Check | day-2/src/game.rs:47-52 | a game passes `check` exactly when every one of its sets is within the limit |
| Day02Game.Power | day-2/src/game.rs:54-57 | the power is zero exactly when some colour is never drawn in any set |
| Day02GameParser.CubeConvert | day-2/src/game_parser.rs:11-24 | the loop adds each "n colour" pair to its colour's count: the result is CubeTotal of the list |
| Day02GameParser.CubeTotalCounts | day-2/src/game_parser.rs:11-24 | each colour's total is the sum of the counts drawn in that colour, whatever the order |
| Day02GameParser.CubeParser | day-2/src/game_parser.rs:26-32 | a number, one blank and a colour word; fails on other words and on numbers of 2^32 or more |
| Day02GameParser.CubeParserOfShow | day-2/src/game_parser.rs:26-32 | a printed cube reads back as its count and colour |
| Day02GameParser.CubeListOfShow | day-2/src/game_parser.rs:42-44 | a printed set, cubes separated by ", ", reads back cube by cube up to the first character that is not a separator |
| Day02GameParser.SetListOfShow | day-2/src/game_parser.rs:46-51 | printed sets separated by "; " read back set by set |
| Day02GameParser.GameIdOfShow | day-2/src/game_parser.rs:34-40 | "Game n: " reads back as n |
| Day02GameParser.ParseGame | day-2/src/game_parser.rs:53-57 | a game is read exactly when its "Game n: " header is, and then holds at least one set |
| Day02GameParser.ParseGameOfShow | day-2/src/game_parser.rs:46-57 | a printed game reads back as its id and the colour totals of each of its sets |
| Day02GameParser.ExampleGame | day-2/src/game_parser.rs:64-78 | the game of `line_test`, printed by ShowGame from its cubes (3 blue, 4 red; 1 red, 2 green, 6 blue; 2 green), parses as game 1 with the (red, green, blue) sets (4, 0, 3), (1, 2, 6) and (0, 2, 0) |
| Day02GameParser.ExampleGameFacts | day-2/src/game_parser.rs:64-78 | that parsed game has id 1, maximum (4, 2, 6), passes `check` against (4, 2, 6) and has power 48 |
| Day02Main.LineScore | day-2/src/main.rs:22-29 | the game id when every set is within the limit, 0 otherwise, None when the line does not parse |
| Day02Main.Proc | day-2/src/main.rs:18-20 | part one has an answer exactly when every line parses as a game |
| Day02Main.ScoresBound | day-2/src/main.rs:18-29 | the answer lies between 0 and the sum of the ids, and equals that sum when every game passes |
| Day02Main.LinePower | day-2/src/main.rs:31-35 | the power of the parsed game, None when the line does not parse |
| Day02Main.Proc2 | day-2/src/main.rs:31-35 | part two has an answer exactly when every line parses as a game, and it is never negative |
| Day02Main.PowersNonNegative | day-2/src/main.rs:31-35 | the part-two answer is never negative |
| Day03.DataParser | day-3/src/main.rs:36-93 | the state-machine loop emits exactly the numbers and symbols of the reference tokenizer Scan, with their positions |
| Day03.ScanDigitsAreRuns | day-3/src/main.rs:36-93 | every emitted number is a whole digit run that some character follows, with its value and columns |
| Day03.ScanFindsRuns | day-3/src/main.rs:36-93 | every whole digit run that some character follows is emitted |
| Day03.ScanInOrder | day-3/src/main.rs:36-93 | the numbers are emitted in strictly increasing position (earlier row, or same row and ending before the next one starts), so no run is emitted twice |
| Day03.PosAlong | day-3/src/main.rs:82-87 | across characters that are not newlines the column advances by one per character and the row is unchanged |
| Day03.ScanSymbols | day-3/src/main.rs:36-93 | one symbol is emitted per character that is not a digit, '.' or a newline, in order, and exactly the '*' ones are gears |
| Day03.ExampleTokens | day-3/src/main.rs:36-93 | "12*\n.5" yields the number 12 at columns 0-1 and a gear at column 2; the final 5 is dropped because nothing follows it |
| Day03.FindItems | day-3/src/main.rs:95-106 | the nested loop adds each number once when some symbol is adjacent: the result is PartNumbers |
| Day03.PartNumbersBounds | day-3/src/main.rs:95-106 | the sum is between 0 and the sum of all numbers, 0 without symbols, and the whole sum when every number touches a symbol |
| Day03.FindGears | day-3/src/main.rs:108-127 | the loop adds, for each '*' with exactly two adjacent numbers, their product: the result is GearRatios |
| Day03.NeighboursProduct | day-3/src/main.rs:108-127 | the running product is 1 with no neighbour, the one value with one, and the product of two distinct adjacent numbers with two |
| Day03.GearRatiosOfNoGears | day-3/src/main.rs:108-127 | symbols other than '*' add nothing |
| Common.U32List | day-4/src/main.rs:22-23 | separated_list1 reads at least one number and consumes input |
| Day04.ParseLine | day-4/src/main.rs:16-30 | a parsed card has a non-empty list of winning numbers and a non-empty list of numbers one has, and consumes input |
| Day04.CalcPoints | day-4/src/main.rs:32-44 | the score is 0 exactly when the two lists share no number |
| Day04.PointsBound | day-4/src/main.rs:32-44 | a non-zero score is at most 2^(n-1), n the length of the shorter list |
| Day04.PointsSymmetric | day-4/src/main.rs:33-35 | swapping the two lists does not change the score |
| Day04.PointsIgnoreDuplicates | day-4/src/main.rs:33-35 | repeating a number on the card does not change the score |
| Day04.ExampleScore | day-4/src/main.rs:62-70 | the card of the tests scores 8 |
| Day04.LinePoints | day-4/src/main.rs:49-50 | the score of the parsed card, None when the line does not parse |
| Day04.Proc | day-4/src/main.rs:46-55 | the loop adds the score of every line; the result is None exactly when some line does not parse |
| Common.U32ListTailOfShow | day-4/src/main.rs:22-27 | blanks and numbers are read back one pair at a time until a separator without a number follows |
| Day04.ParseLineOfShow | day-4/src/main.rs:16-30 | a printed card, with any padding between its numbers, reads back as its id and both lists |
| Day04.ExampleFirstCard | day-4/src/main.rs:61-70 | card 1 of `test_parse`, printed by ShowCard with the test's padding (one blank before each number, two before 6 and 9), reads back as id 1 with the lists 41 48 83 86 17 and 83 86 6 31 17 9 48 53, nothing left, and scores 8 |
| Day04.ExamplePadded | day-4/src/main.rs:74-81 | card 3 of `test_parse_space`, printed by ShowCard with the test's padding (two blanks before each 1), reads back as id 3 with the lists 1 21 53 59 44 and 69 82 63 72 16 21 14 1 |
| Day05.ConvertItem | day-5/src/main.rs:63-77 | an entry maps an item exactly when src <= item < src + len, and then keeps its offset from src as offset from dst |
| Day05.MatchItemFirst | day-5/src/main.rs:79-91 | the conversion is given by the first entry that covers the item; an uncovered item is unchanged |
| Day05.MatchItems | day-5/src/main.rs:79-91 | each item is replaced by its conversion through the first covering entry of the table |
| Day05.ConvertSeeds | day-5/src/main.rs:93-100 | each seed is carried through every table in order |
| Day05.MinOf | day-5/src/main.rs:105 | the minimum is absent only for an empty list, and otherwise is an element no larger than any other |
| Day05.Proc | day-5/src/main.rs:102-106 | the answer is the converted value of some seed and no larger than that of any seed; absent exactly when the almanac does not parse |
| Day05.SplitRange | day-5/src/main.rs:108-139 | with no center there are no outer parts, and a center lies within the entry's source values from below |
| Day05.SplitRangePartition | day-5/src/main.rs:108-139 | the center is exactly the part of the range covered by the entry (absent iff none is); left and right are the non-empty parts below and above it, and the three partition the range |
| Day05.SplitRangeExamples | day-5/src/main.rs:264-326 | the split of the listed ranges against the listed entries |
| Day05.ConvertItemExamples | day-5/src/main.rs:235-254 | the conversion of the listed items through the listed entries |
| Day05.RangeOut | day-5/src/main.rs:145-163 | as written: one range yields one to three ranges, only the covered part of the first intersecting entry being shifted |
| Day05.RangeOutPassThrough | day-5/src/main.rs:161-163 | a range that no entry intersects is kept as it is |
| Day05.ConvertSeedRange | day-5/src/main.rs:141-167 | the loop yields, range by range, the as-written outputs in order |
| Day05.ConvertSeedRangeExamples1 | day-5/src/main.rs:330-344 | the first table of the sample almanac on the sample seed ranges |
| Day05.ConvertSeedRangeExamples2 | day-5/src/main.rs:330-344 | the middle tables of the sample almanac on its ranges |
| Day05.ConvertSeedRangeExamples3 | day-5/src/main.rs:330-344 | the last tables of the sample almanac on its ranges |
| Day05.LeftoverNotConverted | day-5/src/main.rs:145-163 | as written, a part left over by the first entry is not offered to a later entry that covers it, so a seed's own conversion lies outside every output range |
| Day05.CoversConcat | day-5/src/main.rs:141-167 | a value is covered by two lists of ranges joined iff it is covered by one of them |
| Day05.RangeImage | day-5/src/main.rs:141-167 | corrected: every part left over by an entry is converted by the remaining entries; the result is never empty |
| Day05.RangeImageNonEmpty | day-5/src/main.rs:141-167 | a non-empty range converts to non-empty ranges |
| Day05.MatchItemSkip | day-5/src/main.rs:79-91 | an entry that does not cover the item can be skipped |
| Day05.RangeImageComplete | day-5/src/main.rs:141-167 | the converted ranges cover the conversion of every value of the range |
| Day05.RangeImageSound | day-5/src/main.rs:141-167 | every value the converted ranges cover is the conversion of some value of the range |
| Day05.ImageAll | day-5/src/main.rs:141-167 | a non-empty list of ranges converts to a non-empty list |
| Day05.ImageAllNonEmpty | day-5/src/main.rs:141-167 | non-empty ranges stay non-empty |
| Day05.ImageAllComplete | day-5/src/main.rs:141-167 | the conversion of every covered value is covered by the output |
| Day05.ImageAllSound | day-5/src/main.rs:141-167 | every covered output value is the conversion of a covered input value |
| Day05.ThroughRanges | day-5/src/main.rs:177-181 | a non-empty list of ranges stays non-empty through every table |
| Day05.ThroughRangesExact | day-5/src/main.rs:177-181 | through all tables the output covers exactly the converted values of the seed ranges |
| Day05.MinStart | day-5/src/main.rs:182 | the least start is attained and no larger than any start; absent only for no ranges |
| Day05.MinStartIsLowest | day-5/src/main.rs:169-184 | the least start of the final ranges is the least converted value of any seed of the ranges |
| Day05.SeedPair | day-5/src/main.rs:174-176 | a pair (start, count) is the range of start .. start + count - 1, absent (underflow) when both are zero |
| Day05.SeedRanges | day-5/src/main.rs:174-176 | k pairs give k ranges |
| Day05.SeedRangesExact | day-5/src/main.rs:174-176 | with positive counts the ranges are non-empty and cover exactly the seeds of the pairs |
| Day05.LowestOfRangesIsLowest | day-5/src/main.rs:169-184 | with positive counts, at least one pair and valid tables, the answer exists, is the location of some seed of the pairs, and is no larger than the location of any of them |
| Day05.Proc2 | day-5/src/main.rs:169-184 | the answer of part two for the parsed almanac; absent where the source panics |
| Day05.BuildSeedRanges | day-5/src/main.rs:172-176 | the loop builds the ranges of the pairs, or stops where a pair underflows |
| Day05.ConvertRanges | day-5/src/main.rs:177-181 | the loop carries the ranges through every table in order |
| Day05.PairsStayNone | day-5/src/main.rs:174-176 | a pair that underflows makes all later prefixes fail |
| Day05.SeedsParser | day-5/src/main.rs:29-35 | a parse yields at least one seed and consumes input |
| Day05.MapItemParser | day-5/src/main.rs:37-41 | a parsed entry consumes input |
| Day05.BlockParser | day-5/src/main.rs:43-48 | a parsed table has at least one entry and consumes input |
| Day05.BlockListParser | day-5/src/main.rs:50-53 | a parsed list has at least one table |
| Day05.MapParser | day-5/src/main.rs:55-61 | a parsed almanac has at least one seed and one table |
| Day05.MapItemOfShow | day-5/src/main.rs:37-41 | an entry printed as three numbers reads back as itself |
| Day05.ItemsTailOfShow | day-5/src/main.rs:43-48 | printed entry lines read back as the entries |
| Day05.HeaderOfShow | day-5/src/main.rs:45 | a header line without line breaks is read up to its newline |
| Day05.BlockOfShow | day-5/src/main.rs:43-48 | a printed table reads back as its entries |
| Day05.BlocksTailOfShow | day-5/src/main.rs:50-53 | printed tables after blank lines read back as the tables |
| Day05.BlockListOfShow | day-5/src/main.rs:50-53 | a printed list of tables reads back as the tables |
| Day05.MapParserOfShow | day-5/src/main.rs:55-61 | a printed almanac reads back as its seeds and tables |
| Day06.DigitParser | day-6/src/main.rs:33-36 | after any blanks, a non-empty run of digits is taken, and the rest does not start with a digit |
| Day06.Numerals | day-6/src/main.rs:27 | the numerals read are non-empty runs of digits |
| Day06.LineParser | day-6/src/main.rs:24-31 | a parsed line has at least one numeral and consumes input |
| Day06.Parse | day-6/src/main.rs:38-43 | both lines hold numerals |
| Day06.ParseU64 | day-6/src/main.rs:47 | a numeral parses exactly when its value is below 2^64, to that value |
| Day06.PartTwo | day-6/src/main.rs:66-68 | the joined numerals parse exactly when there is at least one and their value is below 2^64, and then to that value |
| Day06.PartOne | day-6/src/main.rs:45-49 | every numeral read on its own; absent exactly when one of them overflows |
| Day06.Join | day-6/src/main.rs:67 | the joined numerals are digits, and non-empty for a non-empty list |
| Day06.DecimalValueAppend | day-6/src/main.rs:66-68 | appending digits shifts the value of the first part by the number of appended digits |
| Day06.PartTwoShifts | day-6/src/main.rs:66-68 | part two reads the first numeral shifted past the digits of all the later ones |
| Day06.PartsAgreeOnOne | day-6/src/main.rs:45-49 | for a single numeral both readings give its value |
| Day06.WinCount | day-6/src/main.rs:85 | the count of winning holds below n is at most n |
| Day06.CalcBruteForce | day-6/src/main.rs:84-86 | the count cast to u32 is below 2^32 |
| Day06.WinCountBound | day-6/src/main.rs:85 | holding for no time never wins, so at most t - 1 holds win |
| Day06.BeatsSymmetric | day-6/src/main.rs:85 | holding for x wins exactly when holding for t - x wins |
| Day06.BeatsInterval | day-6/src/main.rs:85 | the winning holds form an interval |
| Day06.WinCountOfInterval | day-6/src/main.rs:85 | when the winners are exactly [a, b], the count below n is the size of [a, b] cut at n |
| Day06.CountOfWinningRun | day-6/src/main.rs:84-86 | a winning run from a to b bounded by losing holds gives b - a + 1 ways |
| Day06.ExampleSeven | day-6/src/main.rs:125-133 | calc_brute_force(7, 9) is 4 |
| Day06.ExampleFifteen | day-6/src/main.rs:125-133 | calc_brute_force(15, 40) is 8 |
| Day06.ExampleThirty | day-6/src/main.rs:125-133 | calc_brute_force(30, 200) is 9 |
| Day06.ProductZero | day-6/src/main.rs:63 | the product is zero exactly when some paired race has no way to win (after the u32 cast) |
| Day06.Proc1 | day-6/src/main.rs:58-64 | the product of the ways over the races paired by zip; absent exactly when parsing or a numeral fails |
| Day06.Proc2 | day-6/src/main.rs:70-82 | the ways of the single race read with the blanks removed; absent exactly when parsing or a number fails |
| Day06.Shown | day-6/src/main.rs:27 | one token per number, as the number is printed |
| Day06.NumeralsOfShow | day-6/src/main.rs:27-36 | printed blank-separated numbers read back as their numerals |
| Day06.LineParserOfShow | day-6/src/main.rs:24-31 | a printed line reads back as its numerals |
| Day06.ParseOfShow | day-6/src/main.rs:38-43 | a printed sheet reads back as the numerals of both lines |
| Day06.PartOneOfShown | day-6/src/main.rs:45-49 | printed numbers below 2^64 come back from part one as themselves |
| Day07.CardToInt | day-7/src/main.rs:44-47 | a card converts exactly when it is in its order (the joker order when jokers are wild), to the index holding it, below 13 |
| Day07.ProcessHand | day-7/src/main.rs:49-54 | a hand converts exactly when every card does, card by card in the same order |
| Day07.ExampleProcessHand | day-7/src/main.rs:140-150 | "32T3K" converts to 11, 12, 4, 11, 1 without jokers, and its line with bid 765 scores [5, 11, 12, 4, 11, 1] |
| Day07.ExampleProcessJokerHand | day-7/src/main.rs:154-161 | "T55J5" converts to 3, 8, 8, 12, 8 with jokers, and its line with bid 684 scores [1, 3, 8, 8, 12, 8] |
| Day07.CountKinds | day-7/src/main.rs:61-77 | the first loop leaves each kind's card count (jokers apart when wild), the joker count and an index of a largest count |
| Day07.TallyGroups | day-7/src/main.rs:84-96 | the second loop counts the kinds with exactly five, four, three and two cards |
| Day07.HandType | day-7/src/main.rs:98-106 | the type code is at most 6, and each code holds exactly under its match arm: 0 for one five, 1 for one four, 2 for one three and one pair, 3 for one three otherwise, 4 for two pairs, 5 for one pair, 6 for anything else, each arm applying only when the earlier ones do not |
| Day07.GetHandScore | day-7/src/main.rs:60-111 | the result is the hand's type followed by the hand, whichever largest group the jokers join |
| Day07.ExampleHandKind | day-7/src/main.rs:140-150 | the hand 11, 12, 4, 11, 1 without jokers is one pair, type 5 |
| Day07.ExampleJokerHandKind | day-7/src/main.rs:154-161 | the hand 3, 8, 8, 12, 8 with jokers is four of a kind, type 1 |
| Day07.FourOfAKind | day-7/src/main.rs:98-100 | without wild jokers a five-card hand has type 1 exactly when one kind has four of its cards |
| Day07.LargestKindExists | day-7/src/main.rs:67-77 | some kind other than the joker holds a largest count, so the jokers always have a group to join |
| Day07.WildHistogram | day-7/src/main.rs:79-81 | turning every joker into the kind m gives m's count plus the jokers and leaves the other counts |
| Day07.PromotedWild | day-7/src/main.rs:79-96 | adding the jokers to a largest group before tallying gives the same tallies as promoting them |
| Day07.JokersJoinLargest | day-7/src/main.rs:60-106 | with wild jokers a hand has the type that it has without wild jokers once every joker is read as a kind of largest count |
| Day07.CountUpdate | day-7/src/main.rs:79-81 | raising one group changes the tallies by removing its old size and adding its new one |
| Day07.HistogramSum | day-7/src/main.rs:67-77 | every card is counted once: the kind counts plus the jokers add up to the hand size |
| Day07.PromotedSum | day-7/src/main.rs:79-81 | after the jokers join the largest group the group sizes still add up to the hand size |
| Day07.FiveOfAKind | day-7/src/main.rs:98-99 | without wild jokers a five-card hand has type 0 exactly when one kind has all five cards |
| Day07.FiveOnlyOnce | day-7/src/main.rs:86-96 | among thirteen group sizes adding up to five, a group of five is the only one of size five |
| Day07.SeqLeTotal | day-7/src/main.rs:124 | the lexicographic order on scores is total |
| Day07.SeqLeAntisymmetric | day-7/src/main.rs:124 | the lexicographic order on scores is antisymmetric |
| Day07.SeqLeTransitive | day-7/src/main.rs:124 | the lexicographic order on scores is transitive |
| Day07.PairLeTotal | day-7/src/main.rs:124 | the order on (score, bid) pairs is total |
| Day07.PairLeAntisymmetric | day-7/src/main.rs:124 | the order on (score, bid) pairs is antisymmetric |
| Day07.PairLeTransitive | day-7/src/main.rs:124 | the order on (score, bid) pairs is transitive |
| Day07.Insert | day-7/src/main.rs:124 | inserting adds exactly one element to the multiset |
| Day07.InsertSorted | day-7/src/main.rs:124 | inserting into an ascending list keeps it ascending |
| Day07.SortHands | day-7/src/main.rs:124 | `sort` yields an ascending permutation of the hands |
| Day07.SortedSameHead | day-7/src/main.rs:124 | two ascending arrangements of the same hands start with the same hand |
| Day07.SortedUnique | day-7/src/main.rs:124 | two ascending arrangements of the same hands are equal |
| Day07.WinningsIgnoreOrder | day-7/src/main.rs:113-132 | the winnings depend only on the multiset of hands, not on the input order |
| Day07.ParseLine | day-7/src/main.rs:32-38 | a parsed line has five cards and consumes input |
| Day07.ParseLines | day-7/src/main.rs:40-42 | every parsed line has five cards |
| Day07.Parse | day-7/src/main.rs:40-42 | `many1` yields a non-empty list of five-card lines |
| Day07.ParseLineOfShow | day-7/src/main.rs:32-38 | a printed line (any five characters, a blank, a u32 bid, a newline) parses back to its cards and bid |
| Day07.ParseLinesOfShow | day-7/src/main.rs:40-42 | printed lines parse back to the same list, consuming the whole input |
| Day07.ParseOfShow | day-7/src/main.rs:40-42 | `parse` reads back a non-empty printed list |
| Day07.ExampleLine | day-7/src/main.rs:140-146 | "32T3K 765\n" parses to its cards and bid 765 with nothing left |
| Day07.ExampleJokerLine | day-7/src/main.rs:154-157 | "T55J5 684\n" parses to its cards and bid 684 with nothing left |
| Day07.ScoreAll | day-7/src/main.rs:118-122 | the hands are scored exactly when every line scores, each in its line's place |
| Day07.ScoreLineMeaning | day-7/src/main.rs:119-121 | a line scores exactly when its cards are known; the score is the type followed by the converted cards, beside the bid |
| Day07.ScoreOne | day-7/src/main.rs:119-121 | the loop body computes the line's score |
| Day07.ScoreHands | day-7/src/main.rs:116-122 | the loop collects the scores of all lines in order, or fails where a card is unknown |
| Day07.SumRanks | day-7/src/main.rs:126-131 | walking the sorted hands from the strongest, the total is the sum of each bid times its rank |
| Day07.Proc | day-7/src/main.rs:113-132 | the answer is the rank-weighted sum of the bids of the sorted scored hands; None where parsing or a card fails |
| Day08.ParseDirection | day-8/src/main.rs:18-23 | succeeds exactly when a non-empty run of 'L'/'R' is followed by two newlines, and returns that run and what follows |
| Day08.ParseNode | day-8/src/main.rs:25-34 | a parsed node is three non-empty runs of letters laid out as "NAME = (LEFT, RIGHT)" and a newline |
| Day08.Parse | day-8/src/main.rs:36-41 | a parsed input has non-empty 'L'/'R' directions and at least one node |
| Day08.MapOfLastWins | day-8/src/main.rs:46-48 | the map holds exactly the parsed names, each with the successors of the last line naming it |
| Day08.BuildMap | day-8/src/main.rs:44-48 | the insertion loop builds that map |
| Day08.KeyAfterStaysNone | day-8/src/main.rs:50-62 | once a lookup has failed, no later step reaches a name |
| Day08.Calc | day-8/src/main.rs:43-68 | the answer is found exactly when some step within the fuel lands on "ZZZ"; it is the first such step, counted from 1 |
| Day08.Proc1 | day-8/src/main.rs:71-74 | parse, then walk: the first step on "ZZZ" for the parsed directions and map |
| Day08.ParseNodeOfShow | day-8/src/main.rs:25-34 | a printed node line reads back to its three names |
| Day08.ParseNodesOfShow | day-8/src/main.rs:36-41 | printed node lines read back to the same list, consuming the input |
| Day08.ParseDirectionOfShow | day-8/src/main.rs:18-23 | printed directions followed by an empty line read back |
| Day08.ParseOfShow | day-8/src/main.rs:36-41 | `parse` reads back printed directions and node lines |
| Day08.ExampleNode | day-8/src/main.rs:99-106 | "AAA = (BBB, CCC)\n" is node AAA with successors BBB and CCC and nothing left |
| Day08.ExampleDirections | day-8/src/main.rs:91-96 | "RL\n\n" is the directions R, L with nothing left |
| Day09.Unsigned | day-9/src/main.rs:19-19 | a run of digits parses as a value below 2^31 (the i32 `parse`), with the rest not starting with a digit |
| Day09.Digit1I32 | day-9/src/main.rs:17-22 | an optional '-' then an i32 run of digits; the result lies strictly between -2^31 and 2^31, and a negative value needs the sign |
| Day09.Digit1I32OfShow | day-9/src/main.rs:17-22 | every printed i32 other than -2^31 reads back as itself, whatever non-digit follows |
| Day09.ExampleNegative | day-9/src/main.rs:73-78 | "-123" reads as -123 with nothing left |
| Day09.ParseRow | day-9/src/main.rs:24-26 | a parsed row is non-empty and consumes input |
| Day09.ParseRowOfShow | day-9/src/main.rs:24-26 | a printed row of blank-separated i32 values and a newline reads back as the same row |
| Day09.ListTailRest | day-9/src/main.rs:24-26 | the blank-separated list stops at the newline whatever follows it |
| Day09.ParseRows | day-9/src/main.rs:28-30 | every parsed row is non-empty |
| Day09.Parse | day-9/src/main.rs:28-30 | `many1` succeeds only with at least one row |
| Day09.ParseRowsOfShow | day-9/src/main.rs:28-30 | printed rows read back as the same rows and consume the whole input |
| Day09.ExtrapolateSomeIff | day-9/src/main.rs:32-50 | the extrapolation succeeds exactly when some difference row, before the rows run out, is all zeros |
| Day09.ExtrapolateExtends | day-9/src/main.rs:32-50 | the extrapolated value continues the sequence: appending it extends the difference row by that row's own extrapolation, and a zero row stays zero |
| Day09.SingleNonZeroFails | day-9/src/main.rs:36-40 | a single non-zero value has no extrapolation (the next row is empty and `last().unwrap()` fails) |
| Day09.ExtrapolateConstant | day-9/src/main.rs:32-50 | a constant row of two or more values extrapolates to that constant |
| Day09.ExtrapolateLinear | day-9/src/main.rs:32-50 | an arithmetic progression of three or more terms extrapolates to its next term |
| Day09.CalcLine | day-9/src/main.rs:32-50 | the loop that adds the last element and moves to the differences until a zero row returns the extrapolation |
| Day09.ExampleLinear | day-9/src/main.rs:81-85 | 0 3 6 9 12 15 extrapolates to 18 |
| Day09.ExampleQuadratic | day-9/src/main.rs:87-89 | 1 3 6 10 15 21 extrapolates to 28 |
| Day09.ExampleCubic | day-9/src/main.rs:91-93 | 10 13 16 21 30 45 extrapolates to 68 |
| Day09.Calc1 | day-9/src/main.rs:52-54 | the sum is defined exactly when every row extrapolates |
| Day09.Proc1 | day-9/src/main.rs:52-59 | part one succeeds exactly when the input parses and every parsed row extrapolates; the extrapolation of `calc_line` is Extrapolate, characterised by ExtrapolateSomeIff and ExtrapolateExtends |
| Day09.Proc1OfShow | day-9/src/main.rs:56-59 | on printed rows, parsing recovers the rows and `proc_1` is `calc_1` of them |
| Day10.ParseLine | day-10/src/main.rs:35-37 | a parsed line is a non-empty run of tiles and consumes input |
| Day10.ParseLines | day-10/src/main.rs:39-41 | every collected line is a non-empty row of tiles |
| Day10.Parse | day-10/src/main.rs:39-41 | `many1`: a successful parse has at least one tile row |
| Day10.ParseLineOfShow | day-10/src/main.rs:35-37 | a row of tiles followed by a newline reads back as that row, whatever follows |
| Day10.ParseLinesOfShow | day-10/src/main.rs:39-41 | printed tile rows read back as the same rows, consuming the whole input |
| Day10.ExampleLine | day-10/src/main.rs:175-180 | ".S-7.\n" is one row of five tiles with nothing left |
| Day10.Analyzed | day-10/src/main.rs:43-60 | the grid has one node per tile, in the shape of the input |
| Day10.LastS | day-10/src/main.rs:43-60 | the last 'S' of a row: an 'S' with none after it, or None when the row has no 'S' |
| Day10.StartInMeaning | day-10/src/main.rs:43-60 | the start is the last 'S' in reading order (every 'S' comes no later), or (0, 0) when there is none |
| Day10.StartInGrid | day-10/src/main.rs:43-60 | the start lies in the grid whenever the grid has a tile |
| Day10.AnalyzeRow | day-10/src/main.rs:47-57 | one row's nodes, and the start moved to the row's last 'S' if it has one |
| Day10.Analyze | day-10/src/main.rs:43-60 | the grid of nodes without neighbours, and the last 'S' as the start |
| Day10.AnalyzedLinked | day-10/src/main.rs:43-60 | a fresh grid has no neighbours that could lie outside it |
| Day10.Target | day-10/src/main.rs:62-94 | the neighbour in each direction stays in the grid whose width is the first row's |
| Day10.TargetIsAdjacent | day-10/src/main.rs:62-94 | a neighbour is one step away, and different directions give different neighbours |
| Day10.Connectors | day-10/src/main.rs:104-131 | each pipe tile has two distinct directions, and '.' and 'S' have none |
| Day10.PushMaybe | day-10/src/main.rs:62-94 | pushing a position keeps the grid's shape |
| Day10.PushMaybeAt | day-10/src/main.rs:62-94 | a push appends the position to the target cell's list and leaves every other cell alone |
| Day10.RegisteredSound | day-10/src/main.rs:96-135 | whatever is registered with a cell comes earlier in reading order and faces that cell |
| Day10.RegisteredComplete | day-10/src/main.rs:96-135 | every earlier tile that faces a cell is registered with it |
| Day10.RegisteredIff | day-10/src/main.rs:96-135 | a position is registered with a cell exactly when it comes earlier and faces that cell |
| Day10.RegisteredAdjacent | day-10/src/main.rs:96-135 | registered positions lie in the grid and are one step from the cell |
| Day10.RegisteredDistinct | day-10/src/main.rs:96-135 | a cell's registrations come in reading order and never repeat |
| Day10.GroundRegistersNothing | day-10/src/main.rs:104-131 | '.' and 'S' tiles register with no one |
| Day10.RegisterAtCell | day-10/src/main.rs:104-131 | one tile's pushes add its position to exactly the cells it faces |
| Day10.BuildStep | day-10/src/main.rs:100-134 | processing the next tile extends the built prefix by one position |
| Day10.BuiltGrid | day-10/src/main.rs:96-135 | the finished grid appends to each cell every facing tile, in reading order |
| Day10.BuiltGridUnique | day-10/src/main.rs:96-135 | any grid fully built from the fresh one is the same grid |
| Day10.BuiltLinked | day-10/src/main.rs:96-135 | building keeps the shape and keeps every neighbour inside the grid |
| Day10.Grid.AdjacentPush | day-10/src/main.rs:62-94 | the in-place push appends the position to the target cell, if there is one |
| Day10.Grid.Register | day-10/src/main.rs:104-131 | the per-tile `match` performs exactly that tile's two pushes |
| Day10.Grid.RegisterRow | day-10/src/main.rs:101-133 | after the inner loop, the whole row has been processed |
| Day10.Grid.BuildAdjacencyList | day-10/src/main.rs:96-135 | the in-place build leaves exactly the built grid |
| Day10.FirstAdmissibleMeaning | day-10/src/main.rs:146-154 | the chosen neighbour is admissible and no earlier one is; None exactly when none is |
| Day10.NextMeaning | day-10/src/main.rs:146-154 | the next position is the first admissible neighbour of the current one |
| Day10.Next | day-10/src/main.rs:146-154 | the next position is a neighbour of the current one and lies in the grid |
| Day10.WalkFuel | day-10/src/main.rs:144-158 | once the walk has stopped, more fuel changes nothing, and a walk of n moves needs n units |
| Day10.WalkStep | day-10/src/main.rs:144-158 | one move adds one to the length of the rest of the walk |
| Day10.FindNext | day-10/src/main.rs:146-154 | the inner loop returns the first admissible neighbour, or None |
| Day10.TravelMap | day-10/src/main.rs:137-161 | the walk's number of moves, plus one, halved |
| Day10.Proc1 | day-10/src/main.rs:163-169 | parse, analyse, build and walk, with None where the source panics |
| Day10.Proc1SpecOf | day-10/src/main.rs:163-169 | `proc_1` is the half walk from the start over the built grid |
| Day10.LoopProc | day-10/src/main.rs:163-169 | the 2 by 2 square loop gives a farthest distance of 2 |
| CharGrid.ParseRow | day-11/src/main.rs:20-22 | a parsed row is a non-empty run of allowed characters and consumes input |
| CharGrid.ParseRows | day-11/src/main.rs:24-26 | every collected row is non-empty and made of allowed characters |
| CharGrid.ParseGrid | day-11/src/main.rs:24-26 | `many1`: a successful parse has at least one row |
| CharGrid.ParseRowOfShow | day-11/src/main.rs:20-22 | a row followed by a newline reads back as that row, whatever follows |
| CharGrid.ParseRowsOfShow | day-11/src/main.rs:24-26 | printed rows read back as the same rows and stop exactly at what follows, when that does not start with an allowed character |
| CharGrid.ParseGridOfShow | day-11/src/main.rs:24-26 | a non-empty printed grid reads back as itself with nothing left |
| CharGrid.ParseGridRejects | day-11/src/main.rs:24-26 | input that does not start with an allowed character is rejected |
| Day11.Parse | day-11/src/main.rs:24-26 | the parsed image has at least one row, and every row is non-empty and made of '.' and '#' |
| Day11.HashAboveIff | day-11/src/main.rs:39-44 | a column is marked as holding a galaxy exactly when some earlier row has '#' in it |
| Day11.RowGalaxiesIff | day-11/src/main.rs:39-44 | a row lists exactly the positions of its '#' cells |
| Day11.GalaxiesIff | day-11/src/main.rs:35-45 | a position is listed exactly when its cell holds '#' |
| Day11.GalaxiesOrdered | day-11/src/main.rs:35-45 | the galaxies come in strictly increasing reading order, so no '#' is listed twice |
| Day11.ProcessData | day-11/src/main.rs:28-48 | `empty_rows[y]` is 1 exactly for the all-'.' rows and `empty_cols[x]` is 1 exactly for the columns without '#', the galaxies in reading order; None exactly when a '#' lies beyond the first row's width |
| Day11.CrossedSlice | day-11/src/main.rs:59-60 | the count of empty lines in [lo, hi) is the sum of the slice `flags[lo..hi]` |
| Day11.CrossedSplit | day-11/src/main.rs:59-60 | counts over adjacent ranges add up |
| Day11.ExpandedGap | day-11/src/main.rs:56-63 | along one axis, the gap between expanded coordinates is the plain gap plus `expand - 1` for each empty line crossed |
| Day11.ExpandedDistance | day-11/src/main.rs:55-66 | a pair's term is the Manhattan distance between the galaxies' positions in the expanded image |
| Day11.PairsLinear | day-11/src/main.rs:55-66 | a sum over pairs of a term `g + c * h` is the sum of the g's plus c times the sum of the h's |
| Day11.TotalLinear | day-11/src/main.rs:55-66 | the answer is the plain Manhattan sum plus `expand - 1` for every empty line each pair crosses; with `expand = 1` it is the plain sum |
| Day11.TotalMonotone | day-11/src/main.rs:63-63 | the answer grows with `expand` |
| Day11.SumDistances | day-11/src/main.rs:54-68 | the loop over `tuple_combinations` adds up every pair's term |
| Day11.Proc1 | day-11/src/main.rs:50-69 | parse, record the galaxies and the empty lines, and add up the pairs; None where the source panics |
| Day11.SmallAnswer | day-11/src/main.rs:50-69 | the three-row image with one empty row sums to 2 + `expand` |
| Day11.SmallProc | day-11/src/main.rs:50-69 | the text of that image gives 4 for `expand = 2` and 12 for `expand = 10` |
| Day12.ParseList | day-12/src/main.rs:28-34 | `separated_list1(char(','), digit1_u32)`: a non-empty list of numbers below 2^32, and strictly shorter remaining input |
| Day12.ParseLine | day-12/src/main.rs:36-43 | a parsed line has a non-empty row made only of '.', '#', '?', and a non-empty list of u32 values |
| Day12.CommaTailOfShow | day-12/src/main.rs:32-34 | comma-separated numbers printed and read back give the same list, stopping before what follows |
| Day12.Parse | day-12/src/main.rs:45-47 | `many1(parse_line)` succeeds only with at least one line |
| Day12.ParseLineOfShow | day-12/src/main.rs:36-43 | a printed line (row, blank, list, newline) parses back to the same row and list and leaves the rest |
| Day12.ParseLinesOfShow | day-12/src/main.rs:45-47 | printed lines parse back to the same lines with nothing left over |
| Day12.NoGroups | day-12/src/main.rs:85-91 | with no runs left, the count is 1 when no '#' remains and 0 otherwise |
| Day12.TooShort | day-12/src/main.rs:93-104 | with runs left, empty data or fewer cells than the first run gives 0 |
| Day12.GroupBlocked | day-12/src/main.rs:56-71 | `read_bang` gives 0 when a '.' lies inside the first run or a '#' directly follows it |
| Day12.GroupAtEnd | day-12/src/main.rs:74-78 | a run ending exactly at the end of the data counts 1 if it is the last run, 0 otherwise |
| Day12.WaysSplit | day-12/src/main.rs:106-125 | an unknown cell anywhere in the row contributes the ways with it damaged plus the ways with it working |
| Day12.KnownWays | day-12/src/main.rs:81-130 | on a row with no '?', the count is 1 exactly when the row's runs of '#' are the list |
| Day12.CountsFillings | day-12/src/main.rs:49-130 | for positive run lengths, `solve` counts exactly the fillings of the '?' cells whose runs of '#' equal the list |
| Day12.ReadBang | day-12/src/main.rs:49-79 | the cached `read_bang` returns the uncached count of arrangements whose first run starts at the first cell, and keeps the cache sound |
| Day12.Solve | day-12/src/main.rs:81-130 | the cached `solve` returns the uncached count, since its keys (suffix lengths) identify the suffixes; every cache entry stays equal to that count |
| Day12.SolveLine | day-12/src/main.rs:136 | `solve` with a fresh cache gives the count for the whole row |
| Day12.PartTwoProcessData | day-12/src/main.rs:149-160 | the row repeated five times joined by '?', and the list repeated five times |
| Day12.UnfoldLength | day-12/src/main.rs:149-160 | the unfolded row of n cells has 5n + 4 cells (in general (k+1)(n+1) - 1) |
| Day12.UnfoldAt | day-12/src/main.rs:149-160 | copy i of the row starts at offset i(n+1), and a '?' follows every copy but the last |
| Day12.RepeatAt | day-12/src/main.rs:149-160 | the repeated list holds copy i of the list at offset i·len |
| Day12.SumLines | day-12/src/main.rs:132-147 | the per-line counts, after unfolding when asked, are added up |
| Day12.Proc1 | day-12/src/main.rs:132-138 | part one: the sum of the counts, or None when the input does not parse |
| Day12.Proc2 | day-12/src/main.rs:140-147 | part two: the sum of the counts of the unfolded lines, or None when the input does not parse |
| Day12Examples.SolveExample1 | day-12/src/main.rs:175-178 | "???.###" with runs 1,1,3 has 1 arrangement |
| Day12Examples.SolveExample2 | day-12/src/main.rs:180-185 | ".??..??...?##." with runs 1,1,3 has 4 arrangements |
| Day12Examples.SolveExample3 | day-12/src/main.rs:187-190 | "?###????????" with runs 3,2,1 has 10 arrangements |
| Day12Examples.ExpandExample | day-12/src/main.rs:201-223 | unfolding the 14-cell test row gives five copies of the row joined by '?' (74 cells), and the list five 1s gives twenty-five 1s |
| CharGrid.ParseGridOfShowThen | day-13/src/main.rs:26-27 | a printed grid followed by text that does not start with a cell reads back as that grid, leaving that text |
| CharGrid.SkipNewlines | day-13/src/main.rs:28 | `many0(newline)`: what remains is a suffix that does not start with a newline, and everything dropped was a newline |
| Day13.ParseBlock | day-13/src/main.rs:26-31 | a block is a non-empty list of non-empty rows of '.', '#', '?', and parsing it consumes input |
| Day13.ParseBlocks | day-13/src/main.rs:33-35 | every block collected is a non-empty list of non-empty cell rows |
| Day13.Parse | day-13/src/main.rs:33-35 | `many1`: a successful parse has at least one block |
| Day13.ParseBlocksOfShow | day-13/src/main.rs:19-35 | blocks printed with a blank line after each read back as the same blocks |
| Day13.ParseOfShow | day-13/src/main.rs:33-35 | a non-empty list of printed blocks parses back to itself |
| Day13.ParseRejects | day-13/src/main.rs:33-35 | input that does not start with a cell has no block and fails to parse |
| Day13.Reach | day-13/src/main.rs:41-56 | the number of row pairs compared for a line is at least one, never passes either edge, and stops at the nearer one |
| Day13.FirstHor | day-13/src/main.rs:40-63 | the result is the first line (from a given row) whose difference count is 0 in part one or 1 in part two, lies below height-1, and no earlier line qualifies; None means no line qualifies |
| Day13.OneRow | day-13/src/main.rs:40 | a block with one row has no horizontal line |
| Day13.FindHor | day-13/src/main.rs:37-64 | `find_hor` returns exactly the first reflecting line between rows (the nested loops compute the mirrored difference count) |
| Day13.MirrorSumCount | day-13/src/main.rs:44-57 | the difference counter equals the number of cells that differ from their mirror image within reach of the line |
| Day13.ReflectsMeaning | day-13/src/main.rs:58 | a line passes in part one iff no mirrored cell differs, and in part two iff exactly one does |
| Day13.NoSmudge | day-13/src/main.rs:44-58 | no mismatched cell means every cell in reach equals its reflection, and back |
| Day13.FirstVer | day-13/src/main.rs:70-93 | the first reflecting line between columns, below width-1, none earlier; None means none qualifies |
| Day13.FindVer | day-13/src/main.rs:67-94 | `find_ver` returns exactly the first reflecting line between columns |
| Day13.Transpose | day-13/src/main.rs:67-94 | the transposed block has one row per column of the first row, each as long as the block is high |
| Day13.ColDiffTranspose | day-13/src/main.rs:75-79 | comparing two columns is comparing two rows of the transposed block |
| Day13.ColMirrorTranspose | day-13/src/main.rs:74-87 | the column difference count is the row difference count of the transposed block |
| Day13.VerLineTranspose | day-13/src/main.rs:67-94 | `find_ver` finds what `find_hor` finds in the transposed block |
| Day13.ProcessBlock | day-13/src/main.rs:96-104 | a horizontal line i scores (i+1)*100, otherwise a vertical line i scores i+1, otherwise the block fails (`unreachable!`) |
| Day13.ProcessBlockScore | day-13/src/main.rs:96-104 | a block fails iff it has neither a reflecting row line nor a reflecting column line; any reflecting row line gives a score between 100 and 100 times its row count |
| Day13.ScoresDefined | day-13/src/main.rs:109 | the sum exists exactly when every block is well shaped and scores |
| Day13.ScoresStep | day-13/src/main.rs:109 | adding one scoring block adds its score to the sum |
| Day13.ScoresFail | day-13/src/main.rs:102-109 | one block that cannot score makes the whole sum fail |
| Day13.Proc | day-13/src/main.rs:106-110 | `proc` is the sum of the block scores, or a failure when parsing or any block fails |
| Day14.Parse | day-14/src/main.rs:39-44 | the platform is a non-empty list of non-empty rows of '.', '#', 'O', with the trailing blank lines dropped |
| Day14.ParseOfShow | day-14/src/main.rs:32-44 | a printed platform, with or without a trailing blank line, parses back whole with nothing left |
| Day14.Column | day-14/src/main.rs:13-16 | column c of a rectangular grid has one cell per row, the row's cell c |
| Day14.StrideShift | day-14/src/main.rs:15 | stepping through the flattened rows past the first row is stepping through the rest |
| Day14.StrideColumn | day-14/src/main.rs:13-16 | on rows of one width, `skip(col).step_by(width)` over the flattened rows picks cell `col` of every row |
| Day14.ColIterColumn | day-14/src/main.rs:13-16 | `col_iter(c)` yields column c from top to bottom on a rectangular grid |
| Day14.RunBounds | day-14/src/main.rs:49-58 | the scan of a column scores between 1 and `height` per round rock |
| Day14.NoRocks | day-14/src/main.rs:52-57 | a column without round rocks scores nothing: '.' and '#' add no load |
| Day14.RunAt | day-14/src/main.rs:51-58 | one step of the scan: 'O' adds `height - slot` and takes the slot, '#' moves the free slot to `idx+1`, '.' changes nothing |
| Day14.TiltFrom | day-14/src/main.rs:49-58 | tilting keeps the length of the column |
| Day14.RunIsTiltFrom | day-14/src/main.rs:49-58 | part way through a stretch, the scan plus the load of the rocks already passed equals the load of the tilted remainder |
| Day14.RunIsTiltLoad | day-14/src/main.rs:46-62 | the scan of a column equals the load of that column after all round rocks roll north |
| Day14.TiltKeeps | day-14/src/main.rs:46-62 | tilting keeps the number of round rocks and leaves every cube rock in place |
| Day14.TiltSettled | day-14/src/main.rs:46-62 | after tilting no round rock has an empty cell directly north of it |
| Day14.LoadIsTilted | day-14/src/main.rs:46-62 | the total of `calc_1` is the north load of the tilted platform, column by column |
| Day14.LoadBounds | day-14/src/main.rs:46-62 | the total is at least the number of round rocks and at most `height` times it |
| Day14.Calc1 | day-14/src/main.rs:46-62 | `calc_1` adds up the scans of every column read through `col_iter` |
| Day14.Proc | day-14/src/main.rs:64-69 | `proc` is `calc_1` of the parsed platform, or a failure when parsing fails or rows differ in length |
| Day15.HashOf | day-15/src/main.rs:27-37 | the hash of any step is below 256 |
| Day15.Hash | day-15/src/main.rs:27-37 | the loop of add-code, times 17, modulo 256 computes HashOf of the step |
| Day15.NoWrap | day-15/src/main.rs:31-33 | the running value stays below 2^32, so `u32` arithmetic never wraps |
| Day15.HashEmpty | day-15/src/main.rs:28 | the empty step hashes to 0 |
| Day15.HashOfHASH | day-15/src/main.rs:57-62 | "HASH" hashes to 52 |
| Day15.HashIsWeights | day-15/src/main.rs:27-37 | the hash equals the sum of the character codes weighted by powers of 17, modulo 256 |
| Day15.HashAppend | day-15/src/main.rs:30-34 | hashing a concatenation continues from the hash of the prefix |
| Day15.ParseBlock | day-15/src/main.rs:16-18 | a step is one or more characters other than ',' and newline, and fails exactly when the input is empty or starts with one of those |
| Day15.MoreBlocks | day-15/src/main.rs:21 | every further element is a step and the rest never grows |
| Day15.ParseList | day-15/src/main.rs:21 | a successful list holds at least one step and nothing but steps |
| Day15.Parse | day-15/src/main.rs:20-25 | a successful parse holds at least one step and nothing but steps |
| Day15.MoreBlocksOfShow | day-15/src/main.rs:21 | a printed `,step,step…` tail reads back as those steps, stopping at a newline or a comma not followed by a step |
| Day15.ParseOfShow | day-15/src/main.rs:16-25 | comma-joined steps and a newline parse back to the same steps, with what followed left over |
| Day15.TrailingComma | day-15/src/main.rs:21-22 | a comma before the newline is left unconsumed by the list, so the newline is missing and the parse fails |
| Day15.SumHashesBound | day-15/src/main.rs:42 | the answer is at most 255 per step |
| Day15.Proc | day-15/src/main.rs:39-43 | the answer exists exactly when parsing succeeds, and is at most 255 per parsed step |
| Day15.ProcOfShow | day-15/src/main.rs:39-43 | on printed steps the answer is the sum of their hashes, at most 255 per step |
| Day16.Parse | day-16/src/main.rs:39-44 | the grid is a non-empty list of non-empty rows of `.`, `/`, `\`, `-`, `|`, with trailing blank lines dropped |
| Day16.ParseOfShow | day-16/src/main.rs:32-44 | a printed grid, with or without a trailing blank line, parses back whole with nothing left |
| Day16.NextDir | day-16/src/main.rs:46-67 | one or two outgoing directions, never straight back; `.` passes the beam; a splitter met edge-on passes it and met flat-on sends it both ways along the splitter; `/` and `\` turn it by a right angle, as reflections of the step vector |
| Day16.MirrorReversible | day-16/src/main.rs:51-63 | a beam sent back along its outgoing direction through the same mirror leaves opposite to how it came |
| Day16.GetNextCell | day-16/src/main.rs:69-106 | nothing exactly when the step in the beam's direction leaves the grid; otherwise the neighbouring cell in that direction, with the direction kept |
| Day16.Moves | day-16/src/main.rs:118-120 | the children are on the grid, each one step from the cell in one of the outgoing directions, and there are at most as many as directions |
| Day16.Children | day-16/src/main.rs:117-120 | the beams leaving a cell are on the grid |
| Day16.Push | day-16/src/main.rs:121-126 | keys are only added; a round that adds no key pushes nothing; every added key is one of the finitely many `u8` keys |
| Day16.PushInGrid | day-16/src/main.rs:121-126 | pushed beams and recorded keys stay on the grid |
| Day16.Shrinks | day-16/src/main.rs:116-127 | a round that records a key strictly shrinks the set of keys still unrecorded, which is why the loop ends |
| Day16.Explore | day-16/src/main.rs:116-127 | the worklist ends, and the keys recorded at the start are kept |
| Day16.ExploreInGrid | day-16/src/main.rs:116-127 | every recorded key names a cell of the grid |
| Day16.BeamCountBounds | day-16/src/main.rs:114-115 | the start cell is always counted, so the count is at least 1, and every counted cell is on the grid |
| Day16.BeamMove | day-16/src/main.rs:108-139 | the pop-and-push loop with the parent-direction key returns the number of distinct cells among the keys the worklist records |
| Day16.Calc1 | day-16/src/main.rs:141-144 | the count for the beam entering the top-left cell heading right, at least 1; nothing when parsing fails |
| Day16.EntriesAt | day-16/src/main.rs:153-171 | the i-th beam a side's loop tries is the i-th cell of that edge, heading inwards |
| Day16.EdgeStarts | day-16/src/main.rs:153-171 | the four loops try 2·height + 2·width beams |
| Day16.EdgeStartsExact | day-16/src/main.rs:153-171 | the beams tried are exactly the on-grid beams whose cell behind them is off the grid |
| Day16.MaxOverUpper | day-16/src/main.rs:151-172 | the running maximum is at least every count folded into it |
| Day16.MaxOverAttained | day-16/src/main.rs:151-172 | the running maximum over a non-empty list equals one of its counts |
| Day16.TrySide | day-16/src/main.rs:153-171 | one side's loop folds that side's beams, in order, into the running maximum |
| Day16.Calc2 | day-16/src/main.rs:146-174 | the largest count over the four sides' entry beams; nothing when parsing fails |
| Day16.Calc2IsBest | day-16/src/main.rs:146-174 | no beam entering from outside the grid gives a larger count than the answer |
| Day16.Calc2Attained | day-16/src/main.rs:146-174 | some beam entering from outside the grid gives exactly the answer |
| Day16.WrittenRun | day-16/src/main.rs:116-127 | on the 3×3 sample grid the worklist with the parent-direction key records exactly six keys |
| Day16.WrittenMisses | day-16/src/main.rs:122-124 | those keys leave cell (2, 1) uncounted |
| Day16.DroppedBeam | day-16/src/main.rs:122-124 | on the sample grid a beam from the start reaches cell (2, 1), the as-written key never counts it, and keying by the beam's own direction does |
| Day16.ClosedStep | day-16/src/main.rs:116-127 | with keys by the beam's own direction, each round keeps every recorded beam either queued or with all its children recorded |
| Day16.ExploreClosed | day-16/src/main.rs:116-127 | with keys by the beam's own direction, the finished worklist has recorded the children of every recorded beam |
| Day16.FixedReachesAll | day-16/src/main.rs:122-124 | with keys by the beam's own direction, every beam on every path from the start is recorded and its cell counted |
| Day16.FixedRun | day-16/src/main.rs:122-124 | with keys by the beam's own direction, cell (2, 1) of the sample grid is counted |
| Day17.CostRow | day-17/src/main.rs:46-49 | each digit of a row becomes its value, position by position |
| Day17.Costs | day-17/src/main.rs:55-56 | one row of values per parsed row of digits |
| Day17.Parse | day-17/src/main.rs:46-60 | the grid is a non-empty list of non-empty rows of digit values, followed by what is left after the trailing newlines |
| Day17.ParseOfShow | day-17/src/main.rs:46-60 | a printed grid of digits parses back to the same values; newlines after it are skipped and anything else is left over |
| Day17.Cmp | day-17/src/main.rs:28-38 | a node is greater in the heap order exactly when its score is smaller, and less exactly when it is larger |
| Day17.TopIsCheapest | day-17/src/main.rs:28-38 | a node the heap may pop has the least score of all nodes in the heap |
| Day17.HeapHasTop | day-17/src/main.rs:202 | a non-empty heap always has a node to pop |
| Day17.Offered | day-17/src/main.rs:62-111 | inside the grid, every offered direction steps onto the grid |
| Day17.OfferedIff | day-17/src/main.rs:62-111 | a direction is offered exactly when it is not the reverse of the current one, stays on the grid, and is not a fourth move in a row the same way; none is offered twice |
| Day17.GetNextDir | day-17/src/main.rs:62-111 | the pushes build exactly the offered list, in the source's order |
| Day17.GetNextNode | day-17/src/main.rs:113-131 | one block in the given direction, the score grows by that block's heat loss, the direction is the new one, and the run length is one more when going straight and 1 after a turn |
| Day17.SameKeyMoves | day-17/src/main.rs:62-131 | two nodes with the same position, direction and run length get the same offered directions and the same next key, with the score difference carried over |
| Day17.Run | day-17/src/main.rs:62-131 | following legal moves stays on the grid and never lowers the score |
| Day17.MinCostUnique | day-17/src/main.rs:181-238 | the least route cost is unique |
| Day17.TrailingRun | day-17/src/main.rs:122 | the straight run at the end of a move list is between 1 and its length when the list is not empty |
| Day17.TrailingStep | day-17/src/main.rs:122 | appending a move extends the straight run by one when it repeats the last move and restarts it at 1 otherwise |
| Day17.RunCounts | day-17/src/main.rs:113-131 | along a legal route from the start the node's direction is the last move and its run length is the number of final moves that go the same way, never more than three |
| Day17.RunPrefix | day-17/src/main.rs:62-131 | every prefix of a legal route is a legal route |
| Day17.NoReverse | day-17/src/main.rs:62-111 | consecutive moves of a legal route never reverse |
| Day17.NoFourInARow | day-17/src/main.rs:72-99 | no four consecutive moves of a legal route are the same |
| Day17.FourRun | day-17/src/main.rs:122 | four equal final moves make a straight run of at least four |
| Day17.RouteShape | day-17/src/main.rs:62-131 | a legal route never starts to the left, never reverses, and never makes four moves in a row one way |
| Day17.InvInit | day-17/src/main.rs:189-198 | the start node with score 0 in the heap and in `visited` satisfies the search invariant |
| Day17.SettlesKept | day-17/src/main.rs:210-233 | a move already accounted for stays accounted for when recorded scores only go down |
| Day17.RelaxedKept | day-17/src/main.rs:210-233 | a key whose moves are all accounted for stays so when other keys' scores only go down |
| Day17.Frontier | day-17/src/main.rs:202-235 | every legal route either ends at a key recorded no worse than the route's cost, or some heap node is no worse than that cost |
| Day17.NoRoute | day-17/src/main.rs:202-237 | once the heap is empty without a target node popped, no legal route reaches the bottom-right block |
| Day17.FoundIsMin | day-17/src/main.rs:202-206 | the first popped node at the bottom-right block carries the least heat loss of all legal routes |
| Day17.InnerStart | day-17/src/main.rs:202-208 | popping a node that is not at the target leaves the invariant for trying its moves |
| Day17.InnerSkip | day-17/src/main.rs:210-213 | a move whose key is already recorded at no worse a score changes nothing |
| Day17.MoveChangesKey | day-17/src/main.rs:113-131 | a move always leads to a different key |
| Day17.PushRoute | day-17/src/main.rs:210-233 | the newly recorded score of a key is backed by a legal route of at most that cost |
| Day17.PushCovered | day-17/src/main.rs:210-233 | recording a better or first score for one key keeps every other key settled or waiting in the heap, and the new key waits in the heap |
| Day17.PushOpen | day-17/src/main.rs:210-233 | pushing the node keeps every heap node no better than its recorded score, the start at 0, and every target key waiting in the heap |
| Day17.PushProgress | day-17/src/main.rs:208-233 | the moves already tried stay accounted for and the current one becomes so |
| Day17.InnerPush | day-17/src/main.rs:210-233 | a score is recorded and the node pushed only on first sight or strict improvement, and the invariant advances to the next move |
| Day17.InnerEnd | day-17/src/main.rs:208-235 | after all of a node's moves are tried the search invariant holds again |
| Day17.Pathfind | day-17/src/main.rs:181-238 | starting from the top-left block facing right with score 0, the answer is the least heat loss of a legal route to the bottom-right block; no answer without running out of rounds means no legal route exists |
| Day17.Proc1 | day-17/src/main.rs:240-244 | an answer is given only when the parse succeeds with nothing left over, and it is the least route cost for the parsed grid; a failed parse or leftover input gives none |
| Day18.HexChar | day-18/src/main.rs:23-25 | the digit written for a value below 16 is a hexadecimal digit that `from_hex` reads back as that value |
| Day18.HexPrimary | day-18/src/main.rs:27-32 | succeeds exactly when the first five characters are hexadecimal digits, consumes exactly those five, and yields a value below 0x100000 |
| Day18.HexValueBound | day-18/src/main.rs:23-25 | k hexadecimal digits read as a value below 16^k |
| Day18.HexDir | day-18/src/main.rs:44-47 | succeeds exactly when the next character is a hexadecimal digit, consumes one character, value below 16 |
| Day18.ParseLine | day-18/src/main.rs:38-51 | a parsed line consumes input, has a direction among R, L, U, D, a count below 2^32, a distance below 16^5 and a direction digit below 16 |
| Day18.ParseLines | day-18/src/main.rs:53-57 | the repetition never grows the input and adds a line exactly when the next line parses |
| Day18.Parse | day-18/src/main.rs:53-57 | `many1`: a successful parse has at least one line |
| Day18.HexDigits | day-18/src/main.rs:27-32 | writes exactly k hexadecimal digits |
| Day18.HexValueOfDigits | day-18/src/main.rs:23-25 | `from_hex` of the k digits written for n < 16^k is n |
| Day18.HexPrimaryOfShow | day-18/src/main.rs:27-32 | five written digits followed by anything parse back to the distance, leaving the rest |
| Day18.ParseLineOfShow | day-18/src/main.rs:38-51 | a written well-formed line followed by anything parses back to that line, leaving the rest |
| Day18.ParseLinesOfShow | day-18/src/main.rs:53-57 | written lines followed by text that does not start a line parse back to exactly those lines and that text |
| Day18.ParseOfShow | day-18/src/main.rs:53-57 | a written non-empty plan parses back whole, with what follows left unread |
| Day18.Step | day-18/src/main.rs:64-73 | a line's step is axis-aligned and its length is the line's distance (count, or colour distance in part two); unknown directions have no step |
| Day18.Moves | day-18/src/main.rs:59-79 | when every line has a step there is one move per line |
| Day18.MovesMeaning | day-18/src/main.rs:64-73 | the moves are missing exactly when some line has no step (the `unreachable!()` case), and otherwise move i is line i's step |
| Day18.MovesStop | day-18/src/main.rs:72 | a line without a step anywhere in the plan means no moves for the whole plan |
| Day18.WalkStep | day-18/src/main.rs:64-76 | extending the walk by one line appends that line's step, adds its distance to the total and appends the new position as the next vertex |
| Day18.DataToCoordinates | day-18/src/main.rs:59-79 | returns None exactly when a line has a direction outside R, L, U, D; otherwise returns one vertex per line, the running positions of the walk from the origin, and (1 + total count) / 2 + 1 |
| Day18.DataToCoordinates2 | day-18/src/main.rs:81-101 | the same walk reading distance and direction from the colour (0 right, 1 down, 2 left, 3 up); None exactly when a direction digit is above 3 |
| Day18.VerticesMeaning | day-18/src/main.rs:64-74 | vertex i is the position after the first i+1 moves; the first vertex is the first move and each later vertex is the previous one plus that line's move |
| Day18.SlackStep | day-18/src/main.rs:64-75 | each move changes total distance minus end coordinates by 0 or by twice its length |
| Day18.TotalParity | day-18/src/main.rs:75-78 | total distance minus the end point's coordinates is even |
| Day18.ClosedBoundary | day-18/src/main.rs:78 | for a walk that returns to the origin the total distance (the perimeter) is even and the boundary term is exactly half of it plus one |
| Day18.CalcArea | day-18/src/main.rs:103-110 | twice the result is the absolute trapezoid sum rounded down to even (the sum halved with truncation) |
| Day18.TrapezoidIsCross | day-18/src/main.rs:103-110 | the trapezoid sum equals the cross-product sum of consecutive corners plus x0*y0 - xn*yn |
| Day18.ClosedTrapezoid | day-18/src/main.rs:103-110 | for corners ending at the origin with an axis-aligned first corner, the sum without wrap-around equals the full cyclic shoelace sum |
| Day18.ClosedArea | day-18/src/main.rs:103-110 | for a plan whose walk returns to the origin, `calc_area` is half the absolute cyclic shoelace sum of the polygon through its corners |
| Day18.AnswerIs | day-18/src/main.rs:112-124 | the answer of a plan is the area of its corners plus its boundary term |
| Day18.Dig | day-18/src/main.rs:114-116 | the coordinates and the area combined give the plan's answer, None on an unknown direction |
| Day18.Proc1 | day-18/src/main.rs:112-117 | None when the input does not parse; otherwise the plan's area plus boundary term by letters and counts |
| Day18.Proc2 | day-18/src/main.rs:119-124 | None when the input does not parse; otherwise the plan's area plus boundary term by colour codes |
| Day18.ParseLinesDirs | day-18/src/main.rs:39 | every parsed line's direction is one of R, L, U, D |
| Day18.ParsedDirs | day-18/src/main.rs:39 | every line of a parsed plan has a direction among R, L, U, D |
| Day18.ParsedMoves | day-18/src/main.rs:39 | on a parsed plan part one never reaches `unreachable!()` |
| Day19.ParseRule | day-19/src/main.rs:26-33 | a parsed rule consumes input and is well formed: alphabetic rating and target, '<' or '>', a value below 2^32 |
| Day19.RulesTail | day-19/src/main.rs:38 | the `,rule` repetition of `separated_list1` never grows the input and only adds rules |
| Day19.RuleList | day-19/src/main.rs:38 | `separated_list1`: a successful parse has at least one rule |
| Day19.ParseRuleLine | day-19/src/main.rs:35-44 | a parsed workflow line consumes input and has at least one rule |
| Day19.Fields | day-19/src/main.rs:46-58 | the tagged numbers of a part line: one value per tag, each below 2^32, and input is consumed whenever there is a tag |
| Day19.ParsePartLine | day-19/src/main.rs:46-58 | a parsed part line consumes input |
| Day19.WorkflowLines | day-19/src/main.rs:61 | the `many1` repetition of workflow lines never grows the input and only adds workflows |
| Day19.PartLines | day-19/src/main.rs:63 | the `many1` repetition of part lines never grows the input and only adds parts |
| Day19.Parse | day-19/src/main.rs:60-66 | a successful parse has at least one workflow and at least one part |
| Day19.ParseRuleOfShow | day-19/src/main.rs:26-33 | a written well-formed rule followed by a non-letter parses back to that rule, leaving the rest |
| Day19.RulesTailChain | day-19/src/main.rs:38 | along a chain of suffixes each holding one `,rule`, the repetition collects exactly those rules and stops at the last suffix |
| Day19.RuleChainOfShow | day-19/src/main.rs:38 | the suffixes of written rules form such a chain |
| Day19.RulesTailOfShow | day-19/src/main.rs:38 | written `,rule` items followed by text that stops the list parse back to exactly those rules |
| Day19.RuleListOfShow | day-19/src/main.rs:38 | a written non-empty rule list parses back to those rules, leaving the rest |
| Day19.ParseRuleLineOfShow | day-19/src/main.rs:35-44 | a written well-formed workflow line followed by anything parses back to that workflow, leaving the rest |
| Day19.FieldsCons | day-19/src/main.rs:47-54 | a tag, a number and the remaining fields parse as that number in front of the remaining values |
| Day19.FieldsOfShow | day-19/src/main.rs:47-54 | written tagged values below 2^32, followed by a non-digit, parse back to those values |
| Day19.ParsePartLineOfShow | day-19/src/main.rs:46-58 | a written part with ratings below 2^32 followed by anything parses back to that part, leaving the rest |
| Day19.WorkflowLinesOfShow | day-19/src/main.rs:61 | written workflow lines followed by text that is not a workflow line parse back to exactly those workflows |
| Day19.PartLinesChain | day-19/src/main.rs:63 | along a chain of suffixes each holding one part line, the repetition collects exactly those parts |
| Day19.PartChainOfShow | day-19/src/main.rs:63 | the suffixes of written part lines form such a chain |
| Day19.PartLinesOfShow | day-19/src/main.rs:63 | written part lines followed by text that is not a part line parse back to exactly those parts |
| Day19.ParseOfShow | day-19/src/main.rs:60-66 | written workflows, a blank line and written parts parse back to those workflows and parts, leaving the rest |
| Day19.MapOfLastWins | day-19/src/main.rs:68-75 | the map's keys are exactly the workflow names, and each name maps to the rules and default of the last workflow with that name (later `insert`s overwrite) |
| Day19.BuildMap | day-19/src/main.rs:68-75 | the loop of inserts builds the map of the workflows |
| Day19.FirstMatch | day-19/src/main.rs:79-96 | once the first k rules fail, rule k decides: its target when it holds, a panic when its rating or operator is unknown, the default when there is no rule k |
| Day19.DecidingRule | day-19/src/main.rs:79-96 | every rule list has a position where the rules before fail and that position holds, panics or is past the end |
| Day19.ProcessPart | day-19/src/main.rs:77-97 | the loop returns the target of the first rule that holds by strict `<` or `>` on the named rating, else the default; None on `unreachable!` |
| Day19.VerdictHasPath | day-19/src/main.rs:105-122 | a part ending Accepted, Rejected or Panicked within fuel has a path of at most fuel workflows from its start that ends that way |
| Day19.PathHasVerdict | day-19/src/main.rs:105-122 | conversely a path of at most fuel workflows ending that way gives that verdict |
| Day19.VerdictPath | day-19/src/main.rs:105-122 | both directions: the verdict within fuel is that end exactly when such a path exists |
| Day19.VerdictMoreFuel | day-19/src/main.rs:108-122 | a verdict reached with some fuel stays the same with more fuel |
| Day19.Route | day-19/src/main.rs:106-122 | the inner loop from "in" (lookup with `unwrap`, `process_part`, stop at R or A) yields the verdict |
| Day19.AcceptedParts | day-19/src/main.rs:118-119 | the parts kept are all accepted and at most as many as given |
| Day19.ScoresAppend | day-19/src/main.rs:119 | the sum of ratings over a concatenation is the sum over each half |
| Day19.AcceptedSnoc | day-19/src/main.rs:105-123 | one more part at the end is kept exactly when it is accepted |
| Day19.RateMeaning | day-19/src/main.rs:99-126 | the answer exists exactly when every part is accepted or rejected, and then it is the sum of x+m+a+s over the accepted parts |
| Day19.RateKeeps | day-19/src/main.rs:105-123 | once a prefix stops without an answer, further parts do not change the outcome |
| Day19.FirstUndecided | day-19/src/main.rs:105-123 | the first part that is neither accepted nor rejected decides the outcome: a panic when its route panics, otherwise unfinished |
| Day19.SortParts | day-19/src/main.rs:103-125 | the loop over the parts with a running total computes the outcome |
| Day19.Sort | day-19/src/main.rs:102-125 | building the map and sorting the parts computes the outcome for the map of the workflows |
| Day19.Proc1 | day-19/src/main.rs:99-126 | parses (a failed parse panics at `unwrap`), builds the map and sorts the parts |
| Day20.NamesTail | day-20/src/main.rs:37 | the `, name` repetition of `separated_list1` never grows the input, only adds names, and every name it adds is alphabetic and non-empty |
| Day20.NameList | day-20/src/main.rs:37 | `separated_list1(tag(", "), alpha1)`: a successful parse has at least one name, all alphabetic, and consumes input |
| Day20.ParseLine | day-20/src/main.rs:33-41 | a parsed line consumes input, has an alphabetic name, at least one alphabetic destination, and a symbol that is absent, '%' or '&' |
| Day20.ParseLines | day-20/src/main.rs:43-45 | the `many1` repetition never grows the input and only adds lines |
| Day20.Parse | day-20/src/main.rs:43-45 | `many1(parse_line)`: a successful parse has at least one line |
| Day20.NamesTailStep | day-20/src/main.rs:37 | one `, name` step of the destination list in terms of the rest of the input |
| Day20.NamesTailStart | day-20/src/main.rs:37-38 | a printed destination tail starts with the separator or with the newline, so the repetition stops exactly at the newline |
| Day20.NameHead | day-20/src/main.rs:37 | the separator and the next name of a printed destination list are read back as printed |
| Day20.NamesTailOfShow | day-20/src/main.rs:37-38 | reading a printed `, name` tail returns exactly the printed names and stops before the newline |
| Day20.NameListOfShow | day-20/src/main.rs:37-38 | reading a printed non-empty destination list returns the same list and leaves the newline |
| Day20.SymbolOfShow | day-20/src/main.rs:34-35 | `opt(one_of("%&"))` reads back the printed symbol, or nothing, and leaves the name |
| Day20.ParseLineOfShow | day-20/src/main.rs:33-41 | round trip: parsing a printed well-formed line gives back that line and the rest of the input |
| Day20.ParseLinesStep | day-20/src/main.rs:43-45 | one step of `many1` in terms of the line it reads |
| Day20.ParseLinesOfShow | day-20/src/main.rs:43-45 | round trip over many lines, stopping where the next line does not parse |
| Day20.ParseOfShow | day-20/src/main.rs:43-45 | round trip: parsing printed well-formed lines gives back exactly those lines |
| Day20.BroadcasterFirst | day-20/src/main.rs:47-54 | the broadcaster is found iff some line is named `broadcaster`, and what is found is the first such line |
| Day20.FindBroadcaster | day-20/src/main.rs:47-54 | the loop returns the first line named `broadcaster`, and None where the source reaches `unreachable!` |
| Day20.BuildConnMap | day-20/src/main.rs:56-81 | both loops compute the connection map: None where a non-broadcaster line has no '%' or '&' (the `unreachable!`) |
| Day20.DeclaredKeepsNone | day-20/src/main.rs:63-67 | once the first loop meets a line without a kind, the whole map fails |
| Day20.Lows | day-20/src/main.rs:77 | the initial memory: one Low per input |
| Day20.ExtendedTwice | day-20/src/main.rs:75-77 | extending a module's inputs twice is extending it with both lists in order |
| Day20.AttachAllEntry | day-20/src/main.rs:71-78 | after the inner loop a key is present iff it was or is a destination, and its inputs and memory grow by one entry per occurrence as a destination |
| Day20.WireEntry | day-20/src/main.rs:70-79 | after the second loop a key is present iff it was or is listed somewhere, and its inputs grow by exactly its senders, in line order |
| Day20.ListedSnoc | day-20/src/main.rs:70-79 | a name is listed by a line sequence iff it is listed by the lines before the last one or by the last one |
| Day20.SendersInMeaning | day-20/src/main.rs:71-76 | a line contributes a sender to k iff its name is that sender and it lists k |
| Day20.SendersMeaning | day-20/src/main.rs:70-79 | s is among the recorded inputs of k iff some line named s lists k |
| Day20.DeclaredSome | day-20/src/main.rs:59-69 | the first loop succeeds iff every line other than the broadcaster has a kind |
| Day20.DeclaredKeys | day-20/src/main.rs:59-69 | the first loop's keys are exactly the names of non-broadcaster lines, each with the kind and outputs of one of its lines and empty memory and inputs |
| Day20.DeclaredLast | day-20/src/main.rs:68 | `insert` overwrites: a repeated name keeps its last line's kind and outputs |
| Day20.ConnMapNone | day-20/src/main.rs:63-67 | `build_conn_map` fails iff some non-broadcaster line has no kind |
| Day20.ConnMapKeys | day-20/src/main.rs:56-81 | the map's keys are the non-broadcaster names together with every listed destination |
| Day20.ConnMapDeclared | day-20/src/main.rs:63-68 | a declared module is a flip-flop for '%' and a conjunction for '&', with the outputs of its last line |
| Day20.ConnMapUndeclared | day-20/src/main.rs:72-74 | a listed name that is not declared becomes a flip-flop with no outputs |
| Day20.ConnMapInputs | day-20/src/main.rs:75-77 | every module's inputs are its senders in line order, and its memory is one Low per input |
| Day20.ConnMapFeeds | day-20/src/main.rs:70-79 | every line's destinations are modules that record that line's name as an input |
| Day20.ConnMapWired | day-20/src/main.rs:56-81 | the built map is wired consistently (every output records its sender, memory as long as inputs), and the broadcaster feeds its destinations |
| Day20.Sends | day-20/src/main.rs:106-108 | the pulses sent to a list of destinations: one per destination, in order, all with the same signal and sender |
| Day20.Position | day-20/src/main.rs:112 | `position`: the first index of the sender among the inputs, or the length when absent |
| Day20.FlipFlopRule | day-20/src/main.rs:98-110 | a flip-flop ignores a high pulse; on a low pulse it flips its first memory cell, keeps the rest, and sends the new state to all outputs in order |
| Day20.ConjunctionRule | day-20/src/main.rs:111-123 | a conjunction records the pulse at its sender's input position, keeps the other cells, and sends Low iff all remembered pulses are High, High otherwise |
| Day20.SameWiringTrans | day-20/src/main.rs:96-124 | keeping the wiring is transitive over successive pulses |
| Day20.WiredKept | day-20/src/main.rs:96-124 | a change that keeps the wiring keeps the map wired and keeps every line's feeds |
| Day20.ReceiveWired | day-20/src/main.rs:96-124 | in a wired map a pulse from a recorded input never panics, keeps the wiring, changes only its destination, and sends deliverable pulses |
| Day20.AfterAfter | day-20/src/main.rs:90-125 | prefixing a run's trace twice is prefixing it with the concatenation |
| Day20.RunFifo | day-20/src/main.rs:87-90 | the queue is first in, first out: the pulses pending at the start are the first ones delivered, in order |
| Day20.RunNoPanic | day-20/src/main.rs:96-124 | in a wired map with deliverable pulses the loop never panics, and it keeps the wiring |
| Day20.TallySnoc | day-20/src/main.rs:91-95 | counting one more pulse adds one to its signal's count |
| Day20.TallyTotal | day-20/src/main.rs:91-95 | the low and high counts add up to the number of pulses delivered |
| Day20.TallyPrefix | day-20/src/main.rs:91-95 | a prefix of the pulses never counts more |
| Day20.TallySends | day-20/src/main.rs:87-89 | the broadcaster's initial pulses are all low |
| Day20.PressCountsMeaning | day-20/src/main.rs:83-127 | one press counts the button pulse plus every delivered pulse, and at least one low pulse per broadcaster destination besides the button's |
| Day20.ReversedCons | day-20/src/main.rs:88 | inserting at the front puts the pulse last in pop order |
| Day20.ReversedSnoc | day-20/src/main.rs:90 | the last element of the vector is the first one popped |
| Day20.PopLast | day-20/src/main.rs:90 | `pop` takes the next pulse in queue order and leaves the rest in order |
| Day20.PushAllJoins | day-20/src/main.rs:106-108 | inserting a list of pulses at the front, one by one, appends them in order to the queue |
| Day20.RunVecIsRun | day-20/src/main.rs:86-125 | the vector with `insert(0, …)` and `pop` runs exactly like the first-in first-out queue |
| Day20.PressVec | day-20/src/main.rs:86-89 | the vector built by the broadcaster loop starts the same run as the queue of its pulses |
| Day20.PushAllSnoc | day-20/src/main.rs:106-108 | inserting one more pulse puts it at the front of the vector |
| Day20.Enqueue | day-20/src/main.rs:106-108 | the `insert(0, …)` loop leaves the vector with the pulses pushed in at the front, in order |
| Day20.Deliver | day-20/src/main.rs:96-124 | handling one pulse succeeds iff the module rules allow it, and then gives the new map and the vector with the sent pulses pushed in |
| Day20.Take | day-20/src/main.rs:90-124 | one turn of the `while let` loop: a panic ends the run as a panic, otherwise the run continues from the new map and vector with the popped pulse traced |
| Day20.Calc1 | day-20/src/main.rs:83-127 | `calc_1` computes one press: the new map and the low count (the button's 1 plus the low pulses) and high count of the pulses delivered, or why it stopped |
| Day20.PressesStop | day-20/src/main.rs:138-142 | once a press stops, further presses keep that outcome |
| Day20.PressesLow | day-20/src/main.rs:138-142 | after n presses the low count is at least n times one plus the number of broadcaster destinations |
| Day20.PressesNoPanic | day-20/src/main.rs:138-142 | presses on a wired map whose broadcaster feeds its destinations never panic and keep the wiring |
| Day20.PressOnce | day-20/src/main.rs:139-141 | one turn of the press loop adds one press's counts to the totals |
| Day20.PushButton | day-20/src/main.rs:132-142 | the loop over a thousand presses gives the totals of a thousand successive presses on the evolving map |
| Day20.BroadcasterName | day-20/src/main.rs:49 | the line found is named `broadcaster` |
| Day20.SolveNoPanic | day-20/src/main.rs:129-145 | a parsed input with a broadcaster and a kind on every other line never panics |
| Day20.Proc1 | day-20/src/main.rs:129-145 | `proc_1` computes the product of the low and high totals, or the failure |
| Day21.Parse | day-21/src/main.rs:18-27 | `many1` rows of `one_of(".#S")` each ended by a newline: a parsed map has at least one row, each row non-empty and made of '.', '#' and 'S' |
| Day21.ColumnFrom | day-21/src/main.rs:31-35 | the inner loop of `find_start`: the first column at or after x holding 'S', with no 'S' between, or the row's length when there is none |
| Day21.StartFrom | day-21/src/main.rs:30-36 | the outer loop from row y: the found point is an 'S' of the map at or below row y with no 'S' before it in row-major order; None means no 'S' from row y on |
| Day21.Start | day-21/src/main.rs:29-38 | `find_start` returns the first 'S' in row-major order; None (the `unreachable!`) exactly when the map has no 'S' |
| Day21.FindStart | day-21/src/main.rs:29-38 | the two nested loops with their early return compute `Start` |
| Day21.CandidatesOrder | day-21/src/main.rs:65-95 | the four guards propose at most four points, each orthogonally adjacent, in the order left, right, up, down |
| Day21.CandidatesMeaning | day-21/src/main.rs:65-95 | from a point inside the width and height, the guards propose exactly the adjacent points inside them |
| Day21.KeptMeaning | day-21/src/main.rs:65-95 | the pushed points are at most the probed ones, and exactly the probed points whose cell exists and is not '#' |
| Day21.KeptRanks | day-21/src/main.rs:65-95 | pushing in probe order keeps the order left, right, up, down |
| Day21.ProbeIsKept | day-21/src/main.rs:65-97 | the probes panic (an index past the grid) iff some proposed point is outside the grid, and otherwise push exactly the kept points after those already in `ret` |
| Day21.FindNeighbours | day-21/src/main.rs:60-98 | `find_neighbours` as written (the two `len` reads, four guarded pushes, the indexing panics) computes `Neighbours` |
| Day21.NeighboursCells | day-21/src/main.rs:60-98 | on any grid, the neighbours found are at most four, in the order left, right, up, down, each adjacent, inside the grid and not '#' |
| Day21.NeighboursMeaning | day-21/src/main.rs:60-98 | on a rectangular grid, from a point inside it, `find_neighbours` never panics and returns exactly the adjacent cells inside the grid that are not '#' |
| Day21.Insert | day-21/src/main.rs:52 | inserting into a sorted list keeps it sorted and adds exactly the one element |
| Day21.Sort | day-21/src/main.rs:52 | `sort` on `(usize, usize)`: sorted by x then y, and a permutation of the input |
| Day21.Dedup | day-21/src/main.rs:53 | `dedup` keeps the same points and the first one, and turns a sorted list into a strictly increasing one |
| Day21.SortDedup | day-21/src/main.rs:52-53 | after `sort` and `dedup` the points are strictly increasing (no duplicates) and are the same points as before |
| Day21.StrictlySortedUnique | day-21/src/main.rs:52-53 | two strictly increasing lists with the same points are equal, so sort then dedup depends only on which points there are |
| Day21.ExpandMeaning | day-21/src/main.rs:47-51 | the inner loop panics iff some point's `find_neighbours` panics, and otherwise collects exactly the neighbours of all the points |
| Day21.StepMeaning | day-21/src/main.rs:47-54 | after a step the points are strictly increasing and are exactly the neighbours of the points before it |
| Day21.StepSetOnly | day-21/src/main.rs:47-54 | a step depends only on the set of points, not on their order or repetition |
| Day21.WalkCells | day-21/src/main.rs:46-55 | after one step or more the points are strictly increasing and each is a cell of the grid that is not '#' |
| Day21.StepNoPanic | day-21/src/main.rs:47-54 | on a rectangular grid a step from points inside it never panics and stays inside |
| Day21.WalkNoPanic | day-21/src/main.rs:46-55 | on a rectangular grid, from points inside it, no number of steps panics and every point stays inside the grid |
| Day21.SolveZero | day-21/src/main.rs:40-57 | with zero steps the answer is 1 whenever the map parses and has a start |
| Day21.SolveNoPanic | day-21/src/main.rs:40-57 | a parsed rectangular map with an 'S' always gives an answer, whatever the number of steps |
| Day21.Advance | day-21/src/main.rs:47-54 | one turn of the step loop (inner loop over the points, `extend`, `sort`, `dedup`) computes `Step` |
| Day21.Steps | day-21/src/main.rs:44-55 | the step loop from `vec![start]` computes `Walk` for `steps` steps, stopping at the first panic |
| Day21.Proc1 | day-21/src/main.rs:40-58 | `proc_1` as written (parse `unwrap`, `find_start`, the step loop, `len`) computes `Solve` |

## Left out

General:
- `main` in every crate, file reading, `println!` output and the `Instant` timers are I/O; they are not modelled.
- Tests that load `data/*.txt` fixtures cannot be stated, because the fixture contents are not part of the model. Only inline test values are proved as concrete lemmas.
- Arithmetic overflow: integers are unbounded, so a u32, u64 or i32 sum or product that would wrap or panic in the source is not modelled. The exceptions are stated in the day's own lines below (u32 and u64 parsing, the `as u8` casts of day 16, and the u32 cast of day 6).
- nom's internals are not modelled. Each parser is written directly over `seq<char>` with the grammar the combinators accept. A failed `unwrap()` of a parse, and every other panic the source can reach, is a `None` (or `Panic`) result.
- Loops that are not bounded in the source take a `fuel` parameter and give up with `None` when it runs out. These are day 8 `calc`, day 10 `travel_map`, the day 17 search, the day 19 workflow loop and the day 20 pulse queue. Termination itself is not proved for them.

Per day:
- Day01.Proc: the u32 sum does not wrap. The fixture answer (142) is not shown.
- Day02GameParser.ParseGame: counts and ids are u32 parses, which fail at 2^32 or more; the sums of `cube_convert` do not wrap.
- Day03.DataParser: a digit run of value 2^32 or more, where the source's u32 parse panics, is emitted with its full value. The fixture answers (4361 and part two) are not shown.
- Day04.Proc: the u32 sum of the points does not wrap. The fixture total (13) is not shown.
- Day05.SplitRange, Day05.RangeOut, Day05.RangesOut, Day05.ConvertSeedRange: these require every table entry to have a length of at least 1. The source computes `len - 1` in u32 and panics on a zero length. `Proc2` reports `None` for any table with a zero-length entry, although the source panics only when that entry is reached.
- Day05.Proc2, Day05.ConvertRanges: these use the corrected range conversion (see Findings). The as-written conversion is `ConvertSeedRange`.
- Day06: the floating-point root finding of `calc` is not modelled; only `calc_brute_force` is.
- Day06.Proc1, Day06.Proc2: use CalcBruteForce in place of `calc`. The two agree in exact arithmetic while the count is below 2^32. From 2^32 on, `calc`'s float cast saturates at 2^32 - 1 while CalcBruteForce wraps modulo 2^32. f64 `sqrt` rounding is not modelled.
- Day06.CalcBruteForce: the u64 product `x * (t - x)` is unbounded. The u32 cast of the count is modelled as a remainder modulo 2^32.
- Day07.GetHandScore: requires card values below 13. The parser only produces such values, and `card_to_int` yields `None` for any other card.
- Day07: the fixture answers of `data/test.txt` are not shown.
- Day08.Calc: requires a non-empty direction list, which the `many1` parser guarantees. Fuel bounds the walk. If "ZZZ" is never reached, the model gives `None` and the source loops.
- Day09.Extrapolate: i32 overflow of the values and the differences is not modelled.
- Day10.Grid.BuildAdjacencyList: requires every row to be at least as wide as the first. It also requires the grid to hold only tile characters, which the parser guarantees. Ragged input gives `None` from `Solve` where the source would index out of bounds.
- Day10.Grid.AdjacentPush: the `width - 1` usize underflow at width 0 is not modelled; the guard is written `x + 1 < width`.
- Day10.TravelMap: fuel bounds the walk, and the u32 casts are not modelled.
- Day11.Proc1: requires `expand >= 1`. The source computes the u64 `expand - 1` and panics at 0. u64 overflow of the sum is not modelled.
- Day12.ReadBang: requires the group to fit in the remaining data. `solve` checks this before calling it, so the source's slice panic cannot happen from there.
- Day12.CountsFillings: holds only when every run length is positive. The parser accepts a 0 run length, and the count is still modelled for it.
- Day12: u64 overflow of the counts is not modelled.
- Day13.ProcessBlock, Day13.FindHor, Day13.FindVer: these require every row of the block to be at least as wide as the first. For a ragged block, `Proc` gives `None`, where the source would panic only if its scan touched a short row. The fixture answers are not shown.
- Day14.Calc1: requires a rectangular grid. On ragged grids the source's column iterator mixes rows and `height - last_square` can underflow. `Proc` gives `None` for ragged grids. The fixture answer is not shown.
- Day15.Proc: the u32 sum does not wrap. The fixture answer is not shown.
- Day16.BeamMove: requires a rectangular, non-empty grid. `Calc1` and `Calc2` give `None` for any other grid, where the source would misread or panic.
- Day17.Pathfind: the binary heap and its `resort_heap` swap are modelled as a multiset from which a minimum-score node is popped, and `came_from` and `reconstruct_path` (debug output) are not modelled. Fuel bounds the pops. The u32 score does not wrap. Rows shorter than the first give `None`. The fixture answer is not shown.
- Day18: i32, u32 and i64 wrap-around of coordinates, counts and sums is not modelled. The fixture answers are not shown. The claim that the answer equals the dug cells (Pick's theorem) is not proved.
- Day18.ClosedArea: requires the walk to return to the origin. That holds for puzzle inputs, but the source does not check it.
- Day19: the u32 sum of accepted ratings does not wrap, fuel bounds the workflow chase, and the fixture answer is not shown. `Fields` re-expresses the four tag/u32 pairs of `parse_part_line` as one recursion with the same behaviour.
- Day20: the u32 pulse counts and their product do not wrap, fuel bounds each press's pulse queue, and the fixture answers are not shown. The model runs the FIFO as a reversed list (`RunVec`), and `RunVecIsRun` proves it equal to the FIFO.
- Day21.Proc1: `steps` is a u32 in the source and a `nat` here. The fixture `data/test.txt` (start (5, 5), 16 points after 6 steps) is not shown. An empty first row, where the source's `width - 1` underflows, gives `None` like the other panics of `find_neighbours`.

## Findings

| source | as written | input that shows it | evidently intended | confidence | as-written member | corrected member |
|---|---|---|---|---|---|---|
| day-5/src/main.rs:141-167 | `convert_seed_range` emits the left and right leftovers of the first entry that meets a range unconverted; later entries of the table never see them | the range (10, 20) against the entries (100, 15, 10) then (200, 10, 5): the output is (10, 14) and (100, 105), yet 12 converts to 202, which no output range holds | every leftover part goes on to the remaining entries, so a range converts to exactly the values its members convert to | high (not executed) | Day05.LeftoverNotConverted | Day05.ThroughRangesExact |
| day-16/src/main.rs:122-124 | `beam_move` records a child beam under the key (parent's incoming direction, child x, child y) | the 3×3 grid `.\.` / `//.` / `\/.` from the top-left cell heading right: the upward beam through the centre is dropped, and cell (2, 1) is never counted (6 cells instead of 7) | key each beam by its own direction, so that every beam reachable from the start is explored | high (not executed) | Day16.WrittenMisses | Day16.FixedReachesAll |
