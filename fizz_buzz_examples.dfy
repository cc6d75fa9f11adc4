/**
 * The behaviour the repository's unit tests expect, derived from the
 * model: single classifications, the texts of short ranges, the text and
 * the report for 1..20, and the two aggregation tests. The 1..20 range is
 * worked out five integers at a time.
 */
module FizzBuzzExamples {
  import opened FizzBuzzer
  import Strings
  import Ranges
  import NumberUtils
  import Decimal
  import FizzBuzzStats

  /** The classifications the unit tests check one by one. */
  lemma ClassifierExamples()
    ensures FizzBuzz(1) == "1" && FizzBuzz(2) == "2"
    ensures FizzBuzz(3) == "lucky" && FizzBuzz(6) == "fizz"
    ensures FizzBuzz(5) == "buzz" && FizzBuzz(10) == "buzz"
    ensures FizzBuzz(15) == "fizzbuzz" && FizzBuzz(30) == "lucky"
  {
  }

  /** The texts of the four short ranges in the unit tests. */
  lemma TextOneToTwo()
    ensures Strings.Join(Outcomes(Ranges.Range(1, 2)), ' ') == "1 2"
  {
    assert FizzBuzz(1) == "1" && FizzBuzz(2) == "2";
    LabelsAt(1, 2);
    assert Outcomes(Ranges.Range(1, 2)) == ["1", "2"];
  }

  lemma TextThreeToFour()
    ensures Strings.Join(Outcomes(Ranges.Range(3, 4)), ' ') == "lucky 4"
  {
    assert FizzBuzz(3) == "lucky" && FizzBuzz(4) == "4";
    LabelsAt(3, 4);
    assert Outcomes(Ranges.Range(3, 4)) == ["lucky", "4"];
  }

  lemma TextFiveToSix()
    ensures Strings.Join(Outcomes(Ranges.Range(5, 6)), ' ') == "buzz fizz"
  {
    assert FizzBuzz(5) == "buzz" && FizzBuzz(6) == "fizz";
    LabelsAt(5, 6);
    assert Outcomes(Ranges.Range(5, 6)) == ["buzz", "fizz"];
  }

  lemma TextFourteenToFifteen()
    ensures Strings.Join(Outcomes(Ranges.Range(14, 15)), ' ') == "14 fizzbuzz"
  {
    assert FizzBuzz(14) == "14" && FizzBuzz(15) == "fizzbuzz";
    LabelsAt(14, 15);
    assert Outcomes(Ranges.Range(14, 15)) == ["14", "fizzbuzz"];
  }

  /** Five labels joined by spaces. */
  lemma JoinOfFive(x1: string, x2: string, x3: string, x4: string, x5: string)
    ensures Strings.Join([x1, x2, x3, x4, x5], ' ') == x1 + " " + x2 + " " + x3 + " " + x4 + " " + x5
  {
    Strings.JoinAppend([x1], [x2], ' ');
    assert [x1] + [x2] == [x1, x2];
    Strings.JoinAppend([x1, x2], [x3], ' ');
    assert [x1, x2] + [x3] == [x1, x2, x3];
    Strings.JoinAppend([x1, x2, x3], [x4], ' ');
    assert [x1, x2, x3] + [x4] == [x1, x2, x3, x4];
    Strings.JoinAppend([x1, x2, x3, x4], [x5], ' ');
    assert [x1, x2, x3, x4] + [x5] == [x1, x2, x3, x4, x5];
  }

  /** 1 when the label is counted under `key`, else 0. */
  function Hit(x: string, key: string): nat {
    if FizzBuzzStats.Bucket(x) == key then 1 else 0
  }

  /** Counting over one label. */
  lemma OccurrencesOfOne(x: string, key: string)
    ensures FizzBuzzStats.Occurrences([x], key) == Hit(x, key)
  {
    assert [x][1..] == [];
  }

  /** Counting over five labels, one label at a time. */
  lemma OccurrencesOfFive(x1: string, x2: string, x3: string, x4: string, x5: string, key: string)
    ensures FizzBuzzStats.Occurrences([x1, x2, x3, x4, x5], key) ==
            Hit(x1, key) + Hit(x2, key) + Hit(x3, key) + Hit(x4, key) + Hit(x5, key)
  {
    OccurrencesOfOne(x1, key);
    OccurrencesOfOne(x2, key);
    OccurrencesOfOne(x3, key);
    OccurrencesOfOne(x4, key);
    OccurrencesOfOne(x5, key);
    FizzBuzzStats.OccurrencesAppend([x1], [x2], key);
    assert [x1] + [x2] == [x1, x2];
    FizzBuzzStats.OccurrencesAppend([x1, x2], [x3], key);
    assert [x1, x2] + [x3] == [x1, x2, x3];
    FizzBuzzStats.OccurrencesAppend([x1, x2, x3], [x4], key);
    assert [x1, x2, x3] + [x4] == [x1, x2, x3, x4];
    FizzBuzzStats.OccurrencesAppend([x1, x2, x3, x4], [x5], key);
    assert [x1, x2, x3, x4] + [x5] == [x1, x2, x3, x4, x5];
  }

  /** The buckets of the labels of 1..20: the words stand for themselves, the numbers count as "integer". */
  lemma BucketsOfLabels()
    ensures Hit("fizz", "fizz") == 1 && Hit("buzz", "buzz") == 1 && Hit("fizzbuzz", "fizzbuzz") == 1 && Hit("lucky", "lucky") == 1
    ensures forall x, key | x in ["fizz", "buzz", "fizzbuzz", "lucky"] && key in ["fizz", "buzz", "fizzbuzz", "lucky", "integer"] && x != key :: Hit(x, key) == 0
    ensures forall x, key | x in ["1", "2", "4", "7", "8", "11", "14", "16", "17", "19"] && key in ["fizz", "buzz", "fizzbuzz", "lucky", "integer"] :: Hit(x, key) == if key == "integer" then 1 else 0
  {
    NumberUtils.WordsAreNotNumbers();
    assert NumberUtils.IsNumber("1") && NumberUtils.IsNumber("2") && NumberUtils.IsNumber("4") && NumberUtils.IsNumber("7") && NumberUtils.IsNumber("8");
    assert NumberUtils.IsNumber("11") && NumberUtils.IsNumber("14") && NumberUtils.IsNumber("16") && NumberUtils.IsNumber("17") && NumberUtils.IsNumber("19");
  }

  lemma LabelsOneToFive()
    ensures Labels(1, 5) == ["1", "2", "lucky", "4", "buzz"]
  {
    assert FizzBuzz(1) == "1" && FizzBuzz(2) == "2" && FizzBuzz(3) == "lucky" && FizzBuzz(4) == "4" && FizzBuzz(5) == "buzz";
    LabelsAt(1, 5);
  }

  lemma TextOneToFive()
    ensures Strings.Join(Labels(1, 5), ' ') == "1 2 lucky 4 buzz"
  {
    LabelsOneToFive();
    JoinOfFive("1", "2", "lucky", "4", "buzz");
  }

  lemma CountsOneToFive()
    ensures FizzBuzzStats.Occurrences(["1", "2", "lucky", "4", "buzz"], "fizz") == 0
    ensures FizzBuzzStats.Occurrences(["1", "2", "lucky", "4", "buzz"], "buzz") == 1
    ensures FizzBuzzStats.Occurrences(["1", "2", "lucky", "4", "buzz"], "fizzbuzz") == 0
    ensures FizzBuzzStats.Occurrences(["1", "2", "lucky", "4", "buzz"], "lucky") == 1
    ensures FizzBuzzStats.Occurrences(["1", "2", "lucky", "4", "buzz"], "integer") == 3
  {
    BucketsOfLabels();
    OccurrencesOfFive("1", "2", "lucky", "4", "buzz", "fizz");
    OccurrencesOfFive("1", "2", "lucky", "4", "buzz", "buzz");
    OccurrencesOfFive("1", "2", "lucky", "4", "buzz", "fizzbuzz");
    OccurrencesOfFive("1", "2", "lucky", "4", "buzz", "lucky");
    OccurrencesOfFive("1", "2", "lucky", "4", "buzz", "integer");
  }

  lemma LabelsSixToTen()
    ensures Labels(6, 10) == ["fizz", "7", "8", "fizz", "buzz"]
  {
    assert FizzBuzz(6) == "fizz" && FizzBuzz(7) == "7" && FizzBuzz(8) == "8" && FizzBuzz(9) == "fizz" && FizzBuzz(10) == "buzz";
    LabelsAt(6, 10);
  }

  lemma TextSixToTen()
    ensures Strings.Join(Labels(6, 10), ' ') == "fizz 7 8 fizz buzz"
  {
    LabelsSixToTen();
    JoinOfFive("fizz", "7", "8", "fizz", "buzz");
  }

  lemma CountsSixToTen()
    ensures FizzBuzzStats.Occurrences(["fizz", "7", "8", "fizz", "buzz"], "fizz") == 2
    ensures FizzBuzzStats.Occurrences(["fizz", "7", "8", "fizz", "buzz"], "buzz") == 1
    ensures FizzBuzzStats.Occurrences(["fizz", "7", "8", "fizz", "buzz"], "fizzbuzz") == 0
    ensures FizzBuzzStats.Occurrences(["fizz", "7", "8", "fizz", "buzz"], "lucky") == 0
    ensures FizzBuzzStats.Occurrences(["fizz", "7", "8", "fizz", "buzz"], "integer") == 2
  {
    BucketsOfLabels();
    OccurrencesOfFive("fizz", "7", "8", "fizz", "buzz", "fizz");
    OccurrencesOfFive("fizz", "7", "8", "fizz", "buzz", "buzz");
    OccurrencesOfFive("fizz", "7", "8", "fizz", "buzz", "fizzbuzz");
    OccurrencesOfFive("fizz", "7", "8", "fizz", "buzz", "lucky");
    OccurrencesOfFive("fizz", "7", "8", "fizz", "buzz", "integer");
  }

  lemma LabelsElevenToFifteen()
    ensures Labels(11, 15) == ["11", "fizz", "lucky", "14", "fizzbuzz"]
  {
    assert FizzBuzz(11) == "11" && FizzBuzz(12) == "fizz" && FizzBuzz(13) == "lucky" && FizzBuzz(14) == "14" && FizzBuzz(15) == "fizzbuzz";
    LabelsAt(11, 15);
  }

  lemma TextElevenToFifteen()
    ensures Strings.Join(Labels(11, 15), ' ') == "11 fizz lucky 14 fizzbuzz"
  {
    LabelsElevenToFifteen();
    JoinOfFive("11", "fizz", "lucky", "14", "fizzbuzz");
  }

  lemma CountsElevenToFifteen()
    ensures FizzBuzzStats.Occurrences(["11", "fizz", "lucky", "14", "fizzbuzz"], "fizz") == 1
    ensures FizzBuzzStats.Occurrences(["11", "fizz", "lucky", "14", "fizzbuzz"], "buzz") == 0
    ensures FizzBuzzStats.Occurrences(["11", "fizz", "lucky", "14", "fizzbuzz"], "fizzbuzz") == 1
    ensures FizzBuzzStats.Occurrences(["11", "fizz", "lucky", "14", "fizzbuzz"], "lucky") == 1
    ensures FizzBuzzStats.Occurrences(["11", "fizz", "lucky", "14", "fizzbuzz"], "integer") == 2
  {
    BucketsOfLabels();
    OccurrencesOfFive("11", "fizz", "lucky", "14", "fizzbuzz", "fizz");
    OccurrencesOfFive("11", "fizz", "lucky", "14", "fizzbuzz", "buzz");
    OccurrencesOfFive("11", "fizz", "lucky", "14", "fizzbuzz", "fizzbuzz");
    OccurrencesOfFive("11", "fizz", "lucky", "14", "fizzbuzz", "lucky");
    OccurrencesOfFive("11", "fizz", "lucky", "14", "fizzbuzz", "integer");
  }

  lemma LabelsSixteenToTwenty()
    ensures Labels(16, 20) == ["16", "17", "fizz", "19", "buzz"]
  {
    assert FizzBuzz(16) == "16" && FizzBuzz(17) == "17" && FizzBuzz(18) == "fizz" && FizzBuzz(19) == "19" && FizzBuzz(20) == "buzz";
    LabelsAt(16, 20);
  }

  lemma TextSixteenToTwenty()
    ensures Strings.Join(Labels(16, 20), ' ') == "16 17 fizz 19 buzz"
  {
    LabelsSixteenToTwenty();
    JoinOfFive("16", "17", "fizz", "19", "buzz");
  }

  lemma CountsSixteenToTwenty()
    ensures FizzBuzzStats.Occurrences(["16", "17", "fizz", "19", "buzz"], "fizz") == 1
    ensures FizzBuzzStats.Occurrences(["16", "17", "fizz", "19", "buzz"], "buzz") == 1
    ensures FizzBuzzStats.Occurrences(["16", "17", "fizz", "19", "buzz"], "fizzbuzz") == 0
    ensures FizzBuzzStats.Occurrences(["16", "17", "fizz", "19", "buzz"], "lucky") == 0
    ensures FizzBuzzStats.Occurrences(["16", "17", "fizz", "19", "buzz"], "integer") == 3
  {
    BucketsOfLabels();
    OccurrencesOfFive("16", "17", "fizz", "19", "buzz", "fizz");
    OccurrencesOfFive("16", "17", "fizz", "19", "buzz", "buzz");
    OccurrencesOfFive("16", "17", "fizz", "19", "buzz", "fizzbuzz");
    OccurrencesOfFive("16", "17", "fizz", "19", "buzz", "lucky");
    OccurrencesOfFive("16", "17", "fizz", "19", "buzz", "integer");
  }

  lemma JoinOfFour(a: seq<string>, b: seq<string>, c: seq<string>, d: seq<string>,
                   ta: string, tb: string, tc: string, td: string)
    requires |a| >= 1 && |b| >= 1 && |c| >= 1 && |d| >= 1
    requires Strings.Join(a, ' ') == ta && Strings.Join(b, ' ') == tb
    requires Strings.Join(c, ' ') == tc && Strings.Join(d, ' ') == td
    ensures Strings.Join(a + b + c + d, ' ') == ta + " " + tb + " " + tc + " " + td
  {
    Strings.JoinAppend(a, b, ' ');
    Strings.JoinAppend(a + b, c, ' ');
    Strings.JoinAppend(a + b + c, d, ' ');
  }

  lemma OccurrencesOfFour(a: seq<string>, b: seq<string>, c: seq<string>, d: seq<string>, key: string)
    ensures FizzBuzzStats.Occurrences(a + b + c + d, key) ==
            FizzBuzzStats.Occurrences(a, key) + FizzBuzzStats.Occurrences(b, key) +
            FizzBuzzStats.Occurrences(c, key) + FizzBuzzStats.Occurrences(d, key)
  {
    FizzBuzzStats.OccurrencesAppend(a + b + c, d, key);
    FizzBuzzStats.OccurrencesAppend(a + b, c, key);
    FizzBuzzStats.OccurrencesAppend(a, b, key);
  }

  lemma OneToTwentyInFives()
    ensures Outcomes(Ranges.Range(1, 20)) == Labels(1, 5) + Labels(6, 10) + Labels(11, 15) + Labels(16, 20)
  {
    LabelsSplit(1, 5, 20);
    LabelsSplit(6, 10, 20);
    LabelsSplit(11, 15, 20);
  }

  /** The text for 1..20, as the unit tests give it. */
  lemma RangeOneToTwenty()
    ensures Strings.Join(Outcomes(Ranges.Range(1, 20)), ' ') ==
            "1 2 lucky 4 buzz" + " " + "fizz 7 8 fizz buzz" + " " +
            "11 fizz lucky 14 fizzbuzz" + " " + "16 17 fizz 19 buzz"
  {
    OneToTwentyInFives();
    TextOneToFive();
    TextSixToTen();
    TextElevenToFifteen();
    TextSixteenToTwenty();
    LabelsAt(1, 5);
    LabelsAt(6, 10);
    LabelsAt(11, 15);
    LabelsAt(16, 20);
    JoinOfFour(Labels(1, 5), Labels(6, 10), Labels(11, 15), Labels(16, 20),
               "1 2 lucky 4 buzz", "fizz 7 8 fizz buzz", "11 fizz lucky 14 fizzbuzz", "16 17 fizz 19 buzz");
  }

  /** The stat line of a key over four stretches, given its count in each. */
  lemma StatLineOfFour(a: seq<string>, b: seq<string>, c: seq<string>, d: seq<string>,
                       key: string, na: nat, nb: nat, nc: nat, nd: nat, n: nat)
    requires FizzBuzzStats.Occurrences(a, key) == na && FizzBuzzStats.Occurrences(b, key) == nb
    requires FizzBuzzStats.Occurrences(c, key) == nc && FizzBuzzStats.Occurrences(d, key) == nd
    requires n == na + nb + nc + nd > 0
    ensures FizzBuzzStats.Stats(FizzBuzzStats.Tally(a + b + c + d)).GetStat(key) ==
            key + ": " + Decimal.IntToString(n)
  {
    OccurrencesOfFour(a, b, c, d, key);
    StatLine(a + b + c + d, key, n);
  }

  /** The stat line of a key that occurs n > 0 times carries n. */
  lemma StatLine(labels: seq<string>, key: string, n: nat)
    requires FizzBuzzStats.Occurrences(labels, key) == n > 0
    ensures FizzBuzzStats.Stats(FizzBuzzStats.Tally(labels)).GetStat(key) == key + ": " + Decimal.IntToString(n)
  {
    FizzBuzzStats.TallyCounts(labels, key);
  }

  /** The stat line of a key that never occurs carries "null". */
  lemma NullLine(labels: seq<string>, key: string)
    requires FizzBuzzStats.Occurrences(labels, key) == 0
    ensures FizzBuzzStats.Stats(FizzBuzzStats.Tally(labels)).GetStat(key) == key + ": null"
  {
    FizzBuzzStats.TallyCounts(labels, key);
  }

  /** Decimal texts of the counts that occur in the examples. */
  lemma SmallNumbers()
    ensures Decimal.IntToString(1) == "1" && Decimal.IntToString(2) == "2"
    ensures Decimal.IntToString(3) == "3" && Decimal.IntToString(4) == "4"
    ensures Decimal.IntToString(10) == "10"
  {
  }

  /** The report splits into the text of the labels and the text of the stats. */
  lemma ReportFromParts(range: Ranges.Range, labelsText: string, statsText: string)
    requires range.min <= range.max
    requires Strings.Join(Outcomes(range), ' ') == labelsText
    requires Strings.Join(ReportStats(FizzBuzzStats.Stats(FizzBuzzStats.Tally(Outcomes(range)))), ' ') == statsText
    ensures ReportText(range) == labelsText + " " + statsText
  {
    LabelsAt(range.min, range.max);
    Strings.JoinAppend(Outcomes(range), ReportStats(FizzBuzzStats.Stats(FizzBuzzStats.Tally(Outcomes(range)))), ' ');
  }

  /** The five stat lines, given each of them. */
  lemma ReportStatsOf(stats: FizzBuzzStats.Stats, f: string, b: string, fb: string, l: string, i: string)
    requires stats.GetStat("fizz") == f && stats.GetStat("buzz") == b && stats.GetStat("fizzbuzz") == fb
    requires stats.GetStat("lucky") == l && stats.GetStat("integer") == i
    ensures ReportStats(stats) == [f, b, fb, l, i]
  {
  }

  /** The five stats for 1..20: fizz 4, buzz 3, fizzbuzz 1, lucky 2, integer 10. */
  lemma StatsOneToTwenty(a: seq<string>, b: seq<string>, c: seq<string>, d: seq<string>)
    requires a == Labels(1, 5) && b == Labels(6, 10) && c == Labels(11, 15) && d == Labels(16, 20)
    ensures ReportStats(FizzBuzzStats.Stats(FizzBuzzStats.Tally(a + b + c + d))) ==
            ["fizz: 4", "buzz: 3", "fizzbuzz: 1", "lucky: 2", "integer: 10"]
  {
    LabelsOneToFive();
    LabelsSixToTen();
    LabelsElevenToFifteen();
    LabelsSixteenToTwenty();
    CountsOneToFive();
    CountsSixToTen();
    CountsElevenToFifteen();
    CountsSixteenToTwenty();
    StatsOfFour(a, b, c, d);
  }

  lemma StatsOfFour(a: seq<string>, b: seq<string>, c: seq<string>, d: seq<string>)
    requires FizzBuzzStats.Occurrences(a, "fizz") == 0 && FizzBuzzStats.Occurrences(b, "fizz") == 2
    requires FizzBuzzStats.Occurrences(c, "fizz") == 1 && FizzBuzzStats.Occurrences(d, "fizz") == 1
    requires FizzBuzzStats.Occurrences(a, "buzz") == 1 && FizzBuzzStats.Occurrences(b, "buzz") == 1
    requires FizzBuzzStats.Occurrences(c, "buzz") == 0 && FizzBuzzStats.Occurrences(d, "buzz") == 1
    requires FizzBuzzStats.Occurrences(a, "fizzbuzz") == 0 && FizzBuzzStats.Occurrences(b, "fizzbuzz") == 0
    requires FizzBuzzStats.Occurrences(c, "fizzbuzz") == 1 && FizzBuzzStats.Occurrences(d, "fizzbuzz") == 0
    requires FizzBuzzStats.Occurrences(a, "lucky") == 1 && FizzBuzzStats.Occurrences(b, "lucky") == 0
    requires FizzBuzzStats.Occurrences(c, "lucky") == 1 && FizzBuzzStats.Occurrences(d, "lucky") == 0
    requires FizzBuzzStats.Occurrences(a, "integer") == 3 && FizzBuzzStats.Occurrences(b, "integer") == 2
    requires FizzBuzzStats.Occurrences(c, "integer") == 2 && FizzBuzzStats.Occurrences(d, "integer") == 3
    ensures ReportStats(FizzBuzzStats.Stats(FizzBuzzStats.Tally(a + b + c + d))) ==
            ["fizz: 4", "buzz: 3", "fizzbuzz: 1", "lucky: 2", "integer: 10"]
  {
    StatLineOfFour(a, b, c, d, "fizz", 0, 2, 1, 1, 4);
    StatLineOfFour(a, b, c, d, "buzz", 1, 1, 0, 1, 3);
    StatLineOfFour(a, b, c, d, "fizzbuzz", 0, 0, 1, 0, 1);
    StatLineOfFour(a, b, c, d, "lucky", 1, 0, 1, 0, 2);
    StatLineOfFour(a, b, c, d, "integer", 3, 2, 2, 3, 10);
    LinesOneToTwenty(FizzBuzzStats.Stats(FizzBuzzStats.Tally(a + b + c + d)));
  }

  lemma LinesOneToTwenty(stats: FizzBuzzStats.Stats)
    requires stats.GetStat("fizz") == "fizz" + ": " + Decimal.IntToString(4)
    requires stats.GetStat("buzz") == "buzz" + ": " + Decimal.IntToString(3)
    requires stats.GetStat("fizzbuzz") == "fizzbuzz" + ": " + Decimal.IntToString(1)
    requires stats.GetStat("lucky") == "lucky" + ": " + Decimal.IntToString(2)
    requires stats.GetStat("integer") == "integer" + ": " + Decimal.IntToString(10)
    ensures ReportStats(stats) == ["fizz: 4", "buzz: 3", "fizzbuzz: 1", "lucky: 2", "integer: 10"]
  {
    SmallNumbers();
    ReportStatsOf(stats, "fizz: 4", "buzz: 3", "fizzbuzz: 1", "lucky: 2", "integer: 10");
  }

  lemma StatsText()
    ensures Strings.Join(["fizz: 4", "buzz: 3", "fizzbuzz: 1", "lucky: 2", "integer: 10"], ' ') ==
            "fizz: 4" + " " + "buzz: 3" + " " + "fizzbuzz: 1" + " " + "lucky: 2" + " " + "integer: 10"
  {
    JoinOfFive("fizz: 4", "buzz: 3", "fizzbuzz: 1", "lucky: 2", "integer: 10");
  }

  /** The report for 1..20, as the unit tests give it. */
  lemma ReportOneToTwenty()
    ensures ReportText(Ranges.Range(1, 20)) ==
            ("1 2 lucky 4 buzz" + " " + "fizz 7 8 fizz buzz" + " " +
             "11 fizz lucky 14 fizzbuzz" + " " + "16 17 fizz 19 buzz") + " " +
            ("fizz: 4" + " " + "buzz: 3" + " " + "fizzbuzz: 1" + " " + "lucky: 2" + " " + "integer: 10")
  {
    RangeOneToTwenty();
    OneToTwentyInFives();
    StatsOneToTwenty(Labels(1, 5), Labels(6, 10), Labels(11, 15), Labels(16, 20));
    StatsText();
    ReportFromParts(Ranges.Range(1, 20),
                    "1 2 lucky 4 buzz" + " " + "fizz 7 8 fizz buzz" + " " +
                    "11 fizz lucky 14 fizzbuzz" + " " + "16 17 fizz 19 buzz",
                    "fizz: 4" + " " + "buzz: 3" + " " + "fizzbuzz: 1" + " " + "lucky: 2" + " " + "integer: 10");
  }

  /** The stats for 1..2: four buckets never occur. */
  lemma StatsOneToTwo(labels: seq<string>)
    requires labels == Labels(1, 2)
    ensures ReportStats(FizzBuzzStats.Stats(FizzBuzzStats.Tally(labels))) ==
            ["fizz: null", "buzz: null", "fizzbuzz: null", "lucky: null", "integer: 2"]
  {
    LabelsAt(1, 2);
    assert FizzBuzz(1) == "1" && FizzBuzz(2) == "2";
    StatsOfNumbers(labels);
  }

  lemma StatsOfNumbers(labels: seq<string>)
    requires labels == ["1", "2"]
    ensures ReportStats(FizzBuzzStats.Stats(FizzBuzzStats.Tally(labels))) ==
            ["fizz: null", "buzz: null", "fizzbuzz: null", "lucky: null", "integer: 2"]
  {
    CountsOfNumbers();
    NullLine(labels, "fizz");
    NullLine(labels, "buzz");
    NullLine(labels, "fizzbuzz");
    NullLine(labels, "lucky");
    StatLine(labels, "integer", 2);
    LinesOneToTwo(FizzBuzzStats.Stats(FizzBuzzStats.Tally(labels)));
  }

  lemma CountsOfNumbers()
    ensures FizzBuzzStats.Occurrences(["1", "2"], "fizz") == 0
    ensures FizzBuzzStats.Occurrences(["1", "2"], "buzz") == 0
    ensures FizzBuzzStats.Occurrences(["1", "2"], "fizzbuzz") == 0
    ensures FizzBuzzStats.Occurrences(["1", "2"], "lucky") == 0
    ensures FizzBuzzStats.Occurrences(["1", "2"], "integer") == 2
  {
    NumberUtils.WordsAreNotNumbers();
    assert FizzBuzzStats.Bucket("1") == "integer" && FizzBuzzStats.Bucket("2") == "integer";
  }

  lemma LinesOneToTwo(stats: FizzBuzzStats.Stats)
    requires stats.GetStat("fizz") == "fizz" + ": null" && stats.GetStat("buzz") == "buzz" + ": null"
    requires stats.GetStat("fizzbuzz") == "fizzbuzz" + ": null" && stats.GetStat("lucky") == "lucky" + ": null"
    requires stats.GetStat("integer") == "integer" + ": " + Decimal.IntToString(2)
    ensures ReportStats(stats) == ["fizz: null", "buzz: null", "fizzbuzz: null", "lucky: null", "integer: 2"]
  {
    SmallNumbers();
    ReportStatsOf(stats, "fizz: null", "buzz: null", "fizzbuzz: null", "lucky: null", "integer: 2");
  }

  lemma NullStatsText()
    ensures Strings.Join(["fizz: null", "buzz: null", "fizzbuzz: null", "lucky: null", "integer: 2"], ' ') ==
            "fizz: null" + " " + "buzz: null" + " " + "fizzbuzz: null" + " " + "lucky: null" + " " + "integer: 2"
  {
    JoinOfFive("fizz: null", "buzz: null", "fizzbuzz: null", "lucky: null", "integer: 2");
  }

  /** A bucket that never occurs is reported with "null", not 0 and not an error. */
  lemma ReportOneToTwo()
    ensures ReportText(Ranges.Range(1, 2)) ==
            "1 2" + " " +
            ("fizz: null" + " " + "buzz: null" + " " + "fizzbuzz: null" + " " + "lucky: null" + " " + "integer: 2")
  {
    TextOneToTwo();
    StatsOneToTwo(Labels(1, 2));
    NullStatsText();
    ReportFromParts(Ranges.Range(1, 2), "1 2",
                    "fizz: null" + " " + "buzz: null" + " " + "fizzbuzz: null" + " " + "lucky: null" + " " + "integer: 2");
  }

  /** ["1", "1", "1", "1"] gives "integer: 4". */
  lemma AggregatesIntegers()
    ensures FizzBuzzStats.Stats(FizzBuzzStats.Tally(["1", "1", "1", "1"])).GetStat("integer") == "integer: 4"
  {
    StatLine(["1", "1", "1", "1"], "integer", 4);
    SmallNumbers();
  }

  /** ["A", "A", "B", "B"] gives "A: 2" and "B: 2". */
  lemma AggregatesOtherValues()
    ensures FizzBuzzStats.Stats(FizzBuzzStats.Tally(["A", "A", "B", "B"])).GetStat("A") == "A: 2"
    ensures FizzBuzzStats.Stats(FizzBuzzStats.Tally(["A", "A", "B", "B"])).GetStat("B") == "B: 2"
  {
    StatLine(["A", "A", "B", "B"], "A", 2);
    StatLine(["A", "A", "B", "B"], "B", 2);
    SmallNumbers();
  }

}
