/**
 * FizzBuzzer: the classifier, the expansion of a range into labels, and
 * the two renderings (labels only, and labels followed by five counts).
 */
module FizzBuzzer {
  import opened Wrappers
  import opened JavaInt
  import Decimal
  import NumberUtils
  import Strings
  import Ranges
  import FizzBuzzStats

  /**
   * `fizzBuzz`: first match wins. A '3' anywhere in the decimal text
   * gives "lucky", ahead of every divisibility test. Java's `%`
   * truncates where Dafny's does not, but the two agree on whether the
   * remainder is zero, which is all that is tested.
   */
  function FizzBuzz(number: Int32): string {
    var value := Decimal.IntToString(number);
    if '3' in value then "lucky"
    else if number % 15 == 0 then "fizzbuzz"
    else if number % 5 == 0 then "buzz"
    else if number % 3 == 0 then "fizz"
    else value
  }

  /**
   * The classification, stated on the number itself: a digit 3 in |n|
   * wins; then a multiple of 15, of 5 only, of 3 only; otherwise the
   * label is the decimal text of n, which reads back as n and holds no '3'.
   */
  lemma Classification(number: Int32)
    ensures Decimal.HasDigit(Decimal.Abs(number), 3) ==> FizzBuzz(number) == "lucky"
    ensures !Decimal.HasDigit(Decimal.Abs(number), 3) && number % 15 == 0 ==> FizzBuzz(number) == "fizzbuzz"
    ensures !Decimal.HasDigit(Decimal.Abs(number), 3) && number % 5 == 0 && number % 15 != 0 ==>
              FizzBuzz(number) == "buzz"
    ensures !Decimal.HasDigit(Decimal.Abs(number), 3) && number % 3 == 0 && number % 5 != 0 ==>
              FizzBuzz(number) == "fizz"
    ensures !Decimal.HasDigit(Decimal.Abs(number), 3) && number % 3 != 0 && number % 5 != 0 ==>
              FizzBuzz(number) == Decimal.IntToString(number) &&
              Decimal.ParseInt(FizzBuzz(number)) == Some(number as int) && '3' !in FizzBuzz(number)
  {
    Decimal.ThreeInText(number);
    Decimal.IntRoundTrip(number);
    MultipleOf15(number);
  }

  /** A multiple of 15 is exactly a multiple of both 3 and 5. */
  lemma MultipleOf15(n: int)
    ensures n % 15 == 0 <==> n % 3 == 0 && n % 5 == 0
  {
    var q, r := n / 15, n % 15;
    assert n == 15 * q + r;
    assert n % 3 == r % 3 by { assert n == 3 * (5 * q) + r; }
    assert n % 5 == r % 5 by { assert n == 5 * (3 * q) + r; }
  }

  /** A label is one of the four words, or the number's own decimal text. */
  predicate IsWord(outcome: string) {
    outcome == "lucky" || outcome == "fizzbuzz" || outcome == "buzz" || outcome == "fizz"
  }

  /**
   * Every label is a word or a numeric string, never both; it is
   * numeric exactly when no rule fired, and then it holds no space.
   */
  lemma LabelKinds(number: Int32)
    ensures IsWord(FizzBuzz(number)) != NumberUtils.IsNumber(FizzBuzz(number))
    ensures NumberUtils.IsNumber(FizzBuzz(number)) <==>
              !Decimal.HasDigit(Decimal.Abs(number), 3) && number % 3 != 0 && number % 5 != 0
    ensures ' ' !in FizzBuzz(number)
  {
    Classification(number);
    NumberUtils.WordsAreNotNumbers();
    NumberUtils.DecimalTextIsNumber(number);
    Decimal.IntToStringShape(number);
    assert ' ' !in "lucky" && ' ' !in "fizzbuzz" && ' ' !in "buzz" && ' ' !in "fizz";
  }

  /** Labels for lo, lo+1, ..., hi in increasing order: empty when lo > hi. */
  function Labels(lo: int, hi: int): seq<string>
    requires MinInt32 <= lo && hi <= MaxInt32
    decreases hi - lo + 1
  {
    if lo > hi then [] else [FizzBuzz(lo)] + Labels(lo + 1, hi)
  }

  /** The labels of a range. */
  function Outcomes(range: Ranges.Range): seq<string> {
    Labels(range.min, range.max)
  }

  /** One label per integer of [lo, hi], the k-th being that of lo + k. */
  lemma {:induction false} LabelsAt(lo: int, hi: int)
    requires MinInt32 <= lo && hi <= MaxInt32
    ensures |Labels(lo, hi)| == if lo <= hi then hi - lo + 1 else 0
    ensures forall k :: 0 <= k < |Labels(lo, hi)| ==> Labels(lo, hi)[k] == FizzBuzz(lo + k)
    decreases hi - lo + 1
  {
    if lo <= hi {
      LabelsAt(lo + 1, hi);
      var rest := Labels(lo + 1, hi);
      assert Labels(lo, hi) == [FizzBuzz(lo)] + rest;
      forall k | 0 <= k < |Labels(lo, hi)|
        ensures Labels(lo, hi)[k] == FizzBuzz(lo + k)
      {
        if k > 0 {
          assert Labels(lo, hi)[k] == rest[k - 1];
        }
      }
    }
  }

  /** No label of a range holds a space. */
  lemma NoSpaceInOutcomes(range: Ranges.Range)
    ensures forall k :: 0 <= k < |Outcomes(range)| ==> ' ' !in Outcomes(range)[k]
  {
    LabelsAt(range.min, range.max);
    forall k | 0 <= k < |Outcomes(range)|
      ensures ' ' !in Outcomes(range)[k]
    {
      LabelKinds(range.min + k);
    }
  }

  /**
   * `generateFizzBuzzList`: a counted loop from min up to max inclusive,
   * appending one label per step. The counter is a mathematical integer,
   * so the loop also ends when max is Integer.MAX_VALUE.
   */
  method GenerateFizzBuzzList(range: Ranges.Range) returns (list: seq<string>)
    ensures |list| == range.Size()
    ensures forall k :: 0 <= k < |list| ==> list[k] == FizzBuzz(range.min + k)
    ensures list == Outcomes(range)
  {
    list := [];
    var i: int := range.min;
    while i <= range.max
      invariant range.min <= i
      invariant range.min <= range.max ==> i <= range.max + 1
      invariant range.min > range.max ==> i == range.min
      invariant |list| == i - range.min
      invariant forall k :: 0 <= k < |list| ==> list[k] == FizzBuzz(range.min + k)
      decreases range.max - i
    {
      list := list + [FizzBuzz(i)];
      i := i + 1;
    }
    LabelsAt(range.min, range.max);
  }

  /**
   * The loop of `generateFizzBuzzList` as it is written: the counter is a
   * Java `int`, so `i++` at Integer.MAX_VALUE wraps to Integer.MIN_VALUE
   * and `i <= max` holds again. `fuel` bounds the number of iterations
   * examined; None means no list is returned within that many. The
   * capacity of the list the loop appends to is not part of this model.
   */
  function GenerateAsWritten(i: Int32, max: Int32, acc: seq<string>, fuel: nat): Option<seq<string>>
    decreases fuel
  {
    if i > max then Some(acc)
    else if fuel == 0 then None
    else GenerateAsWritten(Increment(i), max, acc + [FizzBuzz(i)], fuel - 1)
  }

  /** Below Integer.MAX_VALUE the loop as written ends with the labels of [i, max]. */
  lemma {:induction false} AsWrittenBelowMaxInt(i: Int32, max: Int32, acc: seq<string>, fuel: nat)
    requires max < MaxInt32
    requires i <= max ==> fuel > max - i
    ensures GenerateAsWritten(i, max, acc, fuel) == Some(acc + Labels(i, max))
    decreases fuel
  {
    if i <= max {
      AsWrittenBelowMaxInt(i + 1, max, acc + [FizzBuzz(i)], fuel - 1);
      assert acc + [FizzBuzz(i)] + Labels(i + 1, max) == acc + Labels(i, max);
    } else {
      assert acc + Labels(i, max) == acc;
    }
  }

  /**
   * With max == Integer.MAX_VALUE the guard of the loop as written never
   * fails, whatever the start: no number of iterations reaches the return.
   */
  lemma {:induction false} AsWrittenGuardNeverFailsAtMaxInt(i: Int32, acc: seq<string>, fuel: nat)
    ensures GenerateAsWritten(i, MaxInt32, acc, fuel) == None
    decreases fuel
  {
    if fuel > 0 {
      AsWrittenGuardNeverFailsAtMaxInt(Increment(i), acc + [FizzBuzz(i)], fuel - 1);
    }
  }

  /** The one-element range at Integer.MAX_VALUE: intended ["lucky"], as written no list is returned. */
  lemma MaxIntRange(fuel: nat)
    ensures GenerateAsWritten(MaxInt32, MaxInt32, [], fuel) == None
    ensures Outcomes(Ranges.Range(MaxInt32, MaxInt32)) == ["lucky"]
  {
    AsWrittenGuardNeverFailsAtMaxInt(MaxInt32, [], fuel);
    assert Decimal.HasDigit(2147483, 3);
    assert Decimal.HasDigit(21474836, 3);
    assert Decimal.HasDigit(214748364, 3);
    assert Decimal.HasDigit(2147483647, 3);
    Classification(MaxInt32);
    LabelsAt(MaxInt32, MaxInt32);
  }

  /** `range`: the labels joined by single spaces; splitting at spaces gives them back. */
  method Range(range: Ranges.Range) returns (text: string)
    ensures text == Strings.Join(Outcomes(range), ' ')
    ensures range.min <= range.max ==> Strings.Split(text, ' ') == Outcomes(range)
    ensures range.min > range.max ==> text == ""
  {
    var list := GenerateFizzBuzzList(range);
    text := Strings.Join(list, ' ');
    if range.min <= range.max {
      NoSpaceInOutcomes(range);
      Strings.SplitJoin(list, ' ');
    }
  }

  /** The five stats appended by `report`, in their fixed order. */
  function ReportStats(stats: FizzBuzzStats.Stats): (lines: seq<string>)
    ensures |lines| == 5
  {
    [stats.GetStat("fizz"), stats.GetStat("buzz"), stats.GetStat("fizzbuzz"),
     stats.GetStat("lucky"), stats.GetStat(FizzBuzzStats.IntegerKey)]
  }

  /** The text `report` gives: the labels, then the five stats of their table. */
  function ReportText(range: Ranges.Range): string {
    var labels := Outcomes(range);
    Strings.Join(labels + ReportStats(FizzBuzzStats.Stats(FizzBuzzStats.Tally(labels))), ' ')
  }

  /**
   * `report`: the labels of the range, then the stats for fizz, buzz,
   * fizzbuzz, lucky and integer, all joined by single spaces. A bucket
   * that never occurred is rendered with "null" as its count.
   */
  method Report(range: Ranges.Range) returns (text: string)
    ensures text == ReportText(range)
    ensures var stats := FizzBuzzStats.Stats(FizzBuzzStats.Tally(Outcomes(range)));
            range.min <= range.max ==>
              text == Strings.Join(Outcomes(range), ' ') + " " + Strings.Join(ReportStats(stats), ' ')
  {
    var list := GenerateFizzBuzzList(range);
    ghost var labels := list;
    var stats := FizzBuzzStats.Create(list);
    list := list + [stats.GetStat("fizz")];
    list := list + [stats.GetStat("buzz")];
    list := list + [stats.GetStat("fizzbuzz")];
    list := list + [stats.GetStat("lucky")];
    list := list + [stats.GetStat(FizzBuzzStats.IntegerKey)];
    text := Strings.Join(list, ' ');
    ReportTextOf(range, labels, stats, list, text);
  }

  /** What `report` computes, step by step, is `ReportText`. */
  lemma ReportTextOf(range: Ranges.Range, labels: seq<string>, stats: FizzBuzzStats.Stats,
                     list: seq<string>, text: string)
    requires labels == Outcomes(range)
    requires stats.values == FizzBuzzStats.Tally(labels)
    requires list == labels + [stats.GetStat("fizz")] + [stats.GetStat("buzz")] + [stats.GetStat("fizzbuzz")]
                           + [stats.GetStat("lucky")] + [stats.GetStat(FizzBuzzStats.IntegerKey)]
    requires text == Strings.Join(list, ' ')
    ensures text == ReportText(range)
    ensures range.min <= range.max ==>
              text == Strings.Join(Outcomes(range), ' ') + " " + Strings.Join(ReportStats(stats), ' ')
  {
    assert list == labels + ReportStats(stats);
    if range.min <= range.max {
      Strings.JoinAppend(labels, ReportStats(stats), ' ');
    }
  }

  /**
   * The table `report` builds holds only the five buckets, and its counts
   * add up to the number of integers in the range.
   */
  lemma ReportBuckets(range: Ranges.Range)
    ensures forall key :: key in FizzBuzzStats.Tally(Outcomes(range)) ==>
              IsWord(key) || key == FizzBuzzStats.IntegerKey
    ensures FizzBuzzStats.Total(FizzBuzzStats.Tally(Outcomes(range))) == range.Size()
  {
    var labels := Outcomes(range);
    LabelsAt(range.min, range.max);
    FizzBuzzStats.TallyTotal(labels);
    forall key | key in FizzBuzzStats.Tally(labels)
      ensures IsWord(key) || key == FizzBuzzStats.IntegerKey
    {
      FizzBuzzStats.TallyKeys(labels, key);
      if key != FizzBuzzStats.IntegerKey {
        var k :| 0 <= k < |labels| && labels[k] == key;
        LabelKinds(range.min + k);
        if NumberUtils.IsNumber(key) {
          FizzBuzzStats.NumbersOnlyUnderInteger(labels, key);
        }
      }
    }
  }

  /** Labels of adjacent stretches concatenate. */
  lemma {:induction false} LabelsSplit(lo: int, mid: int, hi: int)
    requires MinInt32 <= lo <= mid + 1 && mid <= hi <= MaxInt32
    ensures Labels(lo, hi) == Labels(lo, mid) + Labels(mid + 1, hi)
    decreases mid - lo + 1
  {
    if lo <= mid {
      LabelsSplit(lo + 1, mid, hi);
      var head := [FizzBuzz(lo)];
      assert Labels(lo, hi) == head + Labels(lo + 1, hi);
      assert Labels(lo, mid) == head + Labels(lo + 1, mid);
      assert head + (Labels(lo + 1, mid) + Labels(mid + 1, hi)) == (head + Labels(lo + 1, mid)) + Labels(mid + 1, hi);
    }
  }

}
