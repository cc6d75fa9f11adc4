# RealFizzBuzz in Dafny

A model of the Java "RealFizzBuzz" exercise. It covers three parts:

- **The classifier `fizzBuzz`.** A digit 3 anywhere in the number gives "lucky". Otherwise a multiple of 15 gives "fizzbuzz", of 5 "buzz", of 3 "fizz", and any other number its own decimal text.
- **The renderings of a range.** `range` gives the labels joined by spaces. `report` gives the same labels followed by five stat lines.
- **The aggregator `FizzBuzzStats`.** It counts the labels, folding every numeric label into the single bucket "integer".

Modules, one per concern of the program:

- `JavaInt`: the 32-bit `int` range and the wrap-around of `i++`.
- `Decimal`: `String.valueOf(int)`. It is proved against a parser (`ParseInt`) and an arithmetic "has digit 3" test.
- `NumberUtils`: the numeric test the aggregator uses.
- `Strings`: `String.join` with a one-character delimiter. It is proved against `Split`.
- `Ranges`: `Range`. It is immutable, so it is a datatype whose fields are the `min()` and `max()` accessors; they give back exactly the constructor's arguments and never change. The constructor accepts a reversed range (min > max).
- `FizzBuzzStats`: the counting table.
  - `Create` is the imperative loop of `create`, proved against the specification function `Tally`.
  - `Stats.GetStat` is the lookup-and-format of `getStat`.
  - The stats object only wraps a table that is never changed after `create`, so it is a datatype.
- `FizzBuzzer`: the classifier and the range expansion.
  - `GenerateFizzBuzzList` is a loop proved against the function `Labels`.
  - `Range` and `Report` are methods proved against `Strings.Join` and `ReportText`.
- `FizzBuzzExamples`: the outcomes the repository's unit tests expect, derived from the model. They cover single classifications, the four short ranges, the text and report for 1..20, and the two aggregation cases.

Behaviour of the code that the model keeps:

- `getStat` never throws, not even for a key that never occurred. `HashMap.get` gives null and `String.format` writes it as "null", so the line reads `fizz: null` (see `ReportOneToTwo`).
- The counts are naturals, and this is exact. `create` takes an `ArrayList`, which holds at most Integer.MAX_VALUE elements, so no count passes Integer.MAX_VALUE and `current + 1` never wraps.
- Java's `%` truncates toward zero while Dafny's is Euclidean. The two agree on whether the remainder is zero, which is the only thing the classifier tests.

## Model

| member | source | states |
|---|---|---|
| JavaInt.Increment | scratch/RealFizzBuzz/src/main/java/FizzBuzzer.java:44 | `i++` on an `int`: one more below Integer.MAX_VALUE, Integer.MIN_VALUE at Integer.MAX_VALUE |
| Ranges.Range | scratch/RealFizzBuzz/src/main/java/Range.java:8-19 | no contract of its own: a datatype whose fields `min` and `max` are the constructor's arguments, returned unchanged by the accessors; a reversed range (min > max) is accepted |
| Ranges.Range.Size | scratch/RealFizzBuzz/src/main/java/FizzBuzzer.java:44 | the number of integers x with min <= x <= max, counted as a set (the values the loop's counter takes); none exactly when min > max, otherwise min + size - 1 == max |
| Ranges.BetweenSize | scratch/RealFizzBuzz/src/main/java/FizzBuzzer.java:44 | the set of integers from lo to hi has hi - lo + 1 members, and none when lo > hi |
| Decimal.IntToString | scratch/RealFizzBuzz/src/main/java/FizzBuzzer.java:15 | no contract of its own: `String.valueOf(int)`; proved against `ParseInt` by IntRoundTrip and described by IntToStringShape and ThreeInText |
| Decimal.NatToStringShape | scratch/RealFizzBuzz/src/main/java/FizzBuzzer.java:15 | the digits of a natural number are non-empty, all decimal digits, with no leading zero except for 0 itself |
| Decimal.IntToStringShape | scratch/RealFizzBuzz/src/main/java/FizzBuzzer.java:15 | `String.valueOf(n)` is non-empty, starts with '-' exactly for negative n, has the form `-?[0-9]+`, holds no space, and has no leading zero (after the '-' for negatives) unless n is 0 |
| Decimal.ParseInt | scratch/RealFizzBuzz/src/main/java/FizzBuzzStats.java:25 | the parser accepts exactly text of the form `-?[0-9]+`, which is the numeric form counted under "integer" |
| Decimal.NatRoundTrip | scratch/RealFizzBuzz/src/main/java/FizzBuzzer.java:15 | reading back the digits of n gives n |
| Decimal.IntRoundTrip | scratch/RealFizzBuzz/src/main/java/FizzBuzzer.java:15 | parsing `String.valueOf(n)` gives n back, for every integer n |
| Decimal.IntToStringInjective | scratch/RealFizzBuzz/src/main/java/FizzBuzzer.java:15-28 | two numbers with the same text are equal, so distinct numbers never share a numeric label |
| Decimal.DigitInNatText | scratch/RealFizzBuzz/src/main/java/FizzBuzzer.java:15-16 | the digit character d occurs in the text of n exactly when d is a base-10 digit of n |
| Decimal.ThreeInText | scratch/RealFizzBuzz/src/main/java/FizzBuzzer.java:15-16 | `value.contains("3")` holds exactly when 3 is a decimal digit of the magnitude of n |
| NumberUtils.IsNumber | scratch/RealFizzBuzz/src/main/java/FizzBuzzStats.java:25 | no contract of its own: `NumberUtils.isNumber`, restricted to `-?[0-9]+` (see Left out); related to the classifier by DecimalTextIsNumber and WordsAreNotNumbers |
| NumberUtils.DecimalTextIsNumber | scratch/RealFizzBuzz/src/main/java/FizzBuzzStats.java:25 | the decimal text of every int is numeric |
| NumberUtils.WordsAreNotNumbers | scratch/RealFizzBuzz/src/main/java/FizzBuzzStats.java:25 | "fizz", "buzz", "fizzbuzz", "lucky" and "integer" are not numeric |
| Strings.Join | scratch/RealFizzBuzz/src/main/java/FizzBuzzer.java:39 | no contract of its own: `String.join` with a one-character delimiter; proved against Split by SplitJoin and decomposed by JoinAppend |
| Strings.FirstIndexOf | scratch/RealFizzBuzz/src/main/java/FizzBuzzer.java:39 | the index found is the first separator, or the end of the text when there is none |
| Strings.Split | scratch/RealFizzBuzz/src/main/java/FizzBuzzer.java:39 | splitting yields at least one piece and no piece holds the separator |
| Strings.SplitJoin | scratch/RealFizzBuzz/src/main/java/FizzBuzzer.java:39 | splitting `String.join(" ", parts)` at spaces gives the parts back when none holds a space |
| Strings.JoinAppend | scratch/RealFizzBuzz/src/main/java/FizzBuzzer.java:64 | joining two non-empty lists one after the other is joining each, with one separator between |
| FizzBuzzer.FizzBuzz | scratch/RealFizzBuzz/src/main/java/FizzBuzzer.java:14-29 | no contract of its own: the if-chain of `fizzBuzz`; proved against the arithmetic statement in Classification and LabelKinds |
| FizzBuzzer.Classification | scratch/RealFizzBuzz/src/main/java/FizzBuzzer.java:14-29 | a digit 3 in abs(n) gives "lucky" whatever the divisibility; otherwise a multiple of 15 gives "fizzbuzz", a multiple of 5 only "buzz", a multiple of 3 only "fizz", and anything else exactly `String.valueOf(n)`, which parses back to n and holds no '3' |
| FizzBuzzer.MultipleOf15 | scratch/RealFizzBuzz/src/main/java/FizzBuzzer.java:19-26 | n is a multiple of 15 exactly when it is a multiple of both 3 and 5, so the order of the tests decides which word wins |
| FizzBuzzer.LabelKinds | scratch/RealFizzBuzz/src/main/java/FizzBuzzer.java:14-29 | every label is one of the four words or numeric, never both; it is numeric exactly when no rule fired; it holds no space |
| FizzBuzzer.LabelsAt | scratch/RealFizzBuzz/src/main/java/FizzBuzzer.java:42-48 | the labels of [lo, hi] number hi - lo + 1 (none when lo > hi), and the k-th is the label of lo + k |
| FizzBuzzer.LabelsSplit | scratch/RealFizzBuzz/src/main/java/FizzBuzzer.java:44-46 | the labels of adjacent stretches concatenate to the labels of their union |
| FizzBuzzer.NoSpaceInOutcomes | scratch/RealFizzBuzz/src/main/java/FizzBuzzer.java:37-39 | no label of any range holds the space used to join them |
| FizzBuzzer.GenerateFizzBuzzList | scratch/RealFizzBuzz/src/main/java/FizzBuzzer.java:42-48 | the loop returns one label per integer of the range in increasing order (max - min + 1 labels, element k the label of min + k), and none for a reversed range |
| FizzBuzzer.GenerateAsWritten | scratch/RealFizzBuzz/src/main/java/FizzBuzzer.java:44-46 | no contract of its own: the loop with a wrapping 32-bit counter, run for at most `fuel` iterations; related to Labels by AsWrittenBelowMaxInt and AsWrittenGuardNeverFailsAtMaxInt |
| FizzBuzzer.AsWrittenBelowMaxInt | scratch/RealFizzBuzz/src/main/java/FizzBuzzer.java:44-46 | with a 32-bit counter and max below Integer.MAX_VALUE, the loop as written ends after max - i + 1 steps with exactly the intended labels |
| FizzBuzzer.AsWrittenGuardNeverFailsAtMaxInt | scratch/RealFizzBuzz/src/main/java/FizzBuzzer.java:44 | with a 32-bit counter and max == Integer.MAX_VALUE, the guard `i <= max` of the loop as written never fails, from any start, so no number of iterations returns a list |
| FizzBuzzer.MaxIntRange | scratch/RealFizzBuzz/src/main/java/FizzBuzzer.java:44 | the range [Integer.MAX_VALUE, Integer.MAX_VALUE] is meant to give ["lucky"]; as written the loop gives nothing in any number of steps |
| FizzBuzzer.Range | scratch/RealFizzBuzz/src/main/java/FizzBuzzer.java:37-40 | `range` is the labels joined by single spaces; splitting it at spaces gives the labels back; a reversed range gives "" |
| FizzBuzzer.Report | scratch/RealFizzBuzz/src/main/java/FizzBuzzer.java:56-65 | `report` is the labels followed by the stats for fizz, buzz, fizzbuzz, lucky and integer, in that order; for a non-empty range it is the text of `range`, a space, then the five stats joined by spaces |
| FizzBuzzer.ReportText | scratch/RealFizzBuzz/src/main/java/FizzBuzzer.java:56-65 | no contract of its own: the labels, then the five stats of their table, joined; the method Report is proved against it and ReportTextOf and ReportBuckets describe it |
| FizzBuzzer.ReportTextOf | scratch/RealFizzBuzz/src/main/java/FizzBuzzer.java:57-64 | appending the five stats to the label list and joining gives the range text, a space, and the joined stats |
| FizzBuzzer.ReportBuckets | scratch/RealFizzBuzz/src/main/java/FizzBuzzer.java:57-58 | the table `report` builds has only the four words and "integer" as keys, and its counts add up to the size of the range |
| FizzBuzzStats.Create | scratch/RealFizzBuzz/src/main/java/FizzBuzzStats.java:22-34 | the loop leaves a key in the table exactly when some element was counted under it, with that many; the counts add up to the number of elements; the input is only read |
| FizzBuzzStats.Count | scratch/RealFizzBuzz/src/main/java/FizzBuzzStats.java:25-30 | no contract of its own: one `getOrDefault`/`put` step on the bucket of an element; its effect on the total is CountTotal |
| FizzBuzzStats.Tally | scratch/RealFizzBuzz/src/main/java/FizzBuzzStats.java:23-32 | no contract of its own: the table after counting every element from the front; proved against Occurrences by TallyCounts and against the length by TallyTotal |
| FizzBuzzStats.TallyCounts | scratch/RealFizzBuzz/src/main/java/FizzBuzzStats.java:24-32 | the table holds a key exactly when something was counted under it, and holds the number of such elements |
| FizzBuzzStats.TallyTotal | scratch/RealFizzBuzz/src/main/java/FizzBuzzStats.java:22-34 | every element adds exactly one to exactly one key: the counts sum to the number of elements |
| FizzBuzzStats.CountTotal | scratch/RealFizzBuzz/src/main/java/FizzBuzzStats.java:26-30 | one `getOrDefault`/`put` step raises the sum of the counts by exactly one |
| FizzBuzzStats.TallyKeys | scratch/RealFizzBuzz/src/main/java/FizzBuzzStats.java:23-30 | every stored count is at least 1 (no zero entry is ever put), and every key is "integer" or an element of the input |
| FizzBuzzStats.NumbersOnlyUnderInteger | scratch/RealFizzBuzz/src/main/java/FizzBuzzStats.java:25-27 | a numeric text never becomes a key: numeric elements only ever raise "integer" |
| FizzBuzzStats.OccurrencesByKey | scratch/RealFizzBuzz/src/main/java/FizzBuzzStats.java:25-31 | "integer" counts the numeric elements (plus any literal "integer"); any other non-numeric key counts its own copies in the input; a numeric key counts nothing |
| FizzBuzzStats.OccurrencesAppend | scratch/RealFizzBuzz/src/main/java/FizzBuzzStats.java:24 | counting two lists one after the other adds their counts |
| FizzBuzzStats.Stats.GetStat | scratch/RealFizzBuzz/src/main/java/FizzBuzzStats.java:42-45 | no contract of its own: the key, ": ", then the count or "null"; described by GetStatFormat |
| FizzBuzzStats.GetStatFormat | scratch/RealFizzBuzz/src/main/java/FizzBuzzStats.java:42-45 | a stat is the key, ": ", then exactly `String.valueOf` of the stored count (which reads back as the count), or "null" for a key that never occurred |
| FizzBuzzExamples.ClassifierExamples | scratch/RealFizzBuzz/src/test/java/TestFizzBuzz.java:10-31 | 1 and 2 stay themselves, 3 and 30 are "lucky", 6 is "fizz", 5 and 10 "buzz", 15 "fizzbuzz" |
| FizzBuzzExamples.TextOneToTwo | scratch/RealFizzBuzz/src/test/java/TestFizzBuzz.java:35 | the range 1..2 reads "1 2" |
| FizzBuzzExamples.TextThreeToFour | scratch/RealFizzBuzz/src/test/java/TestFizzBuzz.java:36 | the range 3..4 reads "lucky 4" |
| FizzBuzzExamples.TextFiveToSix | scratch/RealFizzBuzz/src/test/java/TestFizzBuzz.java:37 | the range 5..6 reads "buzz fizz" |
| FizzBuzzExamples.TextFourteenToFifteen | scratch/RealFizzBuzz/src/test/java/TestFizzBuzz.java:38 | the range 14..15 reads "14 fizzbuzz" |
| FizzBuzzExamples.RangeOneToTwenty | scratch/RealFizzBuzz/src/test/java/TestFizzBuzz.java:42-46 | the range 1..20 reads "1 2 lucky 4 buzz fizz 7 8 fizz buzz 11 fizz lucky 14 fizzbuzz 16 17 fizz 19 buzz" |
| FizzBuzzExamples.StatsOneToTwenty | scratch/RealFizzBuzz/src/test/java/TestFizzBuzz.java:49-53 | the stats for 1..20 are fizz 4, buzz 3, fizzbuzz 1, lucky 2, integer 10 |
| FizzBuzzExamples.ReportOneToTwenty | scratch/RealFizzBuzz/src/test/java/TestFizzBuzz.java:49-53 | the report for 1..20 is the range text followed by "fizz: 4 buzz: 3 fizzbuzz: 1 lucky: 2 integer: 10" |
| FizzBuzzExamples.ReportOneToTwo | scratch/RealFizzBuzz/src/main/java/FizzBuzzStats.java:44 | the report for 1..2 shows "null" for the four words that never occur and "integer: 2" |
| FizzBuzzExamples.AggregatesIntegers | scratch/RealFizzBuzz/src/test/java/TestFizzBuzzStats.java:10-16 | four copies of "1" give "integer: 4" |
| FizzBuzzExamples.AggregatesOtherValues | scratch/RealFizzBuzz/src/test/java/TestFizzBuzzStats.java:19-24 | "A", "A", "B", "B" give "A: 2" and "B: 2" |

## Left out

- NumberUtils.IsNumber: the two languages differ in both directions. Apache Commons' `isNumber` also accepts hexadecimal, decimal fractions, exponents and type suffixes, so an input such as "1.5" passed straight to `create` would be counted under "integer" by the library but under its own text here. Versions of the library that read a leading 0 followed by digits as octal reject a string such as "09", which the model accepts as numeric. The model accepts only an optional '-' followed by decimal digits. That covers every label the classifier produces (none has a leading zero) and rejects the words it must reject.
- FizzBuzzStats.Stats.GetStat: the count is written with ASCII digits. `String.format` uses the default locale, which in some locales writes other digits.
- HashMap hashing, capacity and iteration order are not modelled. The table is a map, and nothing in the core depends on its order.
- FizzBuzzer.GenerateAsWritten: `None` stands for "no list is returned within `fuel` iterations". The capacity of the `ArrayList` and of the heap is not modelled, so the OutOfMemoryError that `add` eventually throws at max == Integer.MAX_VALUE is not distinguished from a loop that keeps running.
- FizzBuzzer.GenerateFizzBuzzList: the loop counter is a mathematical integer, so the loop ends when max is Integer.MAX_VALUE. The 32-bit loop as written is modelled separately with a step bound; see Findings.
- FizzBuzzer.Report: the label list that `report` appends to in place is modelled as a sequence variable that is reassigned. No other code holds that list, so there is no aliasing to model.
- The JUnit test classes are not modelled as code. Their expected strings are restated as the `FizzBuzzExamples` lemmas.

## Findings

| source | as written | input that shows it | evidently intended | confidence | as-written member | corrected member |
|---|---|---|---|---|---|---|
| scratch/RealFizzBuzz/src/main/java/FizzBuzzer.java:44 | the counter is a 32-bit `int` guarded by `i <= max`; at max == Integer.MAX_VALUE, `i++` wraps to Integer.MIN_VALUE and the guard never fails; the loop appends until the list or the heap overflows and `add` throws OutOfMemoryError; no labels are returned | `new Range(2147483647, 2147483647)` | the one label of that range, ["lucky"] (2147483647 contains a 3) | high; not executed | FizzBuzzer.AsWrittenGuardNeverFailsAtMaxInt | FizzBuzzer.GenerateFizzBuzzList |
