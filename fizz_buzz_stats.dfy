/**
 * FizzBuzzStats: counts how often each label occurs. Every numeric
 * label is counted under the one key "integer"; any other label is
 * counted under its own text. A key that never occurred is absent from
 * the table, not stored as 0.
 */
module FizzBuzzStats {
  import opened Wrappers
  import Decimal
  import NumberUtils

  const IntegerKey: string := "integer"

  /** The key an element is counted under. */
  function Bucket(element: string): string {
    if NumberUtils.IsNumber(element) then IntegerKey else element
  }

  /** How many elements are counted under `key`. */
  function Occurrences(elements: seq<string>, key: string): nat
    decreases |elements|
  {
    if elements == [] then 0
    else (if Bucket(elements[0]) == key then 1 else 0) + Occurrences(elements[1..], key)
  }

  /** `HashMap.getOrDefault`. */
  function GetOrDefault(m: map<string, nat>, key: string, default: nat): nat {
    if key in m then m[key] else default
  }

  /** The table after one more element: its bucket goes up by one. */
  function Count(m: map<string, nat>, element: string): map<string, nat> {
    var key := Bucket(element);
    m[key := GetOrDefault(m, key, 0) + 1]
  }

  /** The table `create` builds, one element at a time from the front. */
  function Tally(elements: seq<string>): map<string, nat>
    decreases |elements|
  {
    if elements == [] then map[] else Count(Tally(elements[..|elements| - 1]), elements[|elements| - 1])
  }

  /** Sum of all counts in a table. */
  ghost function Total(m: map<string, nat>): nat
    decreases |m|
  {
    if |m| == 0 then 0
    else
      var k :| k in m;
      m[k] + Total(m - {k})
  }

  /** The stats object: a table that is never changed after `create`. */
  datatype Stats = Stats(values: map<string, nat>) {

    /** `HashMap.get`: the count, or None (Java's null) for a key that never occurred. */
    function Get(key: string): Option<nat> {
      if key in values then Some(values[key]) else None
    }

    /**
     * `String.format("%s: %d", key, values.get(key))`: Java's formatter
     * writes a null argument as "null" rather than failing.
     */
    function GetStat(key: string): string {
      key + ": " + match Get(key)
        case Some(n) => Decimal.IntToString(n)
        case None => "null"
    }
  }

  /**
   * A stat is the key, ": ", then either the decimal text of the count,
   * which reads back as the count, or "null" when the key never occurred.
   */
  lemma GetStatFormat(stats: Stats, key: string)
    ensures var s := stats.GetStat(key);
            |s| >= |key| + 2 && s[..|key| + 2] == key + ": " &&
            (key in stats.values ==> s[|key| + 2..] == Decimal.IntToString(stats.values[key])) &&
            (key in stats.values ==> Decimal.ParseInt(s[|key| + 2..]) == Some(stats.values[key] as int)) &&
            (key !in stats.values ==> s[|key| + 2..] == "null")
  {
    var count := match stats.Get(key)
      case Some(n) => Decimal.IntToString(n)
      case None => "null";
    assert stats.GetStat(key) == key + ": " + count;
    assert (key + ": " + count)[|key| + 2..] == count;
    if key in stats.values {
      Decimal.IntRoundTrip(stats.values[key]);
    }
  }

  /**
   * `create`: one pass over the elements, each adding one to the count
   * of its bucket. The input is only read.
   */
  method Create(elements: seq<string>) returns (stats: Stats)
    ensures stats.values == Tally(elements)
    ensures forall key :: key in stats.values <==> Occurrences(elements, key) > 0
    ensures forall key :: key in stats.values ==> stats.values[key] == Occurrences(elements, key)
    ensures Total(stats.values) == |elements|
  {
    var values: map<string, nat> := map[];
    for i := 0 to |elements|
      invariant values == Tally(elements[..i])
    {
      var element := elements[i];
      if NumberUtils.IsNumber(element) {
        var current := GetOrDefault(values, IntegerKey, 0);
        values := values[IntegerKey := current + 1];
      } else {
        var current := GetOrDefault(values, element, 0);
        values := values[element := current + 1];
      }
      assert elements[..i + 1][..i] == elements[..i];
    }
    assert elements[..|elements|] == elements;
    forall key
      ensures key in values <==> Occurrences(elements, key) > 0
      ensures key in values ==> values[key] == Occurrences(elements, key)
    {
      TallyCounts(elements, key);
    }
    TallyTotal(elements);
    stats := Stats(values);
  }

  /** A key is in the table exactly when something was counted under it, and holds that many. */
  lemma {:induction false} TallyCounts(elements: seq<string>, key: string)
    ensures key in Tally(elements) <==> Occurrences(elements, key) > 0
    ensures key in Tally(elements) ==> Tally(elements)[key] == Occurrences(elements, key)
    decreases |elements|
  {
    if elements != [] {
      var init, last := elements[..|elements| - 1], elements[|elements| - 1];
      TallyCounts(init, key);
      OccurrencesAppend(init, [last], key);
      assert init + [last] == elements;
    }
  }

  lemma {:induction false} TotalPick(m: map<string, nat>, k: string)
    requires k in m
    ensures Total(m) == m[k] + Total(m - {k})
    decreases |m|
  {
    assert |m| != 0;
    var j :| j in m && Total(m) == m[j] + Total(m - {j});
    if j != k {
      RemoveSize(m, j);
      RemoveSize(m, k);
      TotalPick(m - {j}, k);
      TotalPick(m - {k}, j);
      RemoveCommutes(m, j, k);
    }
  }

  lemma RemoveSize(m: map<string, nat>, k: string)
    requires k in m
    ensures |m - {k}| == |m| - 1
  {
    assert (m - {k}).Keys == m.Keys - {k};
  }

  lemma RemoveCommutes(m: map<string, nat>, j: string, k: string)
    ensures m - {j} - {k} == m - {k} - {j}
  {
    assert m - {j} - {k} == m - {j, k};
    assert m - {k} - {j} == m - {j, k};
  }

  /** Counting one more element raises the total by exactly one. */
  lemma CountTotal(m: map<string, nat>, element: string)
    ensures Total(Count(m, element)) == Total(m) + 1
  {
    var key := Bucket(element);
    var m' := m[key := GetOrDefault(m, key, 0) + 1];
    assert Count(m, element) == m';
    TotalPick(m', key);
    if key in m {
      TotalPick(m, key);
      UpdateThenRemove(m, key, m'[key]);
    } else {
      assert m' - {key} == m;
    }
  }

  lemma UpdateThenRemove(m: map<string, nat>, k: string, v: nat)
    ensures m[k := v] - {k} == m - {k}
  {
  }

  /** Conservation: the counts add up to the number of elements. */
  lemma {:induction false} TallyTotal(elements: seq<string>)
    ensures Total(Tally(elements)) == |elements|
    decreases |elements|
  {
    if elements != [] {
      TallyTotal(elements[..|elements| - 1]);
      CountTotal(Tally(elements[..|elements| - 1]), elements[|elements| - 1]);
    }
  }

  /** Every stored count is at least one; every key is "integer" or an element seen verbatim. */
  lemma {:induction false} TallyKeys(elements: seq<string>, key: string)
    requires key in Tally(elements)
    ensures Tally(elements)[key] >= 1
    ensures key == IntegerKey || key in elements
    decreases |elements|
  {
    TallyCounts(elements, key);
    var init := elements[..|elements| - 1];
    var last := elements[|elements| - 1];
    if Bucket(last) != key {
      TallyKeys(init, key);
      assert forall e :: e in init ==> e in elements;
    }
  }

  /** A numeric element never gets a key of its own. */
  lemma {:induction false} NumbersOnlyUnderInteger(elements: seq<string>, key: string)
    requires NumberUtils.IsNumber(key)
    ensures key !in Tally(elements)
    decreases |elements|
  {
    NumberUtils.WordsAreNotNumbers();
    if elements != [] {
      NumbersOnlyUnderInteger(elements[..|elements| - 1], key);
    }
  }

  /** How many elements are numeric. */
  function NumericCount(elements: seq<string>): nat
    decreases |elements|
  {
    if elements == [] then 0
    else (if NumberUtils.IsNumber(elements[0]) then 1 else 0) + NumericCount(elements[1..])
  }

  /**
   * The count under each key, against the input's own multiset: a
   * numeric key counts nothing, "integer" counts the numeric elements
   * (and any literal "integer"), every other key counts its own copies.
   */
  lemma {:induction false} OccurrencesByKey(elements: seq<string>, key: string)
    ensures NumberUtils.IsNumber(key) ==> Occurrences(elements, key) == 0
    ensures key == IntegerKey ==> Occurrences(elements, key) == NumericCount(elements) + multiset(elements)[key]
    ensures !NumberUtils.IsNumber(key) && key != IntegerKey ==> Occurrences(elements, key) == multiset(elements)[key]
    decreases |elements|
  {
    NumberUtils.WordsAreNotNumbers();
    if elements != [] {
      OccurrencesByKey(elements[1..], key);
      assert elements == [elements[0]] + elements[1..];
    }
  }

  /** Counting two lists one after the other adds their counts. */
  lemma {:induction false} OccurrencesAppend(a: seq<string>, b: seq<string>, key: string)
    ensures Occurrences(a + b, key) == Occurrences(a, key) + Occurrences(b, key)
    decreases |a|
  {
    if a == [] {
      assert a + b == b;
    } else {
      OccurrencesAppend(a[1..], b, key);
      assert (a + b)[1..] == a[1..] + b;
    }
  }

}
