/**
 * Java's `String.join(delimiter, elements)` for a one-character
 * delimiter, with splitting at that character as its inverse.
 */
module Strings {

  /** The parts, in order, with `sep` between each two neighbours. */
  function Join(parts: seq<string>, sep: char): string
  {
    if |parts| == 0 then ""
    else if |parts| == 1 then parts[0]
    else parts[0] + [sep] + Join(parts[1..], sep)
  }

  /** Index of the first `sep` in `s`, or |s| when there is none. */
  function FirstIndexOf(s: string, sep: char): (i: nat)
    ensures i <= |s|
    ensures i < |s| ==> s[i] == sep
    ensures sep !in s[..i]
    decreases |s|
  {
    if |s| == 0 || s[0] == sep then 0 else 1 + FirstIndexOf(s[1..], sep)
  }

  /** The pieces of `s` between occurrences of `sep` (empty pieces kept). */
  function Split(s: string, sep: char): (parts: seq<string>)
    ensures |parts| >= 1
    ensures forall k :: 0 <= k < |parts| ==> sep !in parts[k]
    decreases |s|
  {
    var i := FirstIndexOf(s, sep);
    if i == |s| then [s] else [s[..i]] + Split(s[i + 1..], sep)
  }

  /** Splitting the joined text gives the parts back when none holds the separator. */
  lemma {:induction false} SplitJoin(parts: seq<string>, sep: char)
    requires |parts| >= 1
    requires forall k :: 0 <= k < |parts| ==> sep !in parts[k]
    ensures Split(Join(parts, sep), sep) == parts
    decreases |parts|
  {
    var s := Join(parts, sep);
    var head := parts[0];
    if |parts| == 1 {
      FirstIndexNotFound(head, sep);
    } else {
      var rest := Join(parts[1..], sep);
      assert s == head + [sep] + rest;
      FirstIndexAfter(head, rest, sep);
      assert s[..|head|] == head;
      assert s[|head| + 1..] == rest;
      SplitJoin(parts[1..], sep);
      assert parts == [head] + parts[1..];
    }
  }

  lemma {:induction false} FirstIndexNotFound(s: string, sep: char)
    requires sep !in s
    ensures FirstIndexOf(s, sep) == |s|
    decreases |s|
  {
    if |s| > 0 {
      assert s[0] in s;
      assert forall c :: c in s[1..] ==> c in s;
      FirstIndexNotFound(s[1..], sep);
    }
  }

  lemma {:induction false} FirstIndexAfter(head: string, rest: string, sep: char)
    requires sep !in head
    ensures FirstIndexOf(head + [sep] + rest, sep) == |head|
    decreases |head|
  {
    var s := head + [sep] + rest;
    if |head| > 0 {
      assert head[0] in head;
      assert forall c :: c in head[1..] ==> c in head;
      assert s[1..] == head[1..] + [sep] + rest;
      FirstIndexAfter(head[1..], rest, sep);
    }
  }

  /** Joining two non-empty lists puts one separator between the two joined texts. */
  lemma {:induction false} JoinAppend(a: seq<string>, b: seq<string>, sep: char)
    requires |a| >= 1 && |b| >= 1
    ensures Join(a + b, sep) == Join(a, sep) + [sep] + Join(b, sep)
    decreases |a|
  {
    if |a| == 1 {
      assert (a + b)[1..] == b;
    } else {
      assert (a + b)[1..] == a[1..] + b;
      JoinAppend(a[1..], b, sep);
    }
  }

}
