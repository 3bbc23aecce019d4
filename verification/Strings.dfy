/** The string searches the proxy relies on, and the dot-separated labels of a name. */
module Strings {

  predicate HasSuffix(s: string, t: string) {
    |t| <= |s| && s[|s| - |t|..] == t
  }

  predicate OccursAt(s: string, t: string, i: nat) {
    i + |t| <= |s| && s[i..i + |t|] == t
  }

  /** Position of the first occurrence of `t` at or after `from`, or -1. */
  function IndexFrom(s: string, t: string, from: nat): (r: int)
    ensures r >= 0 ==> from <= r && OccursAt(s, t, r) && forall j: nat :: from <= j < r ==> !OccursAt(s, t, j)
    ensures r < 0 ==> forall j: nat :: from <= j ==> !OccursAt(s, t, j)
    decreases |s| - from
  {
    if from + |t| > |s| then -1
    else if OccursAt(s, t, from) then from
    else IndexFrom(s, t, from + 1)
  }

  function Index(s: string, t: string): (r: int)
    ensures r >= 0 ==> OccursAt(s, t, r) && forall j: nat :: j < r ==> !OccursAt(s, t, j)
    ensures r < 0 ==> forall j: nat :: !OccursAt(s, t, j)
  {
    IndexFrom(s, t, 0)
  }

  /** Position of the last occurrence of `t` before `bound`, or -1. */
  function LastIndexBelow(s: string, t: string, bound: nat): (r: int)
    ensures r >= 0 ==> r < bound && OccursAt(s, t, r) && forall j: nat :: r < j < bound ==> !OccursAt(s, t, j)
    ensures r < 0 ==> forall j: nat :: j < bound ==> !OccursAt(s, t, j)
  {
    if bound == 0 then -1
    else if OccursAt(s, t, bound - 1) then bound - 1
    else LastIndexBelow(s, t, bound - 1)
  }

  function LastIndex(s: string, t: string): (r: int)
    ensures r >= 0 ==> OccursAt(s, t, r) && forall j: nat :: r < j ==> !OccursAt(s, t, j)
    ensures r < 0 ==> forall j: nat :: !OccursAt(s, t, j)
  {
    LastIndexBelow(s, t, |s| + 1)
  }

  /** Drops one trailing occurrence of `t`, if there is one. */
  function TrimSuffix(s: string, t: string): string {
    if HasSuffix(s, t) then s[..|s| - |t|] else s
  }

  /** The labels of `s`: the stretches between its dots, never empty as a list. */
  function Split(s: string): (labels: seq<string>)
    ensures |labels| >= 1
    ensures forall i :: 0 <= i < |labels| ==> '.' !in labels[i]
  {
    if s == "" then [""]
    else if s[0] == '.' then [""] + Split(s[1..])
    else
      var rest := Split(s[1..]);
      [[s[0]] + rest[0]] + rest[1..]
  }

  function Join(labels: seq<string>): string
    requires |labels| >= 1
  {
    if |labels| == 1 then labels[0] else labels[0] + "." + Join(labels[1..])
  }

  /** Splitting loses nothing: the labels determine the name. */
  lemma {:induction false} JoinSplit(s: string)
    ensures Join(Split(s)) == s
  {
    if s != "" {
      JoinSplit(s[1..]);
      assert s == [s[0]] + s[1..];
      var rest := Split(s[1..]);
      if s[0] == '.' {
        assert ([""] + rest)[1..] == rest;
      } else if |rest| > 1 {
        assert ([[s[0]] + rest[0]] + rest[1..])[1..] == rest[1..];
      }
    }
  }

  lemma {:induction false} SplitDotFree(s: string)
    requires '.' !in s
    ensures Split(s) == [s]
  {
    if s != "" {
      SplitDotFree(s[1..]);
      assert [s[0]] + s[1..] == s;
    }
  }

  /** A dot in the middle separates the labels of the two sides. */
  lemma {:induction false} SplitDot(a: string, b: string)
    ensures Split(a + "." + b) == Split(a) + Split(b)
  {
    var s := a + "." + b;
    if a == "" {
      assert s[1..] == b;
    } else {
      assert s[1..] == a[1..] + "." + b;
      SplitDot(a[1..], b);
    }
  }

  lemma SplitInjective(a: string, b: string)
    requires Split(a) == Split(b)
    ensures a == b
  {
    JoinSplit(a);
    JoinSplit(b);
  }
}
