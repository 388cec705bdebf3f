/** The array operations of JavaScript that the application uses (`filter`, `find`,
    `findIndex`, `some`), over Dafny sequences. */
module Seqs {
  import opened Optional

  /** `s.filter(p)`. */
  function Filter<T>(s: seq<T>, p: T -> bool): (r: seq<T>)
    ensures |r| <= |s|
    ensures forall i :: 0 <= i < |r| ==> r[i] in s && p(r[i])
    ensures forall i :: 0 <= i < |s| && p(s[i]) ==> s[i] in r
  {
    if s == [] then []
    else (if p(s[0]) then [s[0]] else []) + Filter(s[1..], p)
  }

  /** Filtering distributes over concatenation: the kept elements stay in their order. */
  lemma {:induction false} FilterConcat<T>(a: seq<T>, b: seq<T>, p: T -> bool)
    ensures Filter(a + b, p) == Filter(a, p) + Filter(b, p)
    decreases |a|
  {
    if a != [] {
      assert (a + b)[0] == a[0];
      assert (a + b)[1..] == a[1..] + b;
      FilterConcat(a[1..], b, p);
    } else {
      assert a + b == b;
    }
  }

  /** A filter that keeps every element is the identity. */
  lemma {:induction false} FilterKeepsAll<T>(s: seq<T>, p: T -> bool)
    requires forall i :: 0 <= i < |s| ==> p(s[i])
    ensures Filter(s, p) == s
    decreases |s|
  {
    if s != [] {
      FilterKeepsAll(s[1..], p);
    }
  }

  /** `s.filter((_, j) => j !== i)`, walking the array with the index `i` shifted down by one
      at every step. */
  function RemoveAt<T>(s: seq<T>, i: int): (r: seq<T>)
    ensures |r| <= |s|
  {
    if s == [] then []
    else (if i == 0 then [] else [s[0]]) + RemoveAt(s[1..], i - 1)
  }

  /** Removing index `i` drops exactly `s[i]` and keeps the others in their order; an index
      outside the array removes nothing. */
  lemma {:induction false} RemoveAtSplice<T>(s: seq<T>, i: int)
    ensures RemoveAt(s, i) == if 0 <= i < |s| then s[..i] + s[i + 1..] else s
    decreases |s|
  {
    if s == [] {
    } else if i == 0 {
      RemoveAtNone(s[1..], -1);
      assert RemoveAt(s, i) == s[1..];
    } else {
      var tail := RemoveAt(s[1..], i - 1);
      assert RemoveAt(s, i) == [s[0]] + tail;
      RemoveAtSplice(s[1..], i - 1);
      if 0 < i < |s| {
        assert tail == s[1..][..i - 1] + s[1..][i..];
        assert s[1..][..i - 1] == s[1..i];
        assert s[1..][i..] == s[i + 1..];
        assert [s[0]] + s[1..i] == s[..i];
      } else {
        assert tail == s[1..];
        assert [s[0]] + s[1..] == s;
      }
    }
  }

  /** A negative index matches no position. */
  lemma {:induction false} RemoveAtNone<T>(s: seq<T>, i: int)
    requires i < 0
    ensures RemoveAt(s, i) == s
    decreases |s|
  {
    if s != [] {
      RemoveAtNone(s[1..], i - 1);
      assert [s[0]] + s[1..] == s;
    }
  }

  /** `s.findIndex(p)`: the first index satisfying `p`, or -1. */
  function FindIndex<T>(s: seq<T>, p: T -> bool): (r: int)
    ensures -1 <= r < |s|
    ensures r >= 0 ==> p(s[r]) && forall j :: 0 <= j < r ==> !p(s[j])
    ensures r == -1 <==> forall j :: 0 <= j < |s| ==> !p(s[j])
  {
    if s == [] then -1
    else if p(s[0]) then 0
    else
      var k := FindIndex(s[1..], p);
      if k == -1 then -1 else k + 1
  }

  /** `s.find(p)`: the first element satisfying `p`, if any. */
  function Find<T>(s: seq<T>, p: T -> bool): (r: Option<T>)
    ensures r.None? <==> forall j :: 0 <= j < |s| ==> !p(s[j])
    ensures r.Some? ==> exists k :: 0 <= k < |s| && s[k] == r.value && p(s[k]) &&
                                   forall j :: 0 <= j < k ==> !p(s[j])
  {
    var k := FindIndex(s, p);
    if k == -1 then None else Some(s[k])
  }

  /** `s.some(p)`. */
  predicate Any<T>(s: seq<T>, p: T -> bool)
  {
    exists i :: 0 <= i < |s| && p(s[i])
  }
}
