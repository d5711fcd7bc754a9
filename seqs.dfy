/**
  The array operations the components use on their lists, written once:
  `find` (first match), `some`, `filter`, and the effect of repeated prepending.
  JavaScript's callbacks become total Dafny functions `T -> bool`.
*/
module Seqs {
  import opened Wrappers

  /** Index of the first element satisfying `p`, scanning from the front (`findIndex`). */
  function FirstIndex<T>(s: seq<T>, p: T -> bool): (r: Option<nat>)
    ensures r.Some? ==> r.value < |s| && p(s[r.value])
    ensures r.Some? ==> forall j :: 0 <= j < r.value ==> !p(s[j])
    ensures r.None? <==> forall j :: 0 <= j < |s| ==> !p(s[j])
  {
    if s == [] then None
    else if p(s[0]) then Some(0)
    else match FirstIndex(s[1..], p)
      case None => None
      case Some(i) => Some(i + 1)
  }

  /** `Array.prototype.find`: the first element satisfying `p`, or nothing. */
  function Find<T>(s: seq<T>, p: T -> bool): (r: Option<T>)
    ensures r.None? <==> forall j :: 0 <= j < |s| ==> !p(s[j])
    ensures r.Some? ==> exists i :: 0 <= i < |s| && s[i] == r.value && p(s[i]) && forall j :: 0 <= j < i ==> !p(s[j])
  {
    match FirstIndex(s, p)
    case None => None
    case Some(i) => Some(s[i])
  }

  /** `Array.prototype.some`. */
  function Any<T>(s: seq<T>, p: T -> bool): (b: bool)
    ensures b <==> exists i :: 0 <= i < |s| && p(s[i])
  {
    FirstIndex(s, p).Some?
  }

  /** `Array.prototype.filter`: the elements satisfying `p`, in their original order. */
  function Filter<T>(s: seq<T>, p: T -> bool): (r: seq<T>)
    ensures |r| <= |s|
    ensures forall x :: x in r ==> x in s && p(x)
    ensures forall x :: x in s && p(x) ==> x in r
  {
    if s == [] then []
    else if p(s[0]) then [s[0]] + Filter(s[1..], p)
    else Filter(s[1..], p)
  }

  /** Filtering distributes over concatenation: the kept elements stay in order. */
  lemma {:induction false} FilterAppend<T>(s: seq<T>, t: seq<T>, p: T -> bool)
    ensures Filter(s + t, p) == Filter(s, p) + Filter(t, p)
  {
    if s == [] {
      assert s + t == t;
    } else {
      assert (s + t)[0] == s[0];
      assert (s + t)[1..] == s[1..] + t;
      FilterAppend(s[1..], t, p);
    }
  }

  /** When every element passes, filtering returns the list unchanged. */
  lemma {:induction false} FilterKeepsAll<T>(s: seq<T>, p: T -> bool)
    requires forall i :: 0 <= i < |s| ==> p(s[i])
    ensures Filter(s, p) == s
  {
    if s != [] {
      FilterKeepsAll(s[1..], p);
    }
  }

  /** Filtering twice by the same test is filtering once. */
  lemma {:induction false} FilterIdempotent<T>(s: seq<T>, p: T -> bool)
    ensures Filter(Filter(s, p), p) == Filter(s, p)
  {
    var r := Filter(s, p);
    forall i | 0 <= i < |r| ensures p(r[i]) {
      assert r[i] in r;
    }
    FilterKeepsAll(r, p);
  }

  /** The elements of `s` in the opposite order. */
  function Reverse<T>(s: seq<T>): (r: seq<T>)
    ensures |r| == |s|
    ensures forall i :: 0 <= i < |s| ==> r[i] == s[|s| - 1 - i]
  {
    if s == [] then [] else Reverse(s[1..]) + [s[0]]
  }

  /** The list after prepending each of `added`, in order, to `s`, as each save handler does. */
  function PrependAll<T>(s: seq<T>, added: seq<T>): (r: seq<T>)
    ensures |r| == |s| + |added|
    decreases added
  {
    if added == [] then s else PrependAll([added[0]] + s, added[1..])
  }

  /** One more prepend puts the newest element in front of the earlier run. */
  lemma {:induction false} PrependAllSnoc<T>(s: seq<T>, added: seq<T>, x: T)
    ensures PrependAll(s, added + [x]) == [x] + PrependAll(s, added)
    decreases added
  {
    if added == [] {
      assert added + [x] == [x];
    } else {
      assert (added + [x])[1..] == added[1..] + [x];
      PrependAllSnoc([added[0]] + s, added[1..], x);
    }
  }

  /** A run of prepends lists the new elements most recent first, before the old ones in their old order. */
  lemma {:induction false} PrependAllReverses<T>(s: seq<T>, added: seq<T>)
    ensures PrependAll(s, added) == Reverse(added) + s
    decreases added
  {
    if added != [] {
      PrependAllReverses([added[0]] + s, added[1..]);
      assert Reverse(added) == Reverse(added[1..]) + [added[0]];
    }
  }
}
