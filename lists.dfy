/**
 * The JavaScript array operations the core's list logic is built from:
 * `filter`, `some`, `find` and `slice` (including slice's negative ends).
 */
module Lists {
  import opened Options

  /** Array.prototype.filter: the elements that satisfy `p`, in their original order. */
  function Filter<T>(s: seq<T>, p: T -> bool): (r: seq<T>)
    ensures |r| <= |s|
    ensures forall i :: 0 <= i < |r| ==> r[i] in s && p(r[i])
    ensures forall i :: 0 <= i < |s| && p(s[i]) ==> s[i] in r
  {
    if s == [] then []
    else if p(s[0]) then [s[0]] + Filter(s[1..], p)
    else Filter(s[1..], p)
  }

  /** Filtering distributes over concatenation: the order of the input is kept. */
  lemma {:induction false} FilterConcat<T>(a: seq<T>, b: seq<T>, p: T -> bool)
    ensures Filter(a + b, p) == Filter(a, p) + Filter(b, p)
  {
    if a == [] {
      assert a + b == b;
    } else {
      assert (a + b)[0] == a[0];
      assert (a + b)[1..] == a[1..] + b;
      FilterConcat(a[1..], b, p);
    }
  }

  /** Two predicates that agree on the elements of `s` filter it the same way. */
  lemma {:induction false} FilterCongruent<T>(s: seq<T>, p: T -> bool, q: T -> bool)
    requires forall i :: 0 <= i < |s| ==> p(s[i]) == q(s[i])
    ensures Filter(s, p) == Filter(s, q)
  {
    if s != [] {
      assert forall i :: 0 <= i < |s| - 1 ==> s[1..][i] == s[i + 1];
      FilterCongruent(s[1..], p, q);
    }
  }

  /**
   * Filtering by a predicate and by its negation splits `s` into two lists
   * that together hold every element exactly as often as `s` does.
   */
  lemma {:induction false} FilterPartition<T>(s: seq<T>, p: T -> bool, q: T -> bool)
    requires forall i :: 0 <= i < |s| ==> q(s[i]) == !p(s[i])
    ensures multiset(Filter(s, p)) + multiset(Filter(s, q)) == multiset(s)
    ensures |Filter(s, p)| + |Filter(s, q)| == |s|
  {
    if s != [] {
      assert forall i :: 0 <= i < |s| - 1 ==> s[1..][i] == s[i + 1];
      FilterPartition(s[1..], p, q);
      assert s == [s[0]] + s[1..];
      assert multiset(s) == multiset([s[0]]) + multiset(s[1..]);
    }
  }

  /** A list whose every element satisfies `p` filters to itself. */
  lemma {:induction false} AllFiltered<T>(s: seq<T>, p: T -> bool)
    requires forall i :: 0 <= i < |s| ==> p(s[i])
    ensures Filter(s, p) == s
  {
    if s != [] {
      assert forall i :: 0 <= i < |s| - 1 ==> s[1..][i] == s[i + 1];
      AllFiltered(s[1..], p);
    }
  }

  /** A list with no element satisfying `p` filters to nothing. */
  lemma {:induction false} NoneFiltered<T>(s: seq<T>, p: T -> bool)
    requires forall i :: 0 <= i < |s| ==> !p(s[i])
    ensures Filter(s, p) == []
  {
    if s != [] {
      assert forall i :: 0 <= i < |s| - 1 ==> s[1..][i] == s[i + 1];
      NoneFiltered(s[1..], p);
    }
  }

  /** Array.prototype.some, as the loop it is: true when some element satisfies `p`. */
  function Any<T>(s: seq<T>, p: T -> bool): (r: bool)
    ensures r <==> exists i :: 0 <= i < |s| && p(s[i])
  {
    if s == [] then false
    else if p(s[0]) then true
    else
      var rest := Any(s[1..], p);
      assert forall i :: 1 <= i < |s| ==> s[i] == s[1..][i - 1];
      assert forall i :: 0 <= i < |s| - 1 ==> s[1..][i] == s[i + 1];
      rest
  }

  /** Array.prototype.findIndex: the first index whose element satisfies `p`. */
  function FirstIndex<T>(s: seq<T>, p: T -> bool): (r: Option<nat>)
    ensures r.Some? ==> r.value < |s| && p(s[r.value]) && forall j :: 0 <= j < r.value ==> !p(s[j])
    ensures r.None? ==> forall j :: 0 <= j < |s| ==> !p(s[j])
  {
    if s == [] then None
    else if p(s[0]) then Some(0)
    else match FirstIndex(s[1..], p)
      case None => None
      case Some(i) => Some(i + 1)
  }

  /** Array.prototype.find: the first element that satisfies `p`, or none. */
  function Find<T>(s: seq<T>, p: T -> bool): (r: Option<T>)
    ensures r.None? <==> forall j :: 0 <= j < |s| ==> !p(s[j])
    ensures r.Some? ==> exists i :: 0 <= i < |s| && s[i] == r.value && p(s[i]) &&
                                     forall j :: 0 <= j < i ==> !p(s[j])
  {
    match FirstIndex(s, p)
    case None => None
    case Some(i) => Some(s[i])
  }

  function IntMax(a: int, b: int): int { if a < b then b else a }
  function IntMin(a: int, b: int): int { if a < b then a else b }

  /**
   * How `slice` turns a possibly negative index into a position in a list of
   * length `len` (ECMA-262, Array.prototype.slice): max(len + i, 0) for a
   * negative index, min(i, len) otherwise.
   */
  function SliceIndex(i: int, len: nat): (r: nat)
    ensures r <= len
    ensures i < 0 ==> r == IntMax(len + i, 0)
    ensures 0 <= i ==> r == IntMin(i, len)
  {
    if i < 0 then (if len + i < 0 then 0 else len + i)
    else if i > len then len
    else i
  }

  /** Array.prototype.slice(start, end), negative arguments counting from the end. */
  function Slice<T>(s: seq<T>, start: int, end: int): (r: seq<T>)
    ensures var b, e := SliceIndex(start, |s|), SliceIndex(end, |s|);
            |r| == if b < e then e - b else 0
    ensures forall k :: 0 <= k < |r| ==> SliceIndex(start, |s|) + k < |s| && r[k] == s[SliceIndex(start, |s|) + k]
  {
    var b, e := SliceIndex(start, |s|), SliceIndex(end, |s|);
    if b < e then s[b..e] else []
  }

  /**
   * `slice(0, end)` keeps a prefix: the first `end` elements when `end` is not
   * negative, and all but the last `-end` when it is (never fewer than none).
   */
  lemma SliceFromStart<T>(s: seq<T>, end: int)
    ensures end >= 0 ==> Slice(s, 0, end) == s[..if end <= |s| then end else |s|]
    ensures end < 0 ==> Slice(s, 0, end) == s[..if |s| + end < 0 then 0 else |s| + end]
    ensures |Slice(s, 0, end)| <= |s|
  {
  }
}
