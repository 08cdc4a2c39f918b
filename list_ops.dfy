/** The few JavaScript array helpers the stores are built from (`filter`, `map`,
    `find`, `findIndex`, `some`), written as total functions on sequences, and
    `Option` for a value that may be `undefined` or `null`. (`includes` is
    sequence membership, `in`.) */
module ListOps {

  datatype Option<T> = None | Some(value: T)

  /** `r` can be obtained from `s` by deleting elements: same elements, same order. */
  ghost predicate IsSubsequence<T>(r: seq<T>, s: seq<T>)
    decreases |s|
  {
    if |r| == 0 then true
    else if |s| == 0 then false
    else (r[0] == s[0] && IsSubsequence(r[1..], s[1..])) || IsSubsequence(r, s[1..])
  }

  /** `Array.prototype.filter`: keeps, in order, exactly the elements satisfying `f`,
      each as many times as it occurs in `s`. */
  function Filter<T>(s: seq<T>, f: T -> bool): (r: seq<T>)
    ensures |r| <= |s|
    ensures forall x :: x in r ==> x in s && f(x)
    ensures forall x :: x in s && f(x) ==> x in r
    ensures IsSubsequence(r, s)
  {
    if |s| == 0 then []
    else if f(s[0]) then [s[0]] + Filter(s[1..], f)
    else Filter(s[1..], f)
  }

  /** Filtering keeps every element satisfying `f` as many times as it occurs, and
      no other. */
  lemma {:induction false} FilterCounts<T>(s: seq<T>, f: T -> bool)
    ensures forall x :: multiset(Filter(s, f))[x] == if f(x) then multiset(s)[x] else 0
  {
    if |s| > 0 {
      FilterCounts(s[1..], f);
      assert s == [s[0]] + s[1..];
    }
  }

  /** Filtering distributes over concatenation. */
  lemma {:induction false} FilterAppend<T>(a: seq<T>, b: seq<T>, f: T -> bool)
    ensures Filter(a + b, f) == Filter(a, f) + Filter(b, f)
  {
    if |a| == 0 {
      assert a + b == b;
    } else {
      assert (a + b)[1..] == a[1..] + b;
      FilterAppend(a[1..], b, f);
    }
  }

  /** Filtering with a test that every element passes is the identity,
      and with one that no element passes gives the empty sequence. */
  lemma {:induction false} FilterAllOrNone<T>(s: seq<T>, f: T -> bool)
    ensures (forall i :: 0 <= i < |s| ==> f(s[i])) ==> Filter(s, f) == s
    ensures (forall i :: 0 <= i < |s| ==> !f(s[i])) ==> Filter(s, f) == []
  {
    if |s| > 0 {
      FilterAllOrNone(s[1..], f);
      assert forall i :: 0 <= i < |s| - 1 ==> s[1..][i] == s[i + 1];
    }
  }

  /** `Array.prototype.map`. */
  function Map<T, U>(s: seq<T>, f: T -> U): (r: seq<U>)
    ensures |r| == |s|
    ensures forall i :: 0 <= i < |s| ==> r[i] == f(s[i])
  {
    if |s| == 0 then [] else [f(s[0])] + Map(s[1..], f)
  }

  /** Position of the first element satisfying `f` (`Array.prototype.findIndex`). */
  function FindIndex<T>(s: seq<T>, f: T -> bool): (r: Option<nat>)
    ensures r.Some? ==> r.value < |s| && f(s[r.value])
    ensures r.Some? ==> forall j :: 0 <= j < r.value ==> !f(s[j])
    ensures r.None? ==> forall j :: 0 <= j < |s| ==> !f(s[j])
  {
    if |s| == 0 then None
    else if f(s[0]) then Some(0)
    else match FindIndex(s[1..], f)
      case None => None
      case Some(i) => Some(i + 1)
  }

  /** `Array.prototype.find`: the first element satisfying `f`, if any. */
  function Find<T>(s: seq<T>, f: T -> bool): (r: Option<T>)
    ensures r.None? <==> forall j :: 0 <= j < |s| ==> !f(s[j])
    ensures r.Some? ==> exists i :: 0 <= i < |s| && s[i] == r.value && f(s[i]) &&
                                    forall j :: 0 <= j < i ==> !f(s[j])
  {
    match FindIndex(s, f)
    case None => None
    case Some(i) => Some(s[i])
  }

  /** `Array.prototype.some`. */
  function Any<T>(s: seq<T>, f: T -> bool): (b: bool)
    ensures b <==> exists i :: 0 <= i < |s| && f(s[i])
  {
    if |s| == 0 then false
    else f(s[0]) || Any(s[1..], f)
  }
}
