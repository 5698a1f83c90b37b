/**
 * The array operations the handlers use on their in-memory tables: `findIndex`/`find` with a
 * predicate, `splice(i, 1)` and `filter` with an inequality.
 */
module Lists {
  import opened Wrappers

  /** `s.findIndex(P)`: the first position whose element satisfies `P`, or -1. */
  function FindIndex<T>(s: seq<T>, P: T -> bool): (k: int)
    ensures -1 <= k < |s|
    ensures 0 <= k ==> P(s[k])
    ensures forall j :: 0 <= j < |s| && (k < 0 || j < k) ==> !P(s[j])
    decreases |s|
  {
    if |s| == 0 then -1
    else if P(s[0]) then 0
    else
      var r := FindIndex(s[1..], P);
      if r < 0 then -1 else r + 1
  }

  /** `s.find(P)`: the first element satisfying `P`, or `None`. */
  function Find<T>(s: seq<T>, P: T -> bool): (r: Option<T>)
    ensures r.Some? <==> exists j :: 0 <= j < |s| && P(s[j])
    ensures r.Some? ==> r.value in s && P(r.value)
    ensures r.Some? ==> exists j :: 0 <= j < |s| && s[j] == r.value && forall i :: 0 <= i < j ==> !P(s[i])
  {
    var k := FindIndex(s, P);
    if k < 0 then None else Some(s[k])
  }

  /** `s.splice(i, 1)` on a valid index: the element at `i` is taken out, the others keep their order. */
  function RemoveAt<T>(s: seq<T>, i: nat): (r: seq<T>)
    requires i < |s|
    ensures |r| == |s| - 1
    ensures forall j :: 0 <= j < i ==> r[j] == s[j]
    ensures forall j :: i <= j < |r| ==> r[j] == s[j + 1]
  {
    s[..i] + s[i + 1..]
  }

  /** Every element of `RemoveAt(s, i)` was an element of `s`. */
  lemma RemoveAtSubset<T>(s: seq<T>, i: nat, x: T)
    requires i < |s|
    ensures x in RemoveAt(s, i) ==> x in s
  {
    if x in RemoveAt(s, i) {
      var j :| 0 <= j < |s| - 1 && RemoveAt(s, i)[j] == x;
      assert x == (if j < i then s[j] else s[j + 1]);
    }
  }

  /** `s.filter(y => y !== x)`: every other value kept in order, every copy of `x` dropped. */
  function Without(s: seq<int>, x: int): (r: seq<int>)
    ensures |r| <= |s|
    ensures forall y :: y in r <==> y in s && y != x
    decreases |s|
  {
    if s == [] then []
    else if s[0] == x then Without(s[1..], x)
    else [s[0]] + Without(s[1..], x)
  }

  /** Dropping a value that does not occur changes nothing. */
  lemma {:induction false} WithoutAbsent(s: seq<int>, x: int)
    requires x !in s
    ensures Without(s, x) == s
    decreases |s|
  {
    if s != [] {
      WithoutAbsent(s[1..], x);
      assert s == [s[0]] + s[1..];
    }
  }
}
