/** List queries used by the engine, with the semantics of .NET's `List<T>.IndexOf`. */
module Sequences {

  /** No element occurs twice (for lists of references: no object is listed twice). */
  predicate Distinct<T(==)>(s: seq<T>)
  {
    forall i, j :: 0 <= i < j < |s| ==> s[i] != s[j]
  }

  /** Index of the first occurrence of `x` in `s`, or -1 when `x` does not occur. */
  function IndexOf<T(==)>(s: seq<T>, x: T): (r: int)
    ensures -1 <= r < |s|
    ensures r == -1 <==> x !in s
    ensures 0 <= r ==> s[r] == x && x !in s[..r]
  {
    if s == [] then -1
    else if s[0] == x then 0
    else
      var k := IndexOf(s[1..], x);
      if k == -1 then -1 else k + 1
  }

  /** In a list without repeats, the first occurrence of `s[i]` is `i` itself. */
  lemma IndexOfDistinct<T>(s: seq<T>, i: int)
    requires Distinct(s)
    requires 0 <= i < |s|
    ensures IndexOf(s, s[i]) == i
  {
  }

  /** With repeats, a position reached by index is found again only if it is the first one. */
  lemma IndexOfReached<T>(s: seq<T>, i: int)
    requires 0 <= i < |s|
    ensures IndexOf(s, s[i]) <= i
    ensures IndexOf(s, s[i]) == i <==> s[i] !in s[..i]
  {
  }
}
