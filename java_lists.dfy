/** The java.util list operations the core depends on: Stream.distinct and List.remove(Object). */
module JavaLists {

  predicate NoDuplicates<T(==)>(s: seq<T>)
  {
    forall i, j :: 0 <= i < j < |s| ==> s[i] != s[j]
  }

  /** The position of the first occurrence of x in s (List.indexOf). */
  function FirstIndex<T(==)>(s: seq<T>, x: T): (k: nat)
    requires x in s
    ensures k < |s| && s[k] == x && x !in s[..k]
  {
    if s[0] == x then 0
    else
      var k := 1 + FirstIndex(s[1..], x);
      assert s[..k] == [s[0]] + s[1..][..k - 1];
      k
  }

  /** stream().distinct(): the first occurrence of each element, in encounter order. */
  function Distinct<T(==)>(s: seq<T>): (r: seq<T>)
    ensures NoDuplicates(r)
    ensures forall i :: 0 <= i < |r| ==> r[i] in s
    ensures forall i :: 0 <= i < |s| ==> s[i] in r
    ensures |r| <= |s|
  {
    if |s| == 0 then []
    else
      var d := Distinct(s[..|s| - 1]);
      var last := s[|s| - 1];
      assert s == s[..|s| - 1] + [last];
      if last in d then d else d + [last]
  }

  /** List.remove(Object): removes the first element equal to x; a list without x is left as it is. */
  function RemoveFirst<T(==)>(s: seq<T>, x: T): (r: seq<T>)
    ensures x !in s ==> r == s
    ensures x in s ==> |r| == |s| - 1 && multiset(r) == multiset(s) - multiset{x}
    ensures x in s ==> r[..FirstIndex(s, x)] == s[..FirstIndex(s, x)]
                       && r[FirstIndex(s, x)..] == s[FirstIndex(s, x) + 1..]
  {
    if x !in s then s
    else
      var k := FirstIndex(s, x);
      assert s == s[..k] + [x] + s[k + 1..];
      s[..k] + s[k + 1..]
  }

  // ---------------------------------------------------------------------------------------
  // Lemmas

  /** Extending a list does not move the first occurrence of an element it already held. */
  lemma {:induction false} FirstIndexOfPrefix<T>(s: seq<T>, n: nat, x: T)
    requires n <= |s| && x in s[..n]
    ensures x in s && FirstIndex(s, x) == FirstIndex(s[..n], x)
  {
    var p := s[..n];
    var k := FirstIndex(p, x);
    assert s[..k] == p[..k];
  }

  /**
   * One step of distinct(): a list ordered by first occurrence in the prefix stays ordered by first
   * occurrence in the whole list when the last element is appended unless it is already there.
   */
  lemma {:induction false} OrderedAppend<T>(s: seq<T>, d: seq<T>, r: seq<T>)
    requires |s| > 0
    requires forall k :: 0 <= k < |d| ==> d[k] in s[..|s| - 1]
    requires forall k :: 0 <= k < |s| - 1 ==> s[k] in d
    requires forall i, j :: 0 <= i < j < |d| ==> FirstIndex(s[..|s| - 1], d[i]) < FirstIndex(s[..|s| - 1], d[j])
    requires r == if s[|s| - 1] in d then d else d + [s[|s| - 1]]
    ensures forall i, j :: 0 <= i < j < |r| ==> FirstIndex(s, r[i]) < FirstIndex(s, r[j])
  {
    var n := |s| - 1;
    var x := s[n];
    forall i, j | 0 <= i < j < |r|
      ensures FirstIndex(s, r[i]) < FirstIndex(s, r[j])
    {
      assert r[i] == d[i];
      FirstIndexOfPrefix(s, n, d[i]);
      if j < |d| {
        assert r[j] == d[j];
        FirstIndexOfPrefix(s, n, d[j]);
      } else {
        assert r[j] == x && x !in d;
        assert forall k :: 0 <= k < n ==> s[..n][k] == s[k] != x;
      }
    }
  }

  /** distinct() keeps the elements in the order of their first occurrences. */
  lemma {:induction false} DistinctKeepsFirstOccurrenceOrder<T>(s: seq<T>)
    ensures forall i, j :: 0 <= i < j < |Distinct(s)| ==>
              FirstIndex(s, Distinct(s)[i]) < FirstIndex(s, Distinct(s)[j])
  {
    if |s| > 0 {
      var p := s[..|s| - 1];
      var d := Distinct(p);
      DistinctKeepsFirstOccurrenceOrder(p);
      var r := Distinct(s);
      assert r == if s[|s| - 1] in d then d else d + [s[|s| - 1]] by {
        assert s[..|s| - 1] == p;
      }
      assert forall k :: 0 <= k < |s| - 1 ==> s[k] == p[k] && s[k] in d;
      OrderedAppend(s, d, r);
    }
  }
}
