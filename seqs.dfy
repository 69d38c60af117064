/**
 * Sequence operations the components apply to their lists: reading a list
 * from local storage (LoadList), `findIndex`, `Array.prototype.filter` with a
 * predicate (Keep), filter by index (RemoveAt) and map that replaces one
 * index (UpdateAt).
 */
module Seqs {
  import opened Wrappers

  /**
   * A list read from local storage (`getAllUsers`, `getActivityLogs`, the
   * to-do list): the list stored under the key, or the empty default when the
   * key is absent (`None`) or its text does not parse (`Some(None)`).
   */
  function LoadList<T>(stored: Option<Option<seq<T>>>): (r: seq<T>)
    ensures stored.Some? && stored.value.Some? ==> r == stored.value.value
    ensures !(stored.Some? && stored.value.Some?) ==> r == []
  {
    match stored
    case Some(Some(list)) => list
    case _ => []
  }

  /** `s.findIndex(p)`: the first position whose element satisfies `p`, or None where JS returns -1. */
  function FindFirst<T>(s: seq<T>, p: T -> bool): (r: Option<nat>)
    ensures r.None? <==> forall i :: 0 <= i < |s| ==> !p(s[i])
    ensures r.Some? ==> r.value < |s| && p(s[r.value]) && forall j :: 0 <= j < r.value ==> !p(s[j])
    decreases s
  {
    if s == [] then None
    else if p(s[0]) then Some(0)
    else match FindFirst(s[1..], p)
      case None => None
      case Some(k) => Some(k + 1)
  }

  /** `s.filter(p)`: the elements of `s` satisfying `p`, in their original order. */
  function Keep<T(!new)>(s: seq<T>, p: T -> bool): (r: seq<T>)
    ensures |r| <= |s|
    ensures forall i :: 0 <= i < |r| ==> p(r[i])
    decreases s
  {
    if s == [] then []
    else
      assert s == [s[0]] + s[1..];
      (if p(s[0]) then [s[0]] else []) + Keep(s[1..], p)
  }

  /** What a filter keeps: exactly the elements satisfying `p`, each as often as in `s`. */
  lemma {:induction false} KeepContents<T(!new)>(s: seq<T>, p: T -> bool)
    ensures forall x :: x in Keep(s, p) <==> x in s && p(x)
    ensures forall x :: multiset(Keep(s, p))[x] == if p(x) then multiset(s)[x] else 0
    decreases s
  {
    if s != [] {
      KeepContents(s[1..], p);
      assert s == [s[0]] + s[1..];
      assert multiset(s) == multiset{s[0]} + multiset(s[1..]);
    }
  }

  /** Filtering distributes over concatenation, so the kept elements keep their relative order. */
  lemma {:induction false} KeepAppend<T(!new)>(a: seq<T>, b: seq<T>, p: T -> bool)
    ensures Keep(a + b, p) == Keep(a, p) + Keep(b, p)
    decreases a
  {
    if a == [] {
      assert a + b == b;
    } else {
      assert (a + b)[1..] == a[1..] + b;
      KeepAppend(a[1..], b, p);
    }
  }

  /** A filter whose predicate holds everywhere returns its input unchanged. */
  lemma {:induction false} KeepAll<T(!new)>(s: seq<T>, p: T -> bool)
    requires forall i :: 0 <= i < |s| ==> p(s[i])
    ensures Keep(s, p) == s
    decreases s
  {
    if s != [] {
      KeepAll(s[1..], p);
    }
  }

  /** Filtering by `p` and by its negation splits the sequence: the two lengths add up. */
  lemma {:induction false} KeepPartition<T(!new)>(s: seq<T>, p: T -> bool)
    ensures |Keep(s, p)| + |Keep(s, x => !p(x))| == |s|
    decreases s
  {
    if s != [] {
      KeepPartition(s[1..], p);
    }
  }

  /** The elements of `s` have pairwise different keys. */
  ghost predicate DistinctBy<T, K>(s: seq<T>, key: T -> K) {
    forall i, j :: 0 <= i < j < |s| ==> key(s[i]) != key(s[j])
  }

  /** Filtering keeps keys pairwise different. */
  lemma {:induction false} KeepDistinct<T(!new), K>(s: seq<T>, p: T -> bool, key: T -> K)
    requires DistinctBy(s, key)
    ensures DistinctBy(Keep(s, p), key)
    decreases s
  {
    if s != [] {
      var rest := s[1..];
      assert DistinctBy(rest, key) by {
        forall i, j | 0 <= i < j < |rest| ensures key(rest[i]) != key(rest[j]) {
          assert rest[i] == s[i + 1] && rest[j] == s[j + 1];
        }
      }
      KeepDistinct(rest, p, key);
      KeepContents(rest, p);
      var tail := Keep(rest, p);
      if p(s[0]) {
        var r := [s[0]] + tail;
        forall j | 0 <= j < |tail| ensures key(tail[j]) != key(s[0]) {
          assert tail[j] in rest;
          var k :| 0 <= k < |rest| && rest[k] == tail[j];
          assert s[k + 1] == tail[j];
        }
        forall i, j | 0 <= i < j < |r| ensures key(r[i]) != key(r[j]) {
          assert r[j] == tail[j - 1];
          if i > 0 {
            assert r[i] == tail[i - 1];
          }
        }
      }
    }
  }

  /** `s.filter((_, i) => i !== index)`: drops position `index`; an index outside the list drops nothing. */
  function RemoveAt<T>(s: seq<T>, index: int): (r: seq<T>)
    ensures 0 <= index < |s| ==> |r| == |s| - 1
    ensures !(0 <= index < |s|) ==> r == s
    ensures forall j :: 0 <= j < index && j < |r| ==> r[j] == s[j]
    ensures forall j :: 0 <= index <= j < |r| ==> r[j] == s[j + 1]
  {
    if 0 <= index < |s| then s[..index] + s[index + 1..] else s
  }

  /** `s.map((x, i) => i === index ? y : x)`: only position `index` changes; outside the list nothing does. */
  function UpdateAt<T>(s: seq<T>, index: int, y: T): (r: seq<T>)
    ensures |r| == |s|
    ensures 0 <= index < |s| ==> r[index] == y
    ensures forall j :: 0 <= j < |s| && j != index ==> r[j] == s[j]
  {
    if 0 <= index < |s| then s[index := y] else s
  }
}
