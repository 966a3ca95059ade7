/**
 * What a database does to a table to answer a query: keep the rows a
 * `WHERE` clause selects, and order them for `ORDER BY` by a stable
 * insertion sort under a total preorder (rows whose keys tie keep their
 * table order).
 */
module Sorting {

  /** The rows of `s` that satisfy `p`, in table order. */
  function Filter<T(!new)>(s: seq<T>, p: T -> bool): (r: seq<T>)
    ensures |r| <= |s|
    ensures forall x :: x in r <==> x in s && p(x)
    ensures forall k :: 0 <= k < |r| ==> p(r[k])
  {
    if s == [] then []
    else if p(s[0]) then [s[0]] + Filter(s[1..], p)
    else Filter(s[1..], p)
  }

  /** `le` is total and transitive. */
  ghost predicate TotalPreorder<T(!new)>(le: (T, T) -> bool)
  {
    && (forall a, b :: le(a, b) || le(b, a))
    && (forall a, b, c :: le(a, b) && le(b, c) ==> le(a, c))
  }

  predicate SortedBy<T>(s: seq<T>, le: (T, T) -> bool)
  {
    forall i, j :: 0 <= i < j < |s| ==> le(s[i], s[j])
  }

  /** Inserts `x` after every leading element that is not above it. */
  function InsertBy<T>(x: T, s: seq<T>, le: (T, T) -> bool): (r: seq<T>)
    ensures multiset(r) == multiset(s) + multiset{x}
    ensures |r| == |s| + 1
  {
    if s == [] then [x]
    else if le(s[0], x) then
      assert s == [s[0]] + s[1..];
      [s[0]] + InsertBy(x, s[1..], le)
    else [x] + s
  }

  /** The rows of `s` in the order of `le`. */
  function SortBy<T>(s: seq<T>, le: (T, T) -> bool): (r: seq<T>)
    ensures multiset(r) == multiset(s)
    ensures |r| == |s|
  {
    if s == [] then []
    else
      assert s == s[..|s| - 1] + [s[|s| - 1]];
      InsertBy(s[|s| - 1], SortBy(s[..|s| - 1], le), le)
  }

  lemma {:induction false} InsertBySorted<T(!new)>(x: T, s: seq<T>, le: (T, T) -> bool)
    requires TotalPreorder(le)
    requires SortedBy(s, le)
    ensures SortedBy(InsertBy(x, s, le), le)
  {
    if s != [] {
      if le(s[0], x) {
        InsertBySorted(x, s[1..], le);
        var t := InsertBy(x, s[1..], le);
        assert forall k :: 0 <= k < |t| ==> le(s[0], t[k]) by {
          forall k | 0 <= k < |t| ensures le(s[0], t[k]) {
            assert t[k] in multiset(s[1..]) + multiset{x};
            if t[k] in multiset(s[1..]) {
              var m :| 0 <= m < |s[1..]| && s[1..][m] == t[k];
              assert s[1 + m] == t[k];
            }
          }
        }
      } else {
        assert le(x, s[0]);
      }
    }
  }

  /** `g` applied to every row of `s`, in order. */
  function MapSeq<T, U>(s: seq<T>, g: T -> U): (r: seq<U>)
    ensures |r| == |s|
    ensures forall k :: 0 <= k < |s| ==> r[k] == g(s[k])
  {
    seq(|s|, k requires 0 <= k < |s| => g(s[k]))
  }

  lemma MapSeqCons<T, U>(x: T, s: seq<T>, g: T -> U)
    ensures MapSeq([x] + s, g) == [g(x)] + MapSeq(s, g)
  {
    assert MapSeq([x] + s, g) == [g(x)] + MapSeq(s, g);
  }

  lemma ConsMapMultiset<T, U>(t: seq<T>, s: seq<T>, y: U, g: T -> U)
    requires s != []
    requires multiset(MapSeq(t, g)) == multiset(MapSeq(s[1..], g)) + multiset{y}
    ensures multiset(MapSeq([s[0]] + t, g)) == multiset(MapSeq(s, g)) + multiset{y}
  {
    MapSeqCons(s[0], t, g);
    assert s == [s[0]] + s[1..];
    MapSeqCons(s[0], s[1..], g);
  }

  /** Inserting a row adds its image, and only that, to the images of the rows. */
  lemma {:induction false} InsertByMapMultiset<T, U>(x: T, s: seq<T>, le: (T, T) -> bool, g: T -> U)
    ensures multiset(MapSeq(InsertBy(x, s, le), g)) == multiset(MapSeq(s, g)) + multiset{g(x)}
  {
    if s == [] {
      assert MapSeq(InsertBy(x, s, le), g) == [g(x)];
    } else if le(s[0], x) {
      InsertByMapMultiset(x, s[1..], le, g);
      ConsMapMultiset(InsertBy(x, s[1..], le), s, g(x), g);
    } else {
      assert InsertBy(x, s, le) == [x] + s;
      MapSeqCons(x, s, g);
    }
  }

  /** Sorting rows permutes their images: whatever `g` reads off a row, the sort keeps its multiset. */
  lemma {:induction false} SortByMapMultiset<T, U>(s: seq<T>, le: (T, T) -> bool, g: T -> U)
    ensures multiset(MapSeq(SortBy(s, le), g)) == multiset(MapSeq(s, g))
  {
    if s != [] {
      var init, last := s[..|s| - 1], s[|s| - 1];
      SortByMapMultiset(init, le, g);
      InsertByMapMultiset(last, SortBy(init, le), le, g);
      assert MapSeq(s, g) == MapSeq(init, g) + [g(last)];
    }
  }

  /** The sort returns its input's rows, in `le` order. */
  lemma {:induction false} SortBySorted<T(!new)>(s: seq<T>, le: (T, T) -> bool)
    requires TotalPreorder(le)
    ensures SortedBy(SortBy(s, le), le)
    ensures multiset(SortBy(s, le)) == multiset(s)
  {
    if s != [] {
      SortBySorted(s[..|s| - 1], le);
      InsertBySorted(s[|s| - 1], SortBy(s[..|s| - 1], le), le);
    }
  }
}
