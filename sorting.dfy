/** `Array.prototype.sort` with a comparator. The engine's sort is stable, so
    it is modelled by insertion sort: an element is placed before the first
    later element it may precede. `le(a, b)` holds when the comparator allows
    `a` before `b` (`compare(a, b) <= 0`); the comparators the application
    passes are total. */
module Sorting {

  ghost predicate Total<T(!new)>(le: (T, T) -> bool) {
    forall a, b :: le(a, b) || le(b, a)
  }

  ghost predicate Transitive<T(!new)>(le: (T, T) -> bool) {
    forall a, b, c :: le(a, b) && le(b, c) ==> le(a, c)
  }

  predicate SortedBy<T>(s: seq<T>, le: (T, T) -> bool) {
    forall i, j :: 0 <= i < j < |s| ==> le(s[i], s[j])
  }

  /** Every element may follow `m`. */
  predicate Above<T>(s: seq<T>, m: T, le: (T, T) -> bool) {
    forall k :: 0 <= k < |s| ==> le(m, s[k])
  }

  function Insert<T>(x: T, s: seq<T>, le: (T, T) -> bool): (r: seq<T>)
    ensures |r| == |s| + 1
  {
    if s == [] || le(x, s[0]) then [x] + s else [s[0]] + Insert(x, s[1..], le)
  }

  function SortBy<T>(s: seq<T>, le: (T, T) -> bool): (r: seq<T>)
    ensures |r| == |s|
  {
    if s == [] then [] else Insert(s[0], SortBy(s[1..], le), le)
  }

  lemma {:induction false} InsertPermutes<T>(x: T, s: seq<T>, le: (T, T) -> bool)
    ensures multiset(Insert(x, s, le)) == multiset(s) + multiset{x}
  {
    if s != [] && !le(x, s[0]) {
      InsertPermutes(x, s[1..], le);
      assert s == [s[0]] + s[1..];
    }
  }

  lemma {:induction false} InsertAbove<T>(x: T, s: seq<T>, m: T, le: (T, T) -> bool)
    requires Above(s, m, le) && le(m, x)
    ensures Above(Insert(x, s, le), m, le)
  {
    if s != [] && !le(x, s[0]) {
      InsertAbove(x, s[1..], m, le);
      var r := Insert(x, s, le);
      assert r == [s[0]] + Insert(x, s[1..], le);
      assert forall k :: 1 <= k < |r| ==> r[k] == Insert(x, s[1..], le)[k - 1];
    }
  }

  lemma {:induction false} InsertSorted<T(!new)>(x: T, s: seq<T>, le: (T, T) -> bool)
    requires Total(le) && Transitive(le) && SortedBy(s, le)
    ensures SortedBy(Insert(x, s, le), le)
  {
    var r := Insert(x, s, le);
    if s == [] {
    } else if le(x, s[0]) {
      assert r == [x] + s;
      forall i, j | 0 <= i < j < |r| ensures le(r[i], r[j]) {
        if i == 0 && j > 1 {
          assert le(s[0], s[j - 1]);
        }
      }
    } else {
      var tail := Insert(x, s[1..], le);
      InsertSorted(x, s[1..], le);
      InsertAbove(x, s[1..], s[0], le);
      assert r == [s[0]] + tail;
    }
  }

  lemma {:induction false} SortPermutes<T>(s: seq<T>, le: (T, T) -> bool)
    ensures multiset(SortBy(s, le)) == multiset(s)
  {
    if s != [] {
      SortPermutes(s[1..], le);
      InsertPermutes(s[0], SortBy(s[1..], le), le);
      assert s == [s[0]] + s[1..];
    }
  }

  /** Sorting with a total, transitive comparator orders the elements and keeps them. */
  lemma {:induction false} SortSorted<T(!new)>(s: seq<T>, le: (T, T) -> bool)
    requires Total(le) && Transitive(le)
    ensures SortedBy(SortBy(s, le), le)
    ensures multiset(SortBy(s, le)) == multiset(s)
  {
    SortPermutes(s, le);
    if s != [] {
      SortSorted(s[1..], le);
      InsertSorted(s[0], SortBy(s[1..], le), le);
    }
  }

  /** The sort is stable: its first element is the earliest of the elements
      every element may follow. */
  lemma {:induction false} SortHead<T>(s: seq<T>, le: (T, T) -> bool, k: int)
    requires 0 <= k < |s|
    requires forall j :: 0 <= j < |s| ==> le(s[k], s[j])
    requires forall j :: 0 <= j < k ==> !le(s[j], s[k])
    ensures SortBy(s, le)[0] == s[k]
  {
    var rest := SortBy(s[1..], le);
    if k == 0 {
      if rest != [] {
        SortPermutes(s[1..], le);
        assert rest[0] in multiset(s[1..]);
        var j :| 0 <= j < |s[1..]| && s[1..][j] == rest[0];
        assert le(s[0], s[j + 1]);
      }
    } else {
      SortHead(s[1..], le, k - 1);
      assert !le(s[0], s[k]);
    }
  }
}
