/**
 * `Array.prototype.sort` with a comparator that orders by one or two numeric
 * keys, highest first. The engine's sort is stable, so this is modelled as a
 * stable insertion sort: an element goes after every element it does not
 * strictly outrank.
 */
module Sorting {

  /** A sort key: compared on `primary` first and on `secondary` to break ties. */
  datatype Rank = Rank(primary: real, secondary: real)

  /** `a` strictly comes before `b` in a highest-first order. */
  predicate Outranks(a: Rank, b: Rank) {
    a.primary > b.primary || (a.primary == b.primary && a.secondary > b.secondary)
  }

  /** Every earlier element ranks at least as high as every later one. */
  ghost predicate SortedBy<T>(s: seq<T>, key: T -> Rank) {
    forall i, j | 0 <= i < j < |s| :: !Outranks(key(s[j]), key(s[i]))
  }

  /** Puts `x` into `s` just before the first element that `x` strictly outranks. */
  function Insert<T>(x: T, s: seq<T>, key: T -> Rank): (r: seq<T>)
    ensures |r| == |s| + 1
  {
    if s == [] then [x]
    else if Outranks(key(x), key(s[0])) then [x] + s
    else [s[0]] + Insert(x, s[1..], key)
  }

  /** The stable sort: each element in turn is inserted into the sorted prefix before it. */
  function SortBy<T>(s: seq<T>, key: T -> Rank): (r: seq<T>)
    ensures |r| == |s|
  {
    if s == [] then [] else Insert(s[|s| - 1], SortBy(s[..|s| - 1], key), key)
  }

  /** Insertion adds exactly the one element. */
  lemma {:induction false} InsertPermutes<T>(x: T, s: seq<T>, key: T -> Rank)
    ensures multiset(Insert(x, s, key)) == multiset(s) + multiset{x}
  {
    if s != [] && !Outranks(key(x), key(s[0])) {
      InsertPermutes(x, s[1..], key);
      assert s == [s[0]] + s[1..];
    }
  }

  /** Insertion into a sorted sequence keeps it sorted. */
  lemma {:induction false} InsertSorted<T>(x: T, s: seq<T>, key: T -> Rank)
    requires SortedBy(s, key)
    ensures SortedBy(Insert(x, s, key), key)
  {
    if s == [] {
    } else if Outranks(key(x), key(s[0])) {
      var r := [x] + s;
      forall i, j | 0 <= i < j < |r|
        ensures !Outranks(key(r[j]), key(r[i]))
      {
        if i > 0 {
          assert r[i] == s[i - 1] && r[j] == s[j - 1];
        } else {
          assert r[j] == s[j - 1];
          assert !Outranks(key(s[j - 1]), key(s[0]));
        }
      }
    } else {
      var tail := Insert(x, s[1..], key);
      InsertSorted(x, s[1..], key);
      InsertPermutes(x, s[1..], key);
      var r := [s[0]] + tail;
      forall i, j | 0 <= i < j < |r|
        ensures !Outranks(key(r[j]), key(r[i]))
      {
        if i > 0 {
          assert r[i] == tail[i - 1] && r[j] == tail[j - 1];
        } else {
          assert r[j] == tail[j - 1];
          assert tail[j - 1] in multiset(tail);
          if tail[j - 1] != x {
            assert tail[j - 1] in multiset(s[1..]);
            var k :| 0 <= k < |s[1..]| && s[1..][k] == tail[j - 1];
            assert s[k + 1] == tail[j - 1];
          }
        }
      }
    }
  }

  /** Sorting rearranges and neither adds nor drops an element. */
  lemma {:induction false} SortByPermutes<T>(s: seq<T>, key: T -> Rank)
    ensures multiset(SortBy(s, key)) == multiset(s)
  {
    if s != [] {
      SortByPermutes(s[..|s| - 1], key);
      InsertPermutes(s[|s| - 1], SortBy(s[..|s| - 1], key), key);
      assert s == s[..|s| - 1] + [s[|s| - 1]];
    }
  }

  /** The result of sorting is ordered highest first. */
  lemma {:induction false} SortBySorted<T>(s: seq<T>, key: T -> Rank)
    ensures SortedBy(SortBy(s, key), key)
  {
    if s != [] {
      SortBySorted(s[..|s| - 1], key);
      InsertSorted(s[|s| - 1], SortBy(s[..|s| - 1], key), key);
    }
  }

  /**
   * The first elements of a sorted sequence (`sort(...).slice(0, n)`): sorted,
   * drawn from the input, and outranking nothing that was left out.
   */
  lemma {:induction false} TopOfSort<T>(s: seq<T>, key: T -> Rank, top: seq<T>)
    requires top <= SortBy(s, key)
    ensures SortedBy(top, key)
    ensures forall k | 0 <= k < |top| :: top[k] in s
    ensures forall x, k | x in s && x !in top && 0 <= k < |top| :: !Outranks(key(x), key(top[k]))
  {
    var full := SortBy(s, key);
    SortBySorted(s, key);
    SortByPermutes(s, key);
    assert forall k | 0 <= k < |top| :: top[k] == full[k];
    forall k | 0 <= k < |top|
      ensures top[k] in s
    {
      assert full[k] in multiset(full);
    }
    forall x, k | x in s && x !in top && 0 <= k < |top|
      ensures !Outranks(key(x), key(top[k]))
    {
      assert x in multiset(full);
      var p :| 0 <= p < |full| && full[p] == x;
    }
  }
}
