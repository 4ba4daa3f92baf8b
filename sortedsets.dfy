/**
 * The read side of a sorted set: `ZRANGE key 0 -1` lists the members by
 * ascending score and `ZREVRANGE` by descending score. Members with equal
 * scores may come out in any order here. `SMEMBERS` lists a set in some order.
 */
module SortedSets {

  /** No element occurs twice. */
  ghost predicate Distinct<T>(s: seq<T>) {
    forall i, j | 0 <= i < j < |s| :: s[i] != s[j]
  }

  /** `a` may come before `b` in the requested direction. */
  predicate InOrder(a: real, b: real, ascending: bool) {
    if ascending then a <= b else a >= b
  }

  /** `ids` lists each member of `s` exactly once. */
  ghost predicate Enumerates<T>(ids: seq<T>, s: set<T>) {
    Distinct(ids) && (forall k | 0 <= k < |ids| :: ids[k] in s) && (forall x | x in s :: x in ids)
  }

  /** `ids` lists every scored member exactly once, ordered by score. */
  ghost predicate Ranked(ids: seq<string>, scores: map<string, real>, ascending: bool) {
    && Enumerates(ids, scores.Keys)
    && forall i, j | 0 <= i < j < |ids| :: InOrder(scores[ids[i]], scores[ids[j]], ascending)
  }

  /** Among some members of a sorted set, one has the lowest (or highest) score. */
  lemma {:induction false} ExtremeExists(scores: map<string, real>, among: set<string>, ascending: bool) returns (k: string)
    requires among <= scores.Keys && among != {}
    ensures k in among
    ensures forall x | x in among :: InOrder(scores[k], scores[x], ascending)
    decreases |among|
  {
    var x :| x in among;
    var rest := among - {x};
    if rest == {} {
      k := x;
      assert among == {x};
    } else {
      var y := ExtremeExists(scores, rest, ascending);
      k := if InOrder(scores[x], scores[y], ascending) then x else y;
    }
  }

  /** `ZRANGE key 0 -1` (ascending) or `ZREVRANGE key 0 -1` (descending): every member once, in score order. */
  method ZRange(scores: map<string, real>, ascending: bool) returns (ids: seq<string>)
    ensures Ranked(ids, scores, ascending)
  {
    ids := [];
    var rest := scores.Keys;
    while rest != {}
      invariant rest <= scores.Keys
      invariant Distinct(ids)
      invariant forall k | 0 <= k < |ids| :: ids[k] in scores && ids[k] !in rest
      invariant forall x | x in scores :: x in rest || x in ids
      invariant forall i, j | 0 <= i < j < |ids| :: InOrder(scores[ids[i]], scores[ids[j]], ascending)
      invariant forall k, y | 0 <= k < |ids| && y in rest :: InOrder(scores[ids[k]], scores[y], ascending)
      decreases |rest|
    {
      ghost var e := ExtremeExists(scores, rest, ascending);
      var x :| x in rest && forall y | y in rest :: InOrder(scores[x], scores[y], ascending);
      ghost var before := ids;
      ids := ids + [x];
      rest := rest - {x};
      forall i, j | 0 <= i < j < |ids|
        ensures InOrder(scores[ids[i]], scores[ids[j]], ascending)
      {
        assert ids[i] == before[i];
        if j < |before| {
          assert ids[j] == before[j];
        }
      }
    }
  }

  /** `SMEMBERS key`: every member once, in some order. */
  method SMembers(s: set<string>) returns (ids: seq<string>)
    ensures Enumerates(ids, s)
  {
    ids := [];
    var rest := s;
    while rest != {}
      invariant rest <= s
      invariant Distinct(ids)
      invariant forall k | 0 <= k < |ids| :: ids[k] in s && ids[k] !in rest
      invariant forall x | x in s :: x in rest || x in ids
      decreases |rest|
    {
      var x :| x in rest;
      ids := ids + [x];
      rest := rest - {x};
    }
  }

  /** A listing is exactly as long as the set it lists. */
  lemma {:induction false} EnumerationSize<T>(ids: seq<T>, s: set<T>)
    requires Enumerates(ids, s)
    ensures |ids| == |s|
    decreases |ids|
  {
    if ids != [] {
      var rest := ids[1..];
      assert Enumerates(rest, s - {ids[0]}) by {
        forall x | x in s - {ids[0]}
          ensures x in rest
        {
          var k :| 0 <= k < |ids| && ids[k] == x;
          assert k != 0;
          assert rest[k - 1] == x;
        }
        forall k | 0 <= k < |rest|
          ensures rest[k] in s - {ids[0]}
        {
          assert rest[k] == ids[k + 1];
        }
      }
      EnumerationSize(rest, s - {ids[0]});
    } else {
      assert s == {};
    }
  }

  /** Without repeats, each element of a sequence occurs in it exactly once. */
  lemma {:induction false} DistinctOnce<T>(s: seq<T>)
    requires Distinct(s)
    ensures forall x | x in multiset(s) :: multiset(s)[x] == 1
  {
    if s != [] {
      var rest := s[1..];
      assert s == [s[0]] + rest;
      assert Distinct(rest) by {
        forall i, j | 0 <= i < j < |rest|
          ensures rest[i] != rest[j]
        {
          assert rest[i] == s[i + 1] && rest[j] == s[j + 1];
        }
      }
      DistinctOnce(rest);
      assert s[0] !in rest by {
        forall k | 0 <= k < |rest|
          ensures rest[k] != s[0]
        {
          assert rest[k] == s[k + 1];
        }
      }
    }
  }

  /** A sequence in which every element occurs once has no repeats. */
  lemma {:induction false} OnceDistinct<T>(s: seq<T>)
    requires forall x | x in multiset(s) :: multiset(s)[x] == 1
    ensures Distinct(s)
  {
    forall i, j | 0 <= i < j < |s|
      ensures s[i] != s[j]
    {
      assert s == s[..j] + s[j..];
      assert s[j..][0] == s[j];
      assert multiset(s)[s[j]] == multiset(s[..j])[s[j]] + multiset(s[j..])[s[j]];
      assert s[j] !in multiset(s[..j]);
      assert s[..j][i] == s[i];
    }
  }

  /** Rearranging a sequence without repeats leaves none. */
  lemma {:induction false} PermutationDistinct<T>(a: seq<T>, b: seq<T>)
    requires Distinct(a) && multiset(a) == multiset(b)
    ensures Distinct(b)
  {
    DistinctOnce(a);
    OnceDistinct(b);
  }

  /** A prefix of a listing without repeats has no repeats. */
  lemma {:induction false} PrefixDistinct<T>(ids: seq<T>, top: seq<T>)
    requires Distinct(ids) && top <= ids
    ensures Distinct(top)
  {
    forall i, j | 0 <= i < j < |top|
      ensures top[i] != top[j]
    {
      assert top[i] == ids[i] && top[j] == ids[j];
    }
  }

  /**
   * The first `n` members of a ranking (`ZRANGE key 0 n-1`): no repeats, and
   * every member left out scores no better than every member taken.
   */
  lemma {:induction false} RankedTop(ids: seq<string>, scores: map<string, real>, ascending: bool, top: seq<string>)
    requires Ranked(ids, scores, ascending) && top <= ids
    ensures Distinct(top)
    ensures forall k | 0 <= k < |top| :: top[k] in scores
    ensures forall x, k | x in scores && x !in top && 0 <= k < |top| :: InOrder(scores[top[k]], scores[x], ascending)
  {
    PrefixDistinct(ids, top);
    forall x, k | x in scores && x !in top && 0 <= k < |top|
      ensures InOrder(scores[top[k]], scores[x], ascending)
    {
      var p :| 0 <= p < |ids| && ids[p] == x;
      assert forall q | 0 <= q < |top| :: top[q] == ids[q];
      assert ids[k] == top[k];
    }
  }
}
