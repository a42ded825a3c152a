/** `random.sample(population, k)` with the random indices supplied by the
    caller. For a population this small CPython keeps a copy of it as a
    pool: step i picks an index j below n - i, takes pool[j], and moves the
    last live element into the vacancy. */
module Sampling {
  import opened Catalog

  /** Step i's index lies in [0, n - i), as `_randbelow(n - i)` returns. */
  predicate ValidPicks(n: int, picks: seq<int>) {
    |picks| <= n && forall i :: 0 <= i < |picks| ==> 0 <= picks[i] < n - i
  }

  /** The pool after taking index j: the vacancy is filled by the last element. */
  function Remove<T>(pool: seq<T>, j: nat): (rest: seq<T>)
    requires j < |pool|
    ensures |rest| == |pool| - 1
    ensures forall i :: 0 <= i < |rest| ==> rest[i] == if i == j then pool[|pool| - 1] else pool[i]
  {
    pool[j := pool[|pool| - 1]][..|pool| - 1]
  }

  /** What is left after taking pool[j] is exactly the other elements, each
      once. */
  lemma RemoveContents<T>(pool: seq<T>, j: nat)
    requires j < |pool| && Distinct(pool)
    ensures Distinct(Remove(pool, j))
    ensures forall x :: x in Remove(pool, j) <==> x in pool && x != pool[j]
  {
    var rest := Remove(pool, j);
    forall x | x in pool && x != pool[j]
      ensures x in rest
    {
      var i :| 0 <= i < |pool| && pool[i] == x;
      if i == |pool| - 1 {
        assert rest[j] == x;
      } else {
        assert rest[i] == x;
      }
    }
  }

  function Sample<T>(pool: seq<T>, picks: seq<int>): (r: seq<T>)
    requires ValidPicks(|pool|, picks)
    ensures |r| == |picks|
    ensures forall x :: x in r ==> x in pool
    ensures Distinct(pool) ==> Distinct(r)
    decreases |picks|
  {
    if picks == [] then []
    else
      var j := picks[0];
      var rest := Remove(pool, j);
      assert ValidPicks(|rest|, picks[1..]) by {
        forall i | 0 <= i < |picks| - 1
          ensures 0 <= picks[1..][i] < |rest| - i
        {
          assert picks[1..][i] == picks[i + 1];
        }
      }
      var tail := Sample(rest, picks[1..]);
      assert forall x :: x in tail ==> x in pool by {
        forall x | x in tail ensures x in pool {
          var i :| 0 <= i < |rest| && rest[i] == x;
        }
      }
      assert Distinct(pool) ==> Distinct([pool[j]] + tail) by {
        if Distinct(pool) {
          RemoveContents(pool, j);
          var r := [pool[j]] + tail;
          forall a, b | 0 <= a < b < |r|
            ensures r[a] != r[b]
          {
            assert r[b] == tail[b - 1] && r[b] in rest;
            if a > 0 { assert r[a] == tail[a - 1]; }
          }
        }
      }
      [pool[j]] + tail
  }

  /** Every ordered selection of distinct members of a duplicate-free pool
      is produced by some choice of indices: the model of the random source
      loses no outcome of `random.sample`. */
  lemma {:induction false} SampleReaches<T>(pool: seq<T>, target: seq<T>) returns (picks: seq<int>)
    requires Distinct(pool) && Distinct(target)
    requires forall x :: x in target ==> x in pool
    ensures ValidPicks(|pool|, picks) && Sample(pool, picks) == target
    decreases |target|
  {
    if target == [] {
      picks := [];
    } else {
      assert target[0] in pool;
      var j :| 0 <= j < |pool| && pool[j] == target[0];
      var rest := Remove(pool, j);
      RemoveContents(pool, j);
      var tail := target[1..];
      assert Distinct(tail);
      forall x | x in tail
        ensures x in rest
      {
        var i :| 0 <= i < |tail| && tail[i] == x;
        assert target[i + 1] == x;
      }
      var more := SampleReaches(rest, tail);
      picks := [j] + more;
      assert picks[1..] == more;
      assert ValidPicks(|pool|, picks) by {
        forall i | 0 <= i < |picks|
          ensures 0 <= picks[i] < |pool| - i
        {
          if i > 0 { assert picks[i] == more[i - 1]; }
        }
      }
      assert target == [target[0]] + tail;
    }
  }
}
