/** Ranking of the merged pools: `sort((a, b) => b.poolMaxAPR - a.poolMaxAPR)`
    followed by `filter((item, index) => index < 20)`. */
module Ranking {
  import opened Pools

  /** How many pools the data route returns at most. */
  const TopCount: nat := 20

  predicate SortedByAprDesc(s: seq<Pool>) {
    forall i, j :: 0 <= i < j < |s| ==> s[i].poolMaxApr >= s[j].poolMaxApr
  }

  /** Putting a pool at least as good as every other in front keeps the order. */
  lemma ConsSorted(x: Pool, s: seq<Pool>)
    requires SortedByAprDesc(s)
    requires forall y :: y in s ==> y.poolMaxApr <= x.poolMaxApr
    ensures SortedByAprDesc([x] + s)
  {
    forall i, j | 0 <= i < j < |[x] + s| ensures ([x] + s)[i].poolMaxApr >= ([x] + s)[j].poolMaxApr {
      if i > 0 {
        assert ([x] + s)[i] == s[i - 1];
      }
      assert ([x] + s)[j] == s[j - 1];
    }
  }

  /** Places `p` after every pool whose APR is at least as high, so pools with
      equal APR keep their input order, as the stable `Array.prototype.sort` does. */
  function Insert(p: Pool, s: seq<Pool>): (r: seq<Pool>)
    requires SortedByAprDesc(s)
    ensures SortedByAprDesc(r)
    ensures forall y :: y in r ==> y in s || y == p
    ensures multiset(r) == multiset(s) + multiset{p}
  {
    if |s| == 0 then [p]
    else if s[0].poolMaxApr >= p.poolMaxApr then
      var rest := Insert(p, s[1..]);
      assert s == [s[0]] + s[1..];
      ConsSorted(s[0], rest);
      [s[0]] + rest
    else
      assert s == [s[0]] + s[1..];
      ConsSorted(p, s);
      [p] + s
  }

  /** The descending sort by APR. */
  function SortByApr(s: seq<Pool>): (r: seq<Pool>)
    ensures SortedByAprDesc(r)
    ensures multiset(r) == multiset(s)
  {
    if |s| == 0 then []
    else
      assert s == s[..|s| - 1] + [s[|s| - 1]];
      Insert(s[|s| - 1], SortByApr(s[..|s| - 1]))
  }

  function Min(a: nat, b: nat): nat {
    if a < b then a else b
  }

  /** Splitting a sorted list: everything before the cut is at least as good as
      everything after it. */
  lemma CutKeepsBest(sorted: seq<Pool>, k: nat)
    requires SortedByAprDesc(sorted) && k <= |sorted|
    ensures forall p, q :: p in multiset(sorted) - multiset(sorted[..k]) && q in sorted[..k] ==>
              q.poolMaxApr >= p.poolMaxApr
  {
    assert sorted == sorted[..k] + sorted[k..];
    assert multiset(sorted) - multiset(sorted[..k]) == multiset(sorted[k..]);
    forall p, q | p in multiset(sorted[k..]) && q in sorted[..k] ensures q.poolMaxApr >= p.poolMaxApr {
      var j :| 0 <= j < |sorted[k..]| && sorted[k..][j] == p;
      var i :| 0 <= i < k && sorted[..k][i] == q;
      assert sorted[k + j] == p && sorted[i] == q;
    }
  }

  /** The ranked list: the `TopCount` highest-APR pools, best first. Every pool
      cut off has an APR no higher than any pool kept. */
  function Rank(pools: seq<Pool>): (r: seq<Pool>)
    ensures SortedByAprDesc(r)
    ensures |r| == Min(TopCount, |pools|)
    ensures multiset(r) <= multiset(pools)
    ensures forall p, q :: p in multiset(pools) - multiset(r) && q in r ==> q.poolMaxApr >= p.poolMaxApr
  {
    var sorted := SortByApr(pools);
    assert |sorted| == |pools| by {
      assert |multiset(sorted)| == |multiset(pools)|;
    }
    var k := Min(TopCount, |sorted|);
    CutKeepsBest(sorted, k);
    assert sorted == sorted[..k] + sorted[k..];
    sorted[..k]
  }
}
