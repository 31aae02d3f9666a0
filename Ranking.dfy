/**
  The document store's `order_by(field, DESCENDING).limit(n)` query over the
  documents of one collection, stated over document ids and a rank map that
  gives each id the value of the ordering field.
 */
module Ranking {
  import opened Common

  predicate AllRanked(ids: seq<string>, rank: map<string, int>) {
    forall i :: 0 <= i < |ids| ==> ids[i] in rank
  }

  /** `ids` are ordered by `rank`, largest first; ties may come in any order. */
  predicate SortedDesc(ids: seq<string>, rank: map<string, int>)
    requires AllRanked(ids, rank)
  {
    forall i, j :: 0 <= i < j < |ids| ==> rank[ids[i]] >= rank[ids[j]]
  }

  /**
    `picked` is what the query returns from the documents `pool`: distinct
    documents of the pool, largest rank first, exactly `limit` of them (or all
    of them when there are fewer), and no document left out ranks above one
    that was picked.
   */
  ghost predicate IsTopByRank(picked: seq<string>, pool: set<string>, rank: map<string, int>, limit: nat)
    requires pool <= rank.Keys
  {
    && Distinct(picked)
    && (forall i :: 0 <= i < |picked| ==> picked[i] in pool)
    && SortedDesc(picked, rank)
    && |picked| == Min(limit, |pool|)
    && (forall x, i :: x in pool && x !in picked && 0 <= i < |picked| ==> rank[x] <= rank[picked[i]])
  }

  /** Inserts `id` into the ordered `ids` before the first id it ranks at least as high as. */
  function InsertDesc(id: string, ids: seq<string>, rank: map<string, int>): (r: seq<string>)
    requires id in rank && AllRanked(ids, rank) && SortedDesc(ids, rank)
    ensures |r| == |ids| + 1
    ensures forall x :: x in r <==> x == id || x in ids
    ensures AllRanked(r, rank) && SortedDesc(r, rank)
    ensures Distinct(ids) && id !in ids ==> Distinct(r)
  {
    if ids == [] || rank[id] >= rank[ids[0]] then
      [id] + ids
    else
      var rest := InsertDesc(id, ids[1..], rank);
      InsertBelowHead(id, ids, rank, rest);
      [ids[0]] + rest
  }

  /** The step of `InsertDesc` that keeps the head of `ids` in front. */
  lemma InsertBelowHead(id: string, ids: seq<string>, rank: map<string, int>, rest: seq<string>)
    requires id in rank && AllRanked(ids, rank) && SortedDesc(ids, rank)
    requires ids != [] && rank[id] < rank[ids[0]]
    requires forall x :: x in rest <==> x == id || x in ids[1..]
    requires AllRanked(rest, rank) && SortedDesc(rest, rank)
    requires Distinct(ids) && id !in ids ==> Distinct(rest)
    ensures forall x :: x in [ids[0]] + rest <==> x == id || x in ids
    ensures AllRanked([ids[0]] + rest, rank) && SortedDesc([ids[0]] + rest, rank)
    ensures Distinct(ids) && id !in ids ==> Distinct([ids[0]] + rest)
  {
    var r := [ids[0]] + rest;
    assert forall x :: x in ids <==> x == ids[0] || x in ids[1..];
    forall x | x in rest ensures rank[x] <= rank[ids[0]] {
      if x != id {
        var k :| 0 <= k < |ids[1..]| && ids[1..][k] == x;
        assert ids[k + 1] == x;
      }
    }
    forall i, j | 0 <= i < j < |r| ensures rank[r[i]] >= rank[r[j]] {
      if i == 0 {
        assert r[j] == rest[j - 1];
      } else {
        assert r[i] == rest[i - 1] && r[j] == rest[j - 1];
      }
    }
    if Distinct(ids) && id !in ids {
      assert ids[0] !in ids[1..];
      forall i, j | 0 <= i < j < |r| ensures r[i] != r[j] {
        if i > 0 {
          assert r[i] == rest[i - 1] && r[j] == rest[j - 1];
        } else {
          assert r[j] in rest;
        }
      }
    }
  }

  /**
    Runs the query: orders every document of `pool` by rank, largest first,
    and keeps the first `limit`.
   */
  method TopByRank(pool: set<string>, rank: map<string, int>, limit: nat) returns (picked: seq<string>)
    requires pool <= rank.Keys
    ensures IsTopByRank(picked, pool, rank, limit)
  {
    var sorted: seq<string> := [];
    var rest := pool;
    while rest != {}
      invariant rest <= pool
      invariant forall x :: x in sorted <==> x in pool && x !in rest
      invariant AllRanked(sorted, rank) && SortedDesc(sorted, rank) && Distinct(sorted)
      invariant |sorted| + |rest| == |pool|
      decreases |rest|
    {
      var x :| x in rest;
      sorted := InsertDesc(x, sorted, rank);
      rest := rest - {x};
    }
    var n := Min(limit, |sorted|);
    picked := sorted[..n];
    forall x, i | x in pool && x !in picked && 0 <= i < |picked|
      ensures rank[x] <= rank[picked[i]]
    {
      var j :| 0 <= j < |sorted| && sorted[j] == x;
    }
  }
}
