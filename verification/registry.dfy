/**
 * A keyed registry of liveness entries: at most one entry per key, each
 * stamped with the time it was last refreshed. Both populations of a
 * service store (local nodes, remote gateways) are registries.
 */
module Registry {

  /** Milliseconds an entry stays reachable after its last refresh. */
  const PING_TIMEOUT: nat := 5000

  datatype Entry<K, D> = Entry(key: K, data: D, lastSeen: nat)

  /** An entry is live until `PING_TIMEOUT` has passed since its last refresh. */
  predicate Alive<K, D>(e: Entry<K, D>, now: nat) {
    now < e.lastSeen + PING_TIMEOUT
  }

  ghost predicate Distinct<K, D>(xs: seq<Entry<K, D>>) {
    forall i, j :: 0 <= i < j < |xs| ==> xs[i].key != xs[j].key
  }

  ghost function Keys<K, D>(xs: seq<Entry<K, D>>): set<K> {
    set e | e in xs :: e.key
  }

  /**
   * A sequence is empty or has its first element among its members. Called
   * where the sequence is provably empty, so that no index is checked there.
   */
  lemma HeadOrEmpty<T>(xs: seq<T>)
    ensures xs == [] || xs[0] in xs
  {
  }

  /** Two different entries of a distinct registry have different keys. */
  lemma DistinctKeysDiffer<K, D>(xs: seq<Entry<K, D>>, a: Entry<K, D>, b: Entry<K, D>)
    requires Distinct(xs)
    requires a in xs && b in xs && a != b
    ensures a.key != b.key
  {
    var i :| 0 <= i < |xs| && xs[i] == a;
    var j :| 0 <= j < |xs| && xs[j] == b;
    assert i < j || j < i;
  }

  lemma DistinctCons<K, D>(x: Entry<K, D>, rest: seq<Entry<K, D>>)
    requires x.key !in Keys(rest)
    requires Distinct(rest)
    ensures Distinct([x] + rest)
  {
    var xs := [x] + rest;
    forall i, j | 0 <= i < j < |xs|
      ensures xs[i].key != xs[j].key
    {
      if i == 0 {
        assert xs[j] in rest;
      } else {
        assert xs[i] == rest[i - 1] && xs[j] == rest[j - 1];
      }
    }
  }

  lemma DistinctAppend<K, D>(xs: seq<Entry<K, D>>, x: Entry<K, D>)
    requires x.key !in Keys(xs)
    requires Distinct(xs)
    ensures Distinct(xs + [x])
  {
    var ys := xs + [x];
    forall i, j | 0 <= i < j < |ys|
      ensures ys[i].key != ys[j].key
    {
      if j == |xs| {
        assert ys[i] in xs;
      }
    }
  }

  /** The entries of `xs` that satisfy `keep`, in their original order. */
  function Filter<K(!new), D(!new)>(xs: seq<Entry<K, D>>, keep: Entry<K, D> -> bool): (r: seq<Entry<K, D>>)
    ensures forall x :: x in r <==> x in xs && keep(x)
    ensures Distinct(xs) ==> Distinct(r)
    decreases |xs|
  {
    if |xs| == 0 then []
    else
      var rest := Filter(xs[1..], keep);
      assert Distinct(xs) ==> Distinct(xs[1..]) by {
        if Distinct(xs) {
          forall i, j | 0 <= i < j < |xs[1..]|
            ensures xs[1..][i].key != xs[1..][j].key
          {
            assert xs[1..][i] == xs[i + 1] && xs[1..][j] == xs[j + 1];
          }
        }
      }
      if keep(xs[0]) then
        assert Distinct(xs) ==> Distinct([xs[0]] + rest) by {
          if Distinct(xs) {
            forall y | y in rest
              ensures y.key != xs[0].key
            {
              var j :| 0 <= j < |xs[1..]| && xs[1..][j] == y;
              assert xs[j + 1] == y;
            }
            DistinctCons(xs[0], rest);
          }
        }
        [xs[0]] + rest
      else rest
  }

  /** Deletes the entry for `k`, if there is one. */
  function Remove<K(==,!new), D(!new)>(xs: seq<Entry<K, D>>, k: K): (r: seq<Entry<K, D>>)
    ensures forall x :: x in r <==> x in xs && x.key != k
    ensures k !in Keys(r)
    ensures Keys(r) == Keys(xs) - {k}
    ensures Distinct(xs) ==> Distinct(r)
  {
    Filter(xs, (x: Entry<K, D>) => x.key != k)
  }

  /** Inserts `e`, replacing whatever entry had the same key. */
  function Upsert<K(==,!new), D(!new)>(xs: seq<Entry<K, D>>, e: Entry<K, D>): (r: seq<Entry<K, D>>)
    ensures forall x :: x in r <==> x == e || (x in xs && x.key != e.key)
    ensures Keys(r) == Keys(xs) + {e.key}
    ensures Distinct(xs) ==> Distinct(r)
  {
    var kept := Remove(xs, e.key);
    assert Distinct(xs) ==> Distinct(kept + [e]) by {
      if Distinct(xs) {
        DistinctAppend(kept, e);
      }
    }
    kept + [e]
  }

  /** Drops every entry that is no longer live at `now`. */
  function Expire<K(!new), D(!new)>(xs: seq<Entry<K, D>>, now: nat): (r: seq<Entry<K, D>>)
    ensures forall x :: x in r <==> x in xs && Alive(x, now)
    ensures Distinct(xs) ==> Distinct(r)
  {
    Filter(xs, (x: Entry<K, D>) => Alive(x, now))
  }
}
