/**
 * Counting keys in an insertion-ordered table: the `acc[k] = (acc[k] || 0) + 1`
 * of a reduce into an object, and the `map.set(k, (map.get(k) || 0) + 1)` of a
 * JavaScript `Map` filled by `forEach`. Both keep their keys in the order of
 * first appearance, so a table is a sequence of (key, count) pairs.
 */
module Tally {
  /** How often `k` occurs in `keys`. */
  function Occurrences<K(==)>(keys: seq<K>, k: K): nat {
    if keys == [] then 0
    else Occurrences(keys[..|keys| - 1], k) + (if keys[|keys| - 1] == k then 1 else 0)
  }

  /** The keys of a table, in order. */
  function KeysOf<K>(t: seq<(K, nat)>): seq<K> {
    seq(|t|, i requires 0 <= i < |t| => t[i].0)
  }

  /** The sum of the counts of a table. */
  function SumCounts<K>(t: seq<(K, nat)>): nat {
    if t == [] then 0 else t[0].1 + SumCounts(t[1..])
  }

  /** No key appears twice. */
  predicate DistinctKeys<K(==)>(t: seq<(K, nat)>) {
    forall i, j :: 0 <= i < j < |t| ==> t[i].0 != t[j].0
  }

  /** The position of the first occurrence of `k` in `keys`. */
  function FirstIndex<K(==)>(keys: seq<K>, k: K): (r: int)
    requires k in keys
    ensures 0 <= r < |keys| && keys[r] == k && k !in keys[..r]
  {
    if keys[0] == k then 0 else 1 + FirstIndex(keys[1..], k)
  }

  /** One more occurrence of `k`: its count goes up in place, or it is added at the end with count 1. */
  function Bump<K(==)>(t: seq<(K, nat)>, k: K): seq<(K, nat)> {
    if t == [] then [(k, 1)]
    else if t[0].0 == k then [(k, t[0].1 + 1)] + t[1..]
    else [t[0]] + Bump(t[1..], k)
  }

  /** The table of `keys`, filled from left to right. */
  function Tally<K(==)>(keys: seq<K>): seq<(K, nat)> {
    if keys == [] then [] else Bump(Tally(keys[..|keys| - 1]), keys[|keys| - 1])
  }

  /** A bump keeps the keys, or adds `k` at the end when it is new; so keys stay distinct. */
  lemma {:induction false} BumpKeys<K>(t: seq<(K, nat)>, k: K)
    requires DistinctKeys(t)
    ensures var r := Bump(t, k);
      && DistinctKeys(r)
      && (k in KeysOf(t) ==> KeysOf(r) == KeysOf(t))
      && (k !in KeysOf(t) ==> KeysOf(r) == KeysOf(t) + [k])
  {
    if t == [] {
      assert KeysOf(Bump(t, k)) == [k];
    } else if t[0].0 == k {
      assert KeysOf(t)[0] == k;
      assert KeysOf(Bump(t, k)) == KeysOf(t);
    } else {
      var rest := Bump(t[1..], k);
      BumpKeys(t[1..], k);
      var r := Bump(t, k);
      assert r == [t[0]] + rest;
      assert KeysOf(t) == [t[0].0] + KeysOf(t[1..]);
      assert KeysOf(r) == [t[0].0] + KeysOf(rest);
      forall j | 0 < j < |r|
        ensures r[0].0 != r[j].0
      {
        assert KeysOf(rest)[j - 1] == r[j].0;
        assert KeysOf(t[1..]) == KeysOf(rest) || KeysOf(rest) == KeysOf(t[1..]) + [k];
      }
    }
  }

  /** A bump adds one to the sum of the counts. */
  lemma {:induction false} BumpSum<K>(t: seq<(K, nat)>, k: K)
    ensures SumCounts(Bump(t, k)) == SumCounts(t) + 1
  {
    if t != [] && t[0].0 != k {
      BumpSum(t[1..], k);
      assert Bump(t, k)[1..] == Bump(t[1..], k);
    } else if t != [] {
      assert Bump(t, k)[1..] == t[1..];
    }
  }

  /** A bump adds one to the count of `k` and leaves the other counts as they were. */
  lemma {:induction false} BumpCounts<K>(t: seq<(K, nat)>, k: K)
    requires DistinctKeys(t)
    ensures var r := Bump(t, k);
      && |t| <= |r| <= |t| + 1
      && forall i :: 0 <= i < |r| ==> r[i].1 == (if i < |t| then t[i].1 else 0) + (if r[i].0 == k then 1 else 0)
  {
    if t != [] && t[0].0 != k {
      BumpCounts(t[1..], k);
      var r := Bump(t, k);
      forall i | 0 < i < |r|
        ensures r[i].1 == (if i < |t| then t[i].1 else 0) + (if r[i].0 == k then 1 else 0)
      {
        assert r[i] == Bump(t[1..], k)[i - 1];
      }
    } else if t != [] {
      var r := Bump(t, k);
      forall i | 0 < i < |r|
        ensures r[i] == t[i] && r[i].0 != k
      {
      }
    }
  }

  /**
   * The tally of `keys`: one entry per distinct key, no key twice, in the order
   * in which the keys first appear; each count is the number of occurrences, so
   * the counts add up to the number of keys.
   */
  lemma {:induction false} TallyFacts<K>(keys: seq<K>)
    ensures var t := Tally(keys);
      && DistinctKeys(t)
      && SumCounts(t) == |keys|
      && (forall k :: k in KeysOf(t) <==> k in keys)
      && (forall i :: 0 <= i < |t| ==> t[i].1 == Occurrences(keys, t[i].0) && t[i].1 > 0)
      && (forall i, j :: 0 <= i < j < |t| ==>
            t[i].0 in keys && t[j].0 in keys && FirstIndex(keys, t[i].0) < FirstIndex(keys, t[j].0))
  {
    if keys != [] {
      var init, last := keys[..|keys| - 1], keys[|keys| - 1];
      assert keys == init + [last];
      TallyFacts(init);
      var t0 := Tally(init);
      BumpKeys(t0, last);
      BumpSum(t0, last);
      BumpCounts(t0, last);
      var t := Tally(keys);
      forall k
        ensures k in KeysOf(t) <==> k in keys
      {
        assert k in keys <==> k in init || k == last;
      }
      forall i | 0 <= i < |t|
        ensures t[i].1 == Occurrences(keys, t[i].0) && t[i].1 > 0
      {
        if i < |t0| {
          assert KeysOf(t)[i] == KeysOf(t0)[i];
        } else {
          assert KeysOf(t) == KeysOf(t0) + [last];
          assert KeysOf(t)[i] == last;
          assert last !in KeysOf(t0);
          assert Occurrences(init, last) == 0 by {
            OccurrencesAbsent(init, last);
          }
        }
      }
      forall i, j | 0 <= i < j < |t|
        ensures t[i].0 in keys && t[j].0 in keys && FirstIndex(keys, t[i].0) < FirstIndex(keys, t[j].0)
      {
        assert KeysOf(t)[i] == t[i].0 && KeysOf(t)[j] == t[j].0;
        assert t[i].0 in KeysOf(t0) by {
          assert KeysOf(t)[i] == KeysOf(t0)[i];
        }
        FirstIndexPrefix(init, last, t[i].0);
        if j < |t0| {
          assert KeysOf(t)[j] == KeysOf(t0)[j];
          FirstIndexPrefix(init, last, t[j].0);
        } else {
          assert KeysOf(t) == KeysOf(t0) + [last];
          assert t[j].0 == last && last !in init;
          assert FirstIndex(keys, last) == |init| by {
            FirstIndexAt(init, last);
          }
        }
      }
    }
  }

  /** A key that does not occur has no occurrences. */
  lemma {:induction false} OccurrencesAbsent<K>(keys: seq<K>, k: K)
    requires k !in keys
    ensures Occurrences(keys, k) == 0
  {
    if keys != [] {
      assert k !in keys[..|keys| - 1];
      OccurrencesAbsent(keys[..|keys| - 1], k);
    }
  }

  /** A key already present in the prefix keeps its first position when a key is appended. */
  lemma {:induction false} FirstIndexPrefix<K>(init: seq<K>, last: K, k: K)
    requires k in init
    ensures FirstIndex(init + [last], k) == FirstIndex(init, k)
  {
    if init[0] != k {
      assert (init + [last])[1..] == init[1..] + [last];
      FirstIndexPrefix(init[1..], last, k);
    }
  }

  /** A new key appended at the end first appears there. */
  lemma {:induction false} FirstIndexAt<K>(init: seq<K>, last: K)
    requires last !in init
    ensures FirstIndex(init + [last], last) == |init|
  {
    if init != [] {
      assert (init + [last])[1..] == init[1..] + [last];
      FirstIndexAt(init[1..], last);
    }
  }
}
