/**
 * Python's `dict` and JavaScript's `Map`: an insertion-ordered dictionary, kept as
 * its entries in order. Assigning an existing key replaces the value in place and
 * keeps the key's position; a new key goes to the end.
 */
module Dicts {
  import opened Wrappers

  type Dict<K, V> = seq<(K, V)>

  function Keys<K, V>(d: Dict<K, V>): (ks: seq<K>)
    ensures |ks| == |d|
    ensures forall i :: 0 <= i < |d| ==> ks[i] == d[i].0
  {
    if |d| == 0 then [] else [d[0].0] + Keys(d[1..])
  }

  /** `d.values()` in order. */
  function Values<K, V>(d: Dict<K, V>): (vs: seq<V>)
    ensures |vs| == |d|
    ensures forall i :: 0 <= i < |d| ==> vs[i] == d[i].1
  {
    if |d| == 0 then [] else [d[0].1] + Values(d[1..])
  }

  predicate Distinct<T(==)>(s: seq<T>) {
    forall i, j :: 0 <= i < j < |s| ==> s[i] != s[j]
  }

  /** The keys of a non-empty dictionary: those of all entries but the last, then the last one's. */
  lemma KeysOfInit<K, V>(d: Dict<K, V>)
    requires |d| > 0
    ensures Keys(d) == Keys(d[..|d| - 1]) + [d[|d| - 1].0]
  {
    var init := d[..|d| - 1];
    var ks := Keys(init) + [d[|d| - 1].0];
    forall i | 0 <= i < |d|
      ensures Keys(d)[i] == ks[i]
    {
      if i < |d| - 1 {
        assert ks[i] == Keys(init)[i] == init[i].0;
      }
    }
  }

  /** `d.get(k)`: the value stored under `k`, or None when `k` is absent. */
  function Get<K(==), V>(d: Dict<K, V>, k: K): (r: Option<V>)
    ensures r.None? <==> k !in Keys(d)
    ensures r.Some? ==> (k, r.value) in d
  {
    if |d| == 0 then None
    else if d[0].0 == k then Some(d[0].1)
    else Get(d[1..], k)
  }

  /** `d[k] = v`. */
  function Put<K(==), V>(d: Dict<K, V>, k: K, v: V): Dict<K, V> {
    if |d| == 0 then [(k, v)]
    else if d[0].0 == k then [(k, v)] + d[1..]
    else [d[0]] + Put(d[1..], k, v)
  }

  /** After `d[k] = v`, `k` maps to `v` and every other key to what it mapped to before. */
  lemma {:induction false} PutGet<K, V>(d: Dict<K, V>, k: K, v: V, k': K)
    ensures Get(Put(d, k, v), k') == if k' == k then Some(v) else Get(d, k')
  {
    if |d| > 0 {
      if d[0].0 == k {
        assert Put(d, k, v)[1..] == d[1..];
      } else {
        assert Put(d, k, v)[1..] == Put(d[1..], k, v);
        PutGet(d[1..], k, v, k');
      }
    }
  }

  /** `d[k] = v` keeps the keys in place and appends `k` when it is new. */
  lemma {:induction false} PutKeys<K, V>(d: Dict<K, V>, k: K, v: V)
    ensures Keys(Put(d, k, v)) == if k in Keys(d) then Keys(d) else Keys(d) + [k]
  {
    if |d| > 0 {
      if d[0].0 == k {
        assert Put(d, k, v)[1..] == d[1..];
      } else {
        assert Put(d, k, v)[1..] == Put(d[1..], k, v);
        PutKeys(d[1..], k, v);
        assert Keys(d) == [d[0].0] + Keys(d[1..]);
      }
    }
  }

  /** Assigning a key keeps the keys of a dictionary distinct. */
  lemma PutKeepsKeysDistinct<K, V>(d: Dict<K, V>, k: K, v: V)
    requires Distinct(Keys(d))
    ensures Distinct(Keys(Put(d, k, v)))
  {
    PutKeys(d, k, v);
    var ks := Keys(d);
    if k !in ks {
      var ks' := ks + [k];
      forall i, j | 0 <= i < j < |ks'|
        ensures ks'[i] != ks'[j]
      {
        assert ks'[i] == ks[i];
        if j < |ks| {
          assert ks'[j] == ks[j];
        } else {
          assert ks'[j] == k;
        }
      }
    }
  }

  /** `del d[k]` when `k` is present; no change otherwise. */
  function Remove<K(==), V>(d: Dict<K, V>, k: K): Dict<K, V> {
    if |d| == 0 then []
    else if d[0].0 == k then Remove(d[1..], k)
    else [d[0]] + Remove(d[1..], k)
  }

  /** After `del d[k]`, `k` is absent and every other key maps to what it mapped to before. */
  lemma {:induction false} RemoveGet<K, V>(d: Dict<K, V>, k: K, k': K)
    ensures Get(Remove(d, k), k') == if k' == k then None else Get(d, k')
  {
    if |d| > 0 {
      RemoveGet(d[1..], k, k');
      if d[0].0 != k {
        assert Remove(d, k)[1..] == Remove(d[1..], k);
      }
    }
  }

  /** Removing an absent key changes nothing. */
  lemma {:induction false} RemoveAbsent<K, V>(d: Dict<K, V>, k: K)
    requires k !in Keys(d)
    ensures Remove(d, k) == d
  {
    if |d| > 0 {
      assert Keys(d)[1..] == Keys(d[1..]);
      RemoveAbsent(d[1..], k);
    }
  }

  /** Assigning a key the value it already has changes nothing. */
  lemma {:induction false} PutExisting<K, V>(d: Dict<K, V>, k: K, v: V)
    requires Get(d, k) == Some(v)
    ensures Put(d, k, v) == d
  {
    if d[0].0 != k {
      PutExisting(d[1..], k, v);
    }
    assert [d[0]] + d[1..] == d;
  }

  /** Looking a key up after appending an entry: earlier entries win. */
  lemma {:induction false} GetSnoc<K, V>(d: Dict<K, V>, k': K, v: V, k: K)
    ensures Get(d + [(k', v)], k) == if k in Keys(d) then Get(d, k) else if k == k' then Some(v) else None
  {
    if |d| > 0 {
      assert (d + [(k', v)])[1..] == d[1..] + [(k', v)];
      assert Keys(d) == [d[0].0] + Keys(d[1..]);
      GetSnoc(d[1..], k', v, k);
    }
  }

  /** Removing a key keeps the keys of a dictionary distinct. */
  lemma {:induction false} RemoveKeepsKeysDistinct<K, V>(d: Dict<K, V>, k: K)
    requires Distinct(Keys(d))
    ensures Distinct(Keys(Remove(d, k)))
  {
    if |d| > 0 {
      assert Keys(d[1..]) == Keys(d)[1..];
      RemoveKeepsKeysDistinct(d[1..], k);
      if d[0].0 != k {
        var rest := Remove(d[1..], k);
        assert d[0].0 !in Keys(rest) by {
          RemoveGet(d[1..], k, d[0].0);
        }
        assert Keys([d[0]] + rest) == [d[0].0] + Keys(rest);
      }
    }
  }

  /** `{**d, **e}`: the entries of `e` assigned over `d`, in order. */
  function Merge<K(==), V>(d: Dict<K, V>, e: Dict<K, V>): Dict<K, V> {
    if |e| == 0 then d else Put(Merge(d, e[..|e| - 1]), e[|e| - 1].0, e[|e| - 1].1)
  }

  /** In `{**d, **e}` a key of `e` takes its value from `e`, any other key from `d`. */
  lemma {:induction false} MergeGet<K, V>(d: Dict<K, V>, e: Dict<K, V>, k: K)
    requires Distinct(Keys(e))
    ensures Get(Merge(d, e), k) == if k in Keys(e) then Get(e, k) else Get(d, k)
  {
    if |e| > 0 {
      var n := |e| - 1;
      var init := e[..n];
      assert e == init + [(e[n].0, e[n].1)];
      assert Keys(e) == Keys(init) + [e[n].0];
      assert Keys(init) == Keys(e)[..n];
      MergeGet(d, init, k);
      PutGet(Merge(d, init), e[n].0, e[n].1, k);
      GetSnoc(init, e[n].0, e[n].1, k);
    }
  }
}
