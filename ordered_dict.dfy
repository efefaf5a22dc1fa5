/**
 * Python dictionaries with string keys, which remember the order in which keys were first
 * inserted: a sequence of (key, value) entries. Assigning `d[k] = v` replaces the value of an
 * existing key where it stands and appends a new key at the end.
 */
module OrderedDict {
  import opened Wrappers

  type Dict<V> = seq<(string, V)>

  function Keys<V>(d: Dict<V>): seq<string> {
    seq(|d|, i requires 0 <= i < |d| => d[i].0)
  }

  predicate Distinct(ks: seq<string>) {
    forall i, j :: 0 <= i < j < |ks| ==> ks[i] != ks[j]
  }

  /** `d.get(k)`: the value stored under `k`, if any. */
  function Get<V>(d: Dict<V>, k: string): (r: Option<V>)
    ensures r.Some? <==> k in Keys(d)
  {
    if d == [] then None
    else
      assert Keys(d) == [d[0].0] + Keys(d[1..]);
      if d[0].0 == k then Some(d[0].1) else Get(d[1..], k)
  }

  /** In a dictionary with distinct keys, every entry is what its key looks up. */
  lemma {:induction false} GetAt<V>(d: Dict<V>, i: int)
    requires Distinct(Keys(d)) && 0 <= i < |d|
    ensures Get(d, d[i].0) == Some(d[i].1)
  {
    if i > 0 {
      assert Keys(d[1..]) == Keys(d)[1..];
      assert d[1..][i - 1] == d[i];
      assert Keys(d)[0] != Keys(d)[i];
      GetAt(d[1..], i - 1);
    }
  }

  /** Appending a new entry leaves the lookups of the earlier keys as they were. */
  lemma {:induction false} GetSnoc<V>(d: Dict<V>, k: string, v: V, j: string)
    ensures Get(d + [(k, v)], j) == if j in Keys(d) then Get(d, j) else if j == k then Some(v) else None
  {
    if d != [] {
      assert (d + [(k, v)])[1..] == d[1..] + [(k, v)];
      assert Keys(d) == [d[0].0] + Keys(d[1..]);
      GetSnoc(d[1..], k, v, j);
    }
  }

  /** `d[k] = v` on a dictionary value. */
  function Set<V>(d: Dict<V>, k: string, v: V): Dict<V> {
    if d == [] then [(k, v)]
    else if d[0].0 == k then [(k, v)] + d[1..]
    else [d[0]] + Set(d[1..], k, v)
  }

  /** An existing key keeps its place; a new key goes last. */
  lemma {:induction false} SetKeys<V>(d: Dict<V>, k: string, v: V)
    ensures Keys(Set(d, k, v)) == if k in Keys(d) then Keys(d) else Keys(d) + [k]
  {
    if d != [] {
      assert Keys(d) == [d[0].0] + Keys(d[1..]);
      if d[0].0 == k {
        assert Keys(Set(d, k, v)) == [k] + Keys(d[1..]);
      } else {
        SetKeys(d[1..], k, v);
        assert Keys(Set(d, k, v)) == [d[0].0] + Keys(Set(d[1..], k, v));
      }
    }
  }

  /** After `d[k] = v`, `k` looks up `v` and every other key what it looked up before. */
  lemma {:induction false} SetGet<V>(d: Dict<V>, k: string, v: V, j: string)
    ensures Get(Set(d, k, v), j) == if j == k then Some(v) else Get(d, j)
  {
    if d != [] && d[0].0 != k {
      SetGet(d[1..], k, v, j);
    }
  }

  /**
   * The loop `for key, value in kw.items(): d[key] = value`, as a function of the
   * dictionary it starts from and the entries of `kw` in order.
   */
  function Overlay<V>(d: Dict<V>, kw: Dict<V>): Dict<V>
    decreases |kw|
  {
    if kw == [] then d else Set(Overlay(d, kw[..|kw| - 1]), kw[|kw| - 1].0, kw[|kw| - 1].1)
  }

  /** A key given in `kw` looks up its `kw` value after the overlay; every other key is untouched. */
  lemma {:induction false} OverlayGet<V>(d: Dict<V>, kw: Dict<V>, j: string)
    requires Distinct(Keys(kw))
    ensures Get(Overlay(d, kw), j) == if j in Keys(kw) then Get(kw, j) else Get(d, j)
    decreases |kw|
  {
    if kw != [] {
      var n := |kw| - 1;
      var front := kw[..n];
      assert kw == front + [kw[n]];
      assert Keys(front) == Keys(kw)[..n];
      OverlayGet(d, front, j);
      SetGet(Overlay(d, front), kw[n].0, kw[n].1, j);
      GetSnoc(front, kw[n].0, kw[n].1, j);
      if j == kw[n].0 {
        assert j !in Keys(front) by {
          assert forall i :: 0 <= i < n ==> Keys(kw)[i] != Keys(kw)[n];
        }
      }
    }
  }

  /** The overlay keeps the keys of `d` in front, in their order. */
  lemma {:induction false} OverlayKeysPrefix<V>(d: Dict<V>, kw: Dict<V>)
    ensures Keys(d) <= Keys(Overlay(d, kw))
    decreases |kw|
  {
    if kw != [] {
      var n := |kw| - 1;
      OverlayKeysPrefix(d, kw[..n]);
      SetKeys(Overlay(d, kw[..n]), kw[n].0, kw[n].1);
    }
  }

  /** The keys of the overlay are those of `d` and those of `kw`. */
  lemma {:induction false} OverlayKeysIn<V>(d: Dict<V>, kw: Dict<V>, j: string)
    ensures j in Keys(Overlay(d, kw)) <==> j in Keys(d) || j in Keys(kw)
    decreases |kw|
  {
    if kw != [] {
      var n := |kw| - 1;
      OverlayKeysIn(d, kw[..n], j);
      SetKeys(Overlay(d, kw[..n]), kw[n].0, kw[n].1);
      assert Keys(kw) == Keys(kw[..n]) + [kw[n].0];
    }
  }

  /** The overlay of a dictionary with distinct keys has distinct keys. */
  lemma {:induction false} OverlayKeysDistinct<V>(d: Dict<V>, kw: Dict<V>)
    requires Distinct(Keys(d))
    ensures Distinct(Keys(Overlay(d, kw)))
    decreases |kw|
  {
    if kw != [] {
      var n := |kw| - 1;
      var mid := Overlay(d, kw[..n]);
      OverlayKeysDistinct(d, kw[..n]);
      SetKeys(mid, kw[n].0, kw[n].1);
    }
  }

  /** The plain mapping a dictionary stands for, forgetting the order of its keys. */
  function ToMap<V>(d: Dict<V>): map<string, V> {
    map k | k in Keys(d) :: Get(d, k).value
  }

  /** As a plain mapping, the overlay is the right-biased union `d + kw`. */
  lemma OverlayAsMap<V>(d: Dict<V>, kw: Dict<V>)
    requires Distinct(Keys(kw))
    ensures ToMap(Overlay(d, kw)) == ToMap(d) + ToMap(kw)
  {
    forall j ensures j in Keys(Overlay(d, kw)) <==> j in Keys(d) || j in Keys(kw) {
      OverlayKeysIn(d, kw, j);
    }
    forall j | j in Keys(Overlay(d, kw)) ensures ToMap(Overlay(d, kw))[j] == (ToMap(d) + ToMap(kw))[j] {
      OverlayGet(d, kw, j);
    }
  }
}
