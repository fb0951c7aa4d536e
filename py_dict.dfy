/** A Python `dict` as the program uses it: a sequence of (key, value)
    bindings kept in insertion order. Assigning to a key that is already
    bound replaces its value where it stands; assigning to a new key
    appends a binding at the end. */
module PyDict {
  import opened Wrappers

  /** Every dict of the program is keyed by strings. */
  type Dict<V> = seq<(string, V)>

  /** The keys of `d`, in iteration order (`list(d.keys())`). */
  function Keys<V>(d: Dict<V>): (ks: seq<string>)
    ensures |ks| == |d|
    ensures forall i | 0 <= i < |d| :: ks[i] == d[i].0
  {
    seq(|d|, i requires 0 <= i < |d| => d[i].0)
  }

  /** No key occurs twice: every real dict satisfies this. */
  predicate Distinct(ks: seq<string>) {
    forall i, j | 0 <= i < j < |ks| :: ks[i] != ks[j]
  }

  /** The position of the binding of `k`, if any. */
  function Find<V>(d: Dict<V>, k: string): (r: Option<nat>)
    ensures r.Some? ==> r.value < |d| && d[r.value].0 == k
    ensures r.None? <==> k !in Keys(d)
  {
    if d == [] then None
    else if d[0].0 == k then Some(0)
    else match Find(d[1..], k)
      case None => None
      case Some(j) => Some(j + 1)
  }

  /** `d[k]` when `k` is bound, None where Python raises KeyError. */
  function Lookup<V>(d: Dict<V>, k: string): (r: Option<V>)
    ensures r.None? <==> k !in Keys(d)
  {
    match Find(d, k)
    case None => None
    case Some(j) => Some(d[j].1)
  }

  /** `d.get(k, default)`. */
  function Get<V>(d: Dict<V>, k: string, default: V): (r: V)
    ensures k !in Keys(d) ==> r == default
    ensures k in Keys(d) ==> Lookup(d, k) == Some(r)
  {
    Lookup(d, k).GetOr(default)
  }

  /** `d[k] = v`: an existing binding keeps its place, a new key goes last. */
  function Put<V>(d: Dict<V>, k: string, v: V): Dict<V> {
    match Find(d, k)
    case None => d + [(k, v)]
    case Some(j) => d[j := (k, v)]
  }

  /** After `d[k] = v` the key order is unchanged when `k` was bound and has
      `k` last otherwise, `k` maps to `v`, every other key is as it was,
      and no key is bound twice if none was before. */
  lemma PutSpec<V>(d: Dict<V>, k: string, v: V)
    ensures Keys(Put(d, k, v)) == if k in Keys(d) then Keys(d) else Keys(d) + [k]
    ensures Lookup(Put(d, k, v), k) == Some(v)
    ensures forall k' | k' != k :: Lookup(Put(d, k, v), k') == Lookup(d, k')
    ensures Distinct(Keys(d)) ==> Distinct(Keys(Put(d, k, v)))
  {
    match Find(d, k)
    case None => PutNew(d, k, v);
    case Some(j) => PutBound(d, j, k, v);
  }

  /** Binding a new key appends it. */
  lemma PutNew<V>(d: Dict<V>, k: string, v: V)
    requires k !in Keys(d)
    ensures Keys(d + [(k, v)]) == Keys(d) + [k]
    ensures Lookup(d + [(k, v)], k) == Some(v)
    ensures forall k' | k' != k :: Lookup(d + [(k, v)], k') == Lookup(d, k')
    ensures Distinct(Keys(d)) ==> Distinct(Keys(d + [(k, v)]))
  {
    forall k' ensures Lookup(d + [(k, v)], k') ==
      if k' in Keys(d) then Lookup(d, k') else if k' == k then Some(v) else None
    {
      LookupAppend(d, k, v, k');
    }
  }

  /** Rebinding the key found at `j` keeps every key where it was. */
  lemma PutBound<V>(d: Dict<V>, j: nat, k: string, v: V)
    requires Find(d, k) == Some(j)
    ensures Keys(d[j := (k, v)]) == Keys(d)
    ensures Lookup(d[j := (k, v)], k) == Some(v)
    ensures forall k' | k' != k :: Lookup(d[j := (k, v)], k') == Lookup(d, k')
  {
    var d' := d[j := (k, v)];
    assert Keys(d') == Keys(d);
    forall k' ensures Find(d', k') == Find(d, k') {
      FindByKeys(d', d, k');
    }
  }

  /** Dicts with the same keys in the same order find every key at the same place. */
  lemma {:induction false} FindByKeys<V, W>(d: Dict<V>, e: Dict<W>, k: string)
    requires Keys(d) == Keys(e)
    ensures Find(d, k) == Find(e, k)
  {
    if d != [] {
      assert d[0].0 == Keys(d)[0] == Keys(e)[0] == e[0].0;
      assert Keys(d[1..]) == Keys(d)[1..] == Keys(e)[1..] == Keys(e[1..]);
      FindByKeys(d[1..], e[1..], k);
    }
  }

  /** Looking a key up after a binding is appended at the end. */
  lemma {:induction false} LookupAppend<V>(d: Dict<V>, k: string, v: V, k': string)
    ensures Lookup(d + [(k, v)], k') ==
      if k' in Keys(d) then Lookup(d, k') else if k' == k then Some(v) else None
  {
    if d != [] {
      var d' := d + [(k, v)];
      assert d'[0] == d[0];
      assert Keys(d)[0] == d[0].0;
      if d[0].0 != k' {
        assert d'[1..] == d[1..] + [(k, v)];
        assert Keys(d) == [d[0].0] + Keys(d[1..]);
        LookupAppend(d[1..], k, v, k');
      }
    }
  }
}
