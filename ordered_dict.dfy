/** A Python `dict`: a finite map whose iteration order is the order in
    which keys were first inserted. */
module OrderedDict {
  import opened Wrappers

  datatype RawDict<K, V> = RawDict(keys: seq<K>, entries: map<K, V>)

  predicate Distinct<K(==)>(s: seq<K>)
  {
    forall i, j :: 0 <= i < j < |s| ==> s[i] != s[j]
  }

  /** `keys` lists each key of `entries` exactly once, in iteration order. */
  type Dict<K(==,!new), V> = d: RawDict<K, V> | Distinct(d.keys) && (forall k :: k in d.entries <==> k in d.keys)
    witness RawDict([], map[])

  /** `d[k] = v` for a key already present: the order of keys is kept. */
  function Update<K(==,!new), V>(d: Dict<K, V>, k: K, v: V): (r: Dict<K, V>)
    requires k in d.entries
    ensures r.keys == d.keys
    ensures r.entries == d.entries[k := v]
  {
    RawDict(d.keys, d.entries[k := v])
  }

  /** The value stored under the `i`-th key in iteration order. */
  function At<K(==,!new), V>(d: Dict<K, V>, i: int): V
    requires 0 <= i < |d.keys|
  {
    d.entries[d.keys[i]]
  }

  /** The first position, in iteration order, whose value satisfies `p`:
      what `for k in d: if p(d[k]): ...; break` finds. */
  function FirstIndex<K(==,!new), V>(d: Dict<K, V>, p: V -> bool): (r: Option<nat>)
    ensures r.Some? ==> r.value < |d.keys| && p(At(d, r.value))
    ensures r.Some? ==> forall j :: 0 <= j < r.value ==> !p(At(d, j))
    ensures r.None? ==> forall j :: 0 <= j < |d.keys| ==> !p(At(d, j))
  {
    FirstIndexFrom(d, p, 0)
  }

  function FirstIndexFrom<K(==,!new), V>(d: Dict<K, V>, p: V -> bool, i: nat): (r: Option<nat>)
    requires i <= |d.keys|
    ensures r.Some? ==> i <= r.value < |d.keys| && p(At(d, r.value))
    ensures r.Some? ==> forall j :: i <= j < r.value ==> !p(At(d, j))
    ensures r.None? ==> forall j :: i <= j < |d.keys| ==> !p(At(d, j))
    decreases |d.keys| - i
  {
    if i == |d.keys| then None
    else if p(At(d, i)) then Some(i)
    else FirstIndexFrom(d, p, i + 1)
  }

  /** The first-match position is determined by the three facts above. */
  lemma FirstIndexUnique<K(!new), V>(d: Dict<K, V>, p: V -> bool, i: nat)
    requires i < |d.keys| && p(At(d, i))
    requires forall j :: 0 <= j < i ==> !p(At(d, j))
    ensures FirstIndex(d, p) == Some(i)
  {
  }
}
