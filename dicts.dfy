/** Insertion-ordered dictionaries, as the engine's Python dicts behave: a key
    keeps the position where it was first inserted, assigning to an existing key
    replaces its value in place, and iteration follows `keys`. */
module Dicts {

  datatype Option<T> = None | Some(value: T)

  datatype OrderedMap<K, V> = OrderedMap(keys: seq<K>, vals: map<K, V>)

  ghost predicate Distinct<K>(s: seq<K>) {
    forall i, j :: 0 <= i < j < |s| ==> s[i] != s[j]
  }

  ghost predicate WellFormed<K(!new), V>(d: OrderedMap<K, V>) {
    Distinct(d.keys) && forall k :: k in d.vals <==> k in d.keys
  }

  /** A dictionary: its keys in insertion order, each once, and their values. */
  type Dict<K(!new), V> = d: OrderedMap<K, V> | WellFormed(d) witness OrderedMap([], map[])

  function Empty<K(!new), V>(): (r: Dict<K, V>)
    ensures r.keys == [] && r.vals == map[]
  {
    OrderedMap([], map[])
  }

  /** `d[k] = v`: a new key goes to the end, an existing key keeps its place. */
  function Put<K(!new), V>(d: Dict<K, V>, k: K, v: V): (r: Dict<K, V>)
    ensures r.vals == d.vals[k := v]
    ensures k in d.vals ==> r.keys == d.keys
    ensures k !in d.vals ==> r.keys == d.keys + [k]
  {
    if k in d.vals then OrderedMap(d.keys, d.vals[k := v])
    else OrderedMap(d.keys + [k], d.vals[k := v])
  }

  /** The sequence `s` with every occurrence of `x` taken out. */
  function Without<K(==,!new)>(s: seq<K>, x: K): (r: seq<K>)
    ensures x !in r
    ensures forall y :: y in r <==> y in s && y != x
    ensures Distinct(s) ==> Distinct(r)
  {
    if s == [] then []
    else if s[0] == x then Without(s[1..], x)
    else
      DistinctHead(s);
      [s[0]] + Without(s[1..], x)
  }

  /** In a sequence without repetitions the head is not in the tail, and the
      tail has no repetitions either. */
  lemma DistinctHead<K>(s: seq<K>)
    requires s != []
    ensures Distinct(s) ==> s[0] !in s[1..] && Distinct(s[1..])
  {
    if Distinct(s) {
      forall j | 0 <= j < |s| - 1 ensures s[1..][j] != s[0] {
        assert s[1..][j] == s[j + 1];
      }
    }
  }

  /** Walking a sequence without repetitions: the next element is new, and
      the prefix grows by it. */
  lemma DistinctNext<K>(s: seq<K>, i: int)
    requires Distinct(s) && 0 <= i < |s|
    ensures s[i] !in s[..i]
    ensures s[..i + 1] == s[..i] + [s[i]]
  {
  }

  lemma {:induction false} WithoutAbsent<K(!new)>(s: seq<K>, x: K)
    requires x !in s
    ensures Without(s, x) == s
  {
    if s != [] {
      WithoutAbsent(s[1..], x);
    }
  }

  /** Dropping the element at position `i` of a sequence without
      repetitions leaves the elements before and after it in their order. */
  lemma {:induction false} WithoutAt<K(!new)>(s: seq<K>, i: nat)
    requires Distinct(s) && i < |s|
    ensures Without(s, s[i]) == s[..i] + s[i + 1..]
  {
    DistinctHead(s);
    if i == 0 {
      WithoutAbsent(s[1..], s[0]);
    } else {
      assert s[1..][i - 1] == s[i];
      WithoutAt(s[1..], i - 1);
      assert s[1..][..i - 1] + s[1..][i..] == s[1..i] + s[i + 1..];
      assert [s[0]] + (s[1..i] + s[i + 1..]) == s[..i] + s[i + 1..];
    }
  }

  /** `del d[k]`. */
  function Remove<K(!new), V>(d: Dict<K, V>, k: K): (r: Dict<K, V>)
    ensures r.vals == d.vals - {k}
    ensures r.keys == Without(d.keys, k)
  {
    OrderedMap(Without(d.keys, k), d.vals - {k})
  }

  /** Deleting the first key of a dictionary drops the head of its key order. */
  lemma RemoveFirst<K(!new), V>(d: Dict<K, V>)
    requires d.keys != []
    ensures Remove(d, d.keys[0]).keys == d.keys[1..]
  {
    assert d.keys == [d.keys[0]] + d.keys[1..];
    DistinctHead(d.keys);
    WithoutAbsent(d.keys[1..], d.keys[0]);
  }

  /** Deleting the key at position `i` leaves the other keys in their
      order; deleting a missing key changes nothing. */
  lemma RemoveAt<K(!new), V>(d: Dict<K, V>, i: nat)
    requires i < |d.keys|
    ensures Remove(d, d.keys[i]).keys == d.keys[..i] + d.keys[i + 1..]
  {
    WithoutAt(d.keys, i);
  }

  lemma RemoveAbsent<K(!new), V>(d: Dict<K, V>, k: K)
    requires k !in d.vals
    ensures Remove(d, k) == d
  {
    WithoutAbsent(d.keys, k);
  }
}
