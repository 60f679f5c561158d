/**
 * A JavaScript `Map` as a sequence of entries in insertion order. `set` on a
 * key that is present replaces its value where it stands; `set` on a new key
 * appends it; `delete` removes the entry and closes the gap, so a key that is
 * deleted and set again goes to the end. Iteration follows the sequence.
 */
module OrderedMaps {
  import opened Wrappers

  /** Keys are strings: the annotation ids. */
  datatype Entry<V> = Entry(key: string, value: V)

  function Keys<V>(m: seq<Entry<V>>): seq<string> {
    seq(|m|, i requires 0 <= i < |m| => m[i].key)
  }

  /** The values in iteration order: what `for (const [, v] of m)` visits. */
  function Values<V>(m: seq<Entry<V>>): seq<V> {
    seq(|m|, i requires 0 <= i < |m| => m[i].value)
  }

  /** No key occurs twice; every `Map` satisfies this. */
  predicate DistinctKeys<V>(m: seq<Entry<V>>) {
    forall i, j :: 0 <= i < j < |m| ==> m[i].key != m[j].key
  }

  /** The position of `k`, or -1 when it is absent. */
  function KeyIndex<V>(m: seq<Entry<V>>, k: string): (i: int)
    ensures -1 <= i < |m|
    ensures 0 <= i ==> m[i].key == k
    ensures 0 <= i ==> forall j :: 0 <= j < i ==> m[j].key != k
    ensures i == -1 ==> forall j :: 0 <= j < |m| ==> m[j].key != k
  {
    if m == [] then -1
    else if m[0].key == k then 0
    else
      var j := KeyIndex(m[1..], k);
      if j < 0 then -1 else j + 1
  }

  /** `m.has(k)`. */
  predicate Has<V>(m: seq<Entry<V>>, k: string) {
    KeyIndex(m, k) >= 0
  }

  /** `m.get(k)`, with `undefined` as `None`. */
  function Get<V>(m: seq<Entry<V>>, k: string): Option<V> {
    var i := KeyIndex(m, k);
    if i < 0 then None else Some(m[i].value)
  }

  /** Two entry sequences with the same keys, in the same order, find every key at the same place. */
  lemma SameKeysSameIndex<V>(m: seq<Entry<V>>, n: seq<Entry<V>>, k: string)
    requires |m| == |n| && forall i :: 0 <= i < |m| ==> m[i].key == n[i].key
    ensures KeyIndex(m, k) == KeyIndex(n, k)
  {
  }

  /** `m.set(k, v)`. */
  function Set<V>(m: seq<Entry<V>>, k: string, v: V): (r: seq<Entry<V>>)
    ensures Get(r, k) == Some(v)
    ensures forall k' :: k' != k ==> Get(r, k') == Get(m, k')
    ensures Has(m, k) ==> Keys(r) == Keys(m) && KeyIndex(r, k) == KeyIndex(m, k)
    ensures !Has(m, k) ==> Keys(r) == Keys(m) + [k]
    ensures DistinctKeys(m) ==> DistinctKeys(r)
  {
    var i := KeyIndex(m, k);
    if i < 0 then
      Append(m, k, v);
      m + [Entry(k, v)]
    else
      ReplaceAt(m, i, v);
      m[i := Entry(k, v)]
  }

  /** What appending an entry for an absent key does. */
  lemma Append<V>(m: seq<Entry<V>>, k: string, v: V)
    requires !Has(m, k)
    ensures var r := m + [Entry(k, v)];
      Get(r, k) == Some(v)
      && (forall k' :: k' != k ==> Get(r, k') == Get(m, k'))
      && Keys(r) == Keys(m) + [k]
      && (DistinctKeys(m) ==> DistinctKeys(r))
  {
    var r := m + [Entry(k, v)];
    assert forall j :: 0 <= j < |m| ==> r[j] == m[j];
    var i := KeyIndex(r, k);
    assert r[|m|].key == k;
    assert i == |m|;
    forall k' | k' != k ensures Get(r, k') == Get(m, k') {
      var a, b := KeyIndex(r, k'), KeyIndex(m, k');
      if a >= 0 { assert r[a] == m[a]; }
      if b >= 0 { assert r[b] == m[b]; }
    }
  }

  /** What replacing the value at the position of an existing key does. */
  lemma ReplaceAt<V>(m: seq<Entry<V>>, i: int, v: V)
    requires 0 <= i < |m| && KeyIndex(m, m[i].key) == i
    ensures var r := m[i := Entry(m[i].key, v)];
      Get(r, m[i].key) == Some(v)
      && (forall k' :: k' != m[i].key ==> Get(r, k') == Get(m, k'))
      && Keys(r) == Keys(m) && KeyIndex(r, m[i].key) == i
      && (DistinctKeys(m) ==> DistinctKeys(r))
  {
    var r := m[i := Entry(m[i].key, v)];
    assert Keys(r) == Keys(m);
    forall k' ensures KeyIndex(r, k') == KeyIndex(m, k') {
      SameKeysSameIndex(r, m, k');
    }
  }

  /** `keys` without `k`, the others in their order. */
  function Without(keys: seq<string>, k: string): (r: seq<string>)
    ensures k !in r
    ensures forall x :: x in r <==> x in keys && x != k
  {
    if keys == [] then []
    else if keys[0] == k then Without(keys[1..], k)
    else [keys[0]] + Without(keys[1..], k)
  }

  /** `m.delete(k)`. */
  function Delete<V>(m: seq<Entry<V>>, k: string): (r: seq<Entry<V>>)
    requires DistinctKeys(m)
    ensures DistinctKeys(r)
    ensures Get(r, k) == None
    ensures forall k' :: k' != k ==> Get(r, k') == Get(m, k')
    ensures Keys(r) == Without(Keys(m), k)
    ensures |r| == if Has(m, k) then |m| - 1 else |m|
  {
    var i := KeyIndex(m, k);
    if i < 0 then
      WithoutAbsent(Keys(m), k);
      m
    else
      RemoveAt(m, i);
      m[..i] + m[i + 1..]
  }

  /** What removing the entry at `i` does to a map's keys and lookups. */
  lemma RemoveAt<V>(m: seq<Entry<V>>, i: int)
    requires DistinctKeys(m) && 0 <= i < |m|
    ensures var r := m[..i] + m[i + 1..];
      DistinctKeys(r) && Get(r, m[i].key) == None
      && (forall k' :: k' != m[i].key ==> Get(r, k') == Get(m, k'))
      && Keys(r) == Without(Keys(m), m[i].key)
  {
    var k := m[i].key;
    var r := m[..i] + m[i + 1..];
    assert forall j :: 0 <= j < |r| ==> r[j] == if j < i then m[j] else m[j + 1];
    RemoveAtKeys(m, i);
    forall k' | k' != k ensures Get(r, k') == Get(m, k') {
      RemoveAtGet(m, i, k');
    }
  }

  lemma RemoveAtKeys<V>(m: seq<Entry<V>>, i: int)
    requires DistinctKeys(m) && 0 <= i < |m|
    ensures Keys(m[..i] + m[i + 1..]) == Without(Keys(m), m[i].key)
  {
    var ks := Keys(m);
    assert Keys(m[..i] + m[i + 1..]) == ks[..i] + ks[i + 1..];
    WithoutAt(ks, i);
  }

  /** Removing a key that occurs once, at `i`, from a key sequence. */
  lemma WithoutAt(ks: seq<string>, i: int)
    requires 0 <= i < |ks|
    requires forall j :: 0 <= j < |ks| && j != i ==> ks[j] != ks[i]
    ensures Without(ks, ks[i]) == ks[..i] + ks[i + 1..]
  {
    var k := ks[i];
    assert ks == ks[..i] + ([k] + ks[i + 1..]);
    assert k !in ks[..i];
    assert k !in ks[i + 1..];
    WithoutAbsent(ks[..i], k);
    WithoutAbsent(ks[i + 1..], k);
    WithoutConcat(ks[..i], [k] + ks[i + 1..], k);
    WithoutConcat([k], ks[i + 1..], k);
    assert Without([k], k) == [];
  }

  lemma RemoveAtGet<V>(m: seq<Entry<V>>, i: int, k': string)
    requires 0 <= i < |m| && k' != m[i].key
    ensures Get(m[..i] + m[i + 1..], k') == Get(m, k')
  {
    var r := m[..i] + m[i + 1..];
    var a, b := KeyIndex(r, k'), KeyIndex(m, k');
    if b >= 0 {
      if b < i { assert r[b] == m[b]; } else { assert r[b - 1] == m[b]; }
    }
    if a >= 0 {
      if a < i { assert r[a] == m[a]; } else { assert r[a] == m[a + 1]; }
    }
  }

  lemma {:induction false} WithoutAbsent(keys: seq<string>, k: string)
    requires k !in keys
    ensures Without(keys, k) == keys
  {
    if keys != [] {
      WithoutAbsent(keys[1..], k);
    }
  }

  lemma {:induction false} WithoutConcat(a: seq<string>, b: seq<string>, k: string)
    ensures Without(a + b, k) == Without(a, k) + Without(b, k)
  {
    if a == [] {
      assert a + b == b;
    } else {
      assert (a + b)[1..] == a[1..] + b;
      WithoutConcat(a[1..], b, k);
    }
  }

  /** An entry deleted and then set again is no longer where it was: it comes last. */
  lemma ReinsertedKeyGoesLast<V>(m: seq<Entry<V>>, k: string, v: V)
    requires DistinctKeys(m)
    ensures Keys(Set(Delete(m, k), k, v)) == Without(Keys(m), k) + [k]
  {
  }

  /**
   * Iterating the values visits, in insertion order, exactly what `get`
   * answers for each key.
   */
  lemma ValuesFollowKeys<V>(m: seq<Entry<V>>)
    requires DistinctKeys(m)
    ensures |Values(m)| == |Keys(m)|
    ensures forall i :: 0 <= i < |m| ==> Get(m, Keys(m)[i]) == Some(Values(m)[i])
  {
    forall i | 0 <= i < |m| ensures Get(m, Keys(m)[i]) == Some(Values(m)[i]) {
      var j := KeyIndex(m, m[i].key);
      assert j == i;
    }
  }
}
