/**
 * PHP's ordered arrays, as far as the orders controller relies on them: an
 * array is a sequence of key/value entries in insertion order whose keys are
 * pairwise distinct.  Reading `$a[$k]` is `Get`, writing `$a[$k] = $v` is
 * `Put` (overwrite in place, or append), and `array_merge` is `ArrayMerge`.
 */
module PhpArrays {
  import opened Wrappers

  type PhpArray<K, V> = seq<(K, V)>

  /** A PHP array key: an integer key or a (non-integer) string key. */
  datatype Key = IntKey(i: int) | StrKey(s: string)

  /** PHP arrays never hold the same key twice. */
  ghost predicate UniqueKeys<K, V>(a: PhpArray<K, V>) {
    forall i, j :: 0 <= i < j < |a| ==> a[i].0 != a[j].0
  }

  /** The keys of `a`, in iteration order. */
  function Keys<K, V>(a: PhpArray<K, V>): (ks: seq<K>)
    ensures |ks| == |a|
    ensures forall i :: 0 <= i < |a| ==> ks[i] == a[i].0
  {
    if a == [] then [] else [a[0].0] + Keys(a[1..])
  }

  /** `$a[$k]`: the value stored under `k`, or None (PHP's null) when absent. */
  function Get<K(==), V>(a: PhpArray<K, V>, k: K): (r: Option<V>)
    ensures r.None? <==> k !in Keys(a)
    ensures r.Some? ==> (k, r.value) in a
  {
    if a == [] then None
    else if a[0].0 == k then Some(a[0].1)
    else Get(a[1..], k)
  }

  /** `$a[$k] = $v`: overwrites the entry for `k` where it stands, or appends a new one. */
  function Put<K(==), V>(a: PhpArray<K, V>, k: K, v: V): PhpArray<K, V> {
    if a == [] then [(k, v)]
    else if a[0].0 == k then [(k, v)] + a[1..]
    else [a[0]] + Put(a[1..], k, v)
  }

  /** Reading `k` right after writing it yields the written value. */
  lemma {:induction false} PutGet<K, V>(a: PhpArray<K, V>, k: K, v: V)
    ensures Get(Put(a, k, v), k) == Some(v)
  {
    if a != [] && a[0].0 != k {
      PutGet(a[1..], k, v);
    }
  }

  /** Writing `k` keeps the key list when `k` is present and appends `k` otherwise. */
  lemma {:induction false} PutKeys<K, V>(a: PhpArray<K, V>, k: K, v: V)
    ensures Keys(Put(a, k, v)) == if k in Keys(a) then Keys(a) else Keys(a) + [k]
  {
    if a != [] && a[0].0 != k {
      PutKeys(a[1..], k, v);
      assert Keys(a) == [a[0].0] + Keys(a[1..]);
    }
  }

  /** Writing `k` leaves every other key's value as it was. */
  lemma {:induction false} PutGetOther<K, V>(a: PhpArray<K, V>, k: K, v: V, k': K)
    requires k' != k
    ensures Get(Put(a, k, v), k') == Get(a, k')
  {
    if a != [] && a[0].0 != k {
      PutGetOther(a[1..], k, v, k');
    }
  }

  /** Writing into an array keeps its keys distinct. */
  lemma {:induction false} PutKeepsUniqueKeys<K, V>(a: PhpArray<K, V>, k: K, v: V)
    requires UniqueKeys(a)
    ensures UniqueKeys(Put(a, k, v))
  {
    var r := Put(a, k, v);
    PutKeys(a, k, v);
    forall i, j | 0 <= i < j < |r| ensures r[i].0 != r[j].0 {
      assert Keys(r)[i] == r[i].0 && Keys(r)[j] == r[j].0;
      if j < |a| {
        assert Keys(a)[i] == a[i].0 && Keys(a)[j] == a[j].0;
      } else {
        assert Keys(r)[j] == k && k !in Keys(a);
        assert Keys(a)[i] == Keys(r)[i];
      }
    }
  }

  /** Writing a key the array does not hold appends it. */
  lemma {:induction false} PutAbsent<K, V>(a: PhpArray<K, V>, k: K, v: V)
    requires k !in Keys(a)
    ensures Put(a, k, v) == a + [(k, v)]
  {
    if a != [] {
      assert Keys(a) == [a[0].0] + Keys(a[1..]);
      PutAbsent(a[1..], k, v);
      assert a == [a[0]] + a[1..];
    }
  }

  /** In an array with distinct keys, reading the key of an entry yields that entry's value. */
  lemma {:induction false} GetAt<K, V>(a: PhpArray<K, V>, i: int)
    requires UniqueKeys(a)
    requires 0 <= i < |a|
    ensures Get(a, a[i].0) == Some(a[i].1)
  {
    if i > 0 {
      assert a[0].0 != a[i].0;
      GetAt(a[1..], i - 1);
    }
  }

  /** Appending an entry for another key leaves every read of `k` unchanged. */
  lemma {:induction false} GetAppendOther<K, V>(a: PhpArray<K, V>, e: (K, V), k: K)
    requires e.0 != k
    ensures Get(a + [e], k) == Get(a, k)
  {
    if a != [] {
      assert (a + [e])[1..] == a[1..] + [e];
      GetAppendOther(a[1..], e, k);
    }
  }

  /** Number of integer keys: `array_merge` renumbers them 0, 1, 2, ... */
  function IntKeyCount<V>(a: PhpArray<Key, V>): nat {
    if a == [] then 0 else (if a[0].0.IntKey? then 1 else 0) + IntKeyCount(a[1..])
  }

  /** One entry of `array_merge`: a string key is written (a later value wins, the
      first position is kept); an integer key is appended under the next index. */
  function MergeEntry<V>(acc: PhpArray<Key, V>, e: (Key, V)): PhpArray<Key, V> {
    match e.0
    case StrKey(_) => Put(acc, e.0, e.1)
    case IntKey(_) => acc + [(IntKey(IntKeyCount(acc)), e.1)]
  }

  function MergeAll<V>(acc: PhpArray<Key, V>, rest: PhpArray<Key, V>): PhpArray<Key, V>
    decreases |rest|
  {
    if rest == [] then acc else MergeAll(MergeEntry(acc, rest[0]), rest[1..])
  }

  /** `array_merge($first, $second)`. */
  function ArrayMerge<V>(first: PhpArray<Key, V>, second: PhpArray<Key, V>): PhpArray<Key, V> {
    MergeAll(MergeAll([], first), second)
  }

  lemma MergeEntryGet<V>(acc: PhpArray<Key, V>, e: (Key, V), s: string)
    ensures Get(MergeEntry(acc, e), StrKey(s)) ==
            if e.0 == StrKey(s) then Some(e.1) else Get(acc, StrKey(s))
  {
    if e.0.IntKey? {
      GetAppendOther(acc, (IntKey(IntKeyCount(acc)), e.1), StrKey(s));
    } else if e.0 != StrKey(s) {
      PutGetOther(acc, e.0, e.1, StrKey(s));
    } else {
      PutGet(acc, e.0, e.1);
    }
  }

  lemma {:induction false} MergeAllGet<V>(acc: PhpArray<Key, V>, rest: PhpArray<Key, V>, s: string)
    requires UniqueKeys(rest)
    ensures Get(MergeAll(acc, rest), StrKey(s)) ==
            if Get(rest, StrKey(s)).Some? then Get(rest, StrKey(s)) else Get(acc, StrKey(s))
    decreases |rest|
  {
    if rest != [] {
      var acc' := MergeEntry(acc, rest[0]);
      MergeEntryGet(acc, rest[0], s);
      MergeAllGet(acc', rest[1..], s);
      if rest[0].0 == StrKey(s) {
        assert StrKey(s) !in Keys(rest[1..]) by {
          forall i | 0 <= i < |rest[1..]| ensures Keys(rest[1..])[i] != StrKey(s) {
            assert rest[1..][i] == rest[i + 1];
          }
        }
      }
    }
  }

  /**
   * `array_merge($first, $second)` for a string key: the value from `second`
   * when it has the key, otherwise the value from `first`, otherwise absent.
   */
  lemma ArrayMergeGet<V>(first: PhpArray<Key, V>, second: PhpArray<Key, V>, s: string)
    requires UniqueKeys(first) && UniqueKeys(second)
    ensures Get(ArrayMerge(first, second), StrKey(s)) ==
            if Get(second, StrKey(s)).Some? then Get(second, StrKey(s)) else Get(first, StrKey(s))
  {
    MergeAllGet([], first, s);
    MergeAllGet(MergeAll([], first), second, s);
  }
}
