/** Removal by key, the `list.filter(x => x.id !== id)` the handlers apply to
    toasts, follow requests and posts, with the facts those handlers rely on. */
module Lists {

  /** The elements of `s` whose key differs from `k`, in their original order. */
  function Without<T, K(==)>(s: seq<T>, key: T -> K, k: K): (r: seq<T>)
    ensures |r| <= |s|
  {
    if s == [] then [] else (if key(s[0]) == k then [] else [s[0]]) + Without(s[1..], key, k)
  }

  predicate NoKey<T, K(==)>(s: seq<T>, key: T -> K, k: K) {
    forall i :: 0 <= i < |s| ==> key(s[i]) != k
  }

  /** Filtering distributes over concatenation: the kept elements stay in order. */
  lemma {:induction false} WithoutAppend<T, K>(a: seq<T>, b: seq<T>, key: T -> K, k: K)
    ensures Without(a + b, key, k) == Without(a, key, k) + Without(b, key, k)
  {
    if a == [] {
      assert a + b == b;
    } else {
      assert (a + b)[1..] == a[1..] + b;
      WithoutAppend(a[1..], b, key, k);
    }
  }

  /** No element with the removed key survives. */
  lemma {:induction false} WithoutRemovesKey<T, K>(s: seq<T>, key: T -> K, k: K)
    ensures NoKey(Without(s, key, k), key, k)
  {
    if s != [] {
      WithoutRemovesKey(s[1..], key, k);
    }
  }

  /** Every element with a different key survives (and nothing else does). */
  lemma {:induction false} WithoutKeeps<T, K>(s: seq<T>, key: T -> K, k: K, x: T)
    ensures x in Without(s, key, k) <==> x in s && key(x) != k
  {
    if s != [] {
      WithoutKeeps(s[1..], key, k, x);
      assert s == [s[0]] + s[1..];
    }
  }

  /** Removing a key that is absent changes nothing. */
  lemma {:induction false} WithoutAbsent<T, K>(s: seq<T>, key: T -> K, k: K)
    requires NoKey(s, key, k)
    ensures Without(s, key, k) == s
  {
    if s != [] {
      WithoutAbsent(s[1..], key, k);
    }
  }

  /** Removing the same key twice is removing it once. */
  lemma WithoutIdempotent<T, K>(s: seq<T>, key: T -> K, k: K)
    ensures Without(Without(s, key, k), key, k) == Without(s, key, k)
  {
    WithoutRemovesKey(s, key, k);
    WithoutAbsent(Without(s, key, k), key, k);
  }

  /** When the key belongs to the first element only, removal drops exactly that element. */
  lemma WithoutHead<T, K>(s: seq<T>, key: T -> K, k: K)
    requires s != [] && key(s[0]) == k && NoKey(s[1..], key, k)
    ensures Without(s, key, k) == s[1..]
  {
    WithoutAbsent(s[1..], key, k);
  }
}
