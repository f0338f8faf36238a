/**
 * Sequence facts shared by the three providers. Each list the client keeps
 * is keyed (conversations and messages by `_id`, users by the id itself), and
 * the updaters filter by key, test key membership or rely on keys being
 * distinct. Keys are passed as named functions so that every use of an
 * operation denotes the same mathematical object.
 */
module Seqs {

  /** Does some element of `s` have key `k` (the source's `some`/`includes`)? */
  predicate HasKey<T, K(==)>(key: T -> K, s: seq<T>, k: K)
  {
    exists i :: 0 <= i < |s| && key(s[i]) == k
  }

  /** No two elements of `s` share a key. */
  predicate UniqueKeys<T, K(==)>(key: T -> K, s: seq<T>)
  {
    forall i, j :: 0 <= i < j < |s| ==> key(s[i]) != key(s[j])
  }

  /** `a` is `b` with some elements dropped, the rest in their original order. */
  predicate IsSubsequence<T(==)>(a: seq<T>, b: seq<T>)
    decreases |b|
  {
    if a == [] then true
    else if b == [] then false
    else if a[0] == b[0] then IsSubsequence(a[1..], b[1..])
    else IsSubsequence(a, b[1..])
  }

  /**
   * The list filter that keeps the elements whose key differs from `k`:
   * every element with key `k` is dropped, every other one is kept as often
   * as it occurs.
   */
  function WithoutKey<T(==), K(==)>(key: T -> K, s: seq<T>, k: K): (r: seq<T>)
    ensures |r| <= |s|
    ensures forall i :: 0 <= i < |r| ==> r[i] in s && key(r[i]) != k
    ensures forall i :: 0 <= i < |s| && key(s[i]) != k ==> s[i] in r
    ensures !HasKey(key, r, k)
  {
    if s == [] then []
    else if key(s[0]) == k then WithoutKey(key, s[1..], k)
    else [s[0]] + WithoutKey(key, s[1..], k)
  }

  /** The filter keeps each element with another key exactly as often as it occurs. */
  lemma {:induction false} WithoutKeyCounts<T, K>(key: T -> K, s: seq<T>, k: K, x: T)
    ensures multiset(WithoutKey(key, s, k))[x] == if key(x) == k then 0 else multiset(s)[x]
  {
    if s != [] {
      assert s == [s[0]] + s[1..];
      WithoutKeyCounts(key, s[1..], k, x);
    }
  }

  /** The survivors of the filter keep their relative order. */
  lemma {:induction false} WithoutKeyIsSubsequence<T, K>(key: T -> K, s: seq<T>, k: K)
    ensures IsSubsequence(WithoutKey(key, s, k), s)
  {
    if s != [] {
      WithoutKeyIsSubsequence(key, s[1..], k);
      if key(s[0]) == k {
        SubsequenceOfTail(WithoutKey(key, s[1..], k), s);
      }
    }
  }

  /** A subsequence of the tail is a subsequence of the whole. */
  lemma {:induction false} SubsequenceOfTail<T>(a: seq<T>, b: seq<T>)
    requires b != []
    requires IsSubsequence(a, b[1..])
    ensures IsSubsequence(a, b)
    decreases |b|, |a|
  {
    if a != [] && a[0] == b[0] {
      // b[1..] holds a, so b[1..] also holds a[1..] after a[0]'s match
      SubsequenceDropHead(a, b[1..]);
    }
  }

  /** Dropping the first element keeps a subsequence a subsequence. */
  lemma {:induction false} SubsequenceDropHead<T>(a: seq<T>, b: seq<T>)
    requires a != []
    requires IsSubsequence(a, b)
    ensures IsSubsequence(a[1..], b)
    decreases |b|, |a|
  {
    assert b != [];
    if a[0] == b[0] {
      if a[1..] != [] {
        SubsequenceOfTail(a[1..], b);
      }
    } else {
      SubsequenceDropHead(a, b[1..]);
      if a[1..] != [] {
        SubsequenceOfTail(a[1..], b);
      }
    }
  }

  /** The filter changes nothing exactly when no element has key `k`. */
  lemma {:induction false} WithoutKeyUnchanged<T, K>(key: T -> K, s: seq<T>, k: K)
    ensures WithoutKey(key, s, k) == s <==> !HasKey(key, s, k)
  {
    if s != [] {
      WithoutKeyUnchanged(key, s[1..], k);
      if key(s[0]) == k {
        assert |WithoutKey(key, s, k)| < |s| by { assert |WithoutKey(key, s[1..], k)| <= |s[1..]|; }
      } else if !HasKey(key, s, k) {
        assert !HasKey(key, s[1..], k) by {
          forall i | 0 <= i < |s[1..]| ensures key(s[1..][i]) != k { assert s[1..][i] == s[i + 1]; }
        }
      } else {
        var i :| 0 <= i < |s| && key(s[i]) == k;
        assert s[1..][i - 1] == s[i];
      }
    }
  }

  /** The filter distributes over concatenation. */
  lemma {:induction false} WithoutKeyConcat<T, K>(key: T -> K, a: seq<T>, b: seq<T>, k: K)
    ensures WithoutKey(key, a + b, k) == WithoutKey(key, a, k) + WithoutKey(key, b, k)
  {
    if a != [] {
      assert (a + b)[1..] == a[1..] + b;
      WithoutKeyConcat(key, a[1..], b, k);
    } else {
      assert a + b == b;
    }
  }

  /** Filtering twice by the same key is filtering once. */
  lemma WithoutKeyIdempotent<T, K>(key: T -> K, s: seq<T>, k: K)
    ensures WithoutKey(key, WithoutKey(key, s, k), k) == WithoutKey(key, s, k)
  {
  }

  /** Filtering keeps keys distinct. */
  lemma {:induction false} WithoutKeyKeepsUnique<T, K>(key: T -> K, s: seq<T>, k: K)
    ensures UniqueKeys(key, s) ==> UniqueKeys(key, WithoutKey(key, s, k))
  {
    if s != [] && UniqueKeys(key, s) {
      assert UniqueKeys(key, s[1..]) by {
        forall i, j | 0 <= i < j < |s[1..]| ensures key(s[1..][i]) != key(s[1..][j]) {
          assert s[1..][i] == s[i + 1] && s[1..][j] == s[j + 1];
        }
      }
      WithoutKeyKeepsUnique(key, s[1..], k);
      if key(s[0]) != k {
        var rest := WithoutKey(key, s[1..], k);
        assert !HasKey(key, rest, key(s[0])) by {
          forall i | 0 <= i < |rest| ensures key(rest[i]) != key(s[0]) {
            assert rest[i] in s[1..];
            var j :| 0 <= j < |s[1..]| && s[1..][j] == rest[i];
            assert s[j + 1] == rest[i];
          }
        }
        forall i, j | 0 <= i < j < |[s[0]] + rest| ensures key(([s[0]] + rest)[i]) != key(([s[0]] + rest)[j]) {
          if i == 0 {
            assert ([s[0]] + rest)[j] == rest[j - 1];
          } else {
            assert ([s[0]] + rest)[i] == rest[i - 1] && ([s[0]] + rest)[j] == rest[j - 1];
          }
        }
      }
    }
  }
}
