/** Ordered sequences and ordered key/value tables.
    An insertion-ordered map (the program's IndexMap, or a TOML table) is a
    sequence of (key, value) pairs; `UniqueKeys` is its key invariant. */
module Tables {
  import opened Results

  /** `a` can be obtained from `b` by deleting elements: same order, nothing new. */
  ghost predicate IsSubsequence<T>(a: seq<T>, b: seq<T>)
    decreases |b|
  {
    a == [] ||
    (|a| <= |b| && ((a[0] == b[0] && IsSubsequence(a[1..], b[1..])) || IsSubsequence(a, b[1..])))
  }

  lemma {:induction false} SubsequenceOfItself<T>(s: seq<T>)
    ensures IsSubsequence(s, s)
  {
    if s != [] {
      SubsequenceOfItself(s[1..]);
    }
  }

  /** The elements of `s` that satisfy `p`, in their original order. */
  function Filter<T>(s: seq<T>, p: T -> bool): (r: seq<T>)
    ensures |r| <= |s|
    ensures forall i :: 0 <= i < |r| ==> r[i] in s && p(r[i])
    ensures forall i :: 0 <= i < |s| && p(s[i]) ==> s[i] in r
    ensures IsSubsequence(r, s)
  {
    if s == [] then []
    else
      var rest := Filter(s[1..], p);
      assert s == [s[0]] + s[1..];
      assert forall i :: 1 <= i < |s| ==> s[i] == s[1..][i - 1];
      assert forall x :: x in s[1..] ==> x in s;
      if p(s[0]) then
        assert ([s[0]] + rest)[1..] == rest;
        [s[0]] + rest
      else rest
  }

  /** Filtering keeps every occurrence of a satisfying element and no occurrence of any other. */
  lemma {:induction false} FilterMultiset<T>(s: seq<T>, p: T -> bool)
    ensures forall x :: multiset(Filter(s, p))[x] == if p(x) then multiset(s)[x] else 0
  {
    if s != [] {
      FilterMultiset(s[1..], p);
      assert s == [s[0]] + s[1..];
      assert multiset(s) == multiset([s[0]]) + multiset(s[1..]);
      if p(s[0]) {
        assert multiset(Filter(s, p)) == multiset([s[0]]) + multiset(Filter(s[1..], p));
      }
    }
  }

  lemma {:induction false} FilterAppend<T>(a: seq<T>, b: seq<T>, p: T -> bool)
    ensures Filter(a + b, p) == Filter(a, p) + Filter(b, p)
  {
    if a == [] {
      assert a + b == b;
    } else {
      assert (a + b)[0] == a[0];
      assert (a + b)[1..] == a[1..] + b;
      FilterAppend(a[1..], b, p);
    }
  }

  /** Filtering by a predicate every element satisfies changes nothing. */
  lemma {:induction false} FilterKeepsAll<T>(s: seq<T>, p: T -> bool)
    requires forall x :: x in s ==> p(x)
    ensures Filter(s, p) == s
  {
    if s != [] {
      assert forall x :: x in s[1..] ==> x in s;
      FilterKeepsAll(s[1..], p);
    }
  }

  /** Predicates that agree on the elements of `s` filter it alike. */
  lemma {:induction false} FilterAgree<T>(s: seq<T>, p: T -> bool, q: T -> bool)
    requires forall x :: x in s ==> p(x) == q(x)
    ensures Filter(s, p) == Filter(s, q)
  {
    if s != [] {
      assert forall x :: x in s[1..] ==> x in s;
      FilterAgree(s[1..], p, q);
    }
  }

  function Keys<K, V>(t: seq<(K, V)>): (r: seq<K>)
    ensures |r| == |t|
    ensures forall i :: 0 <= i < |t| ==> r[i] == t[i].0
  {
    if t == [] then [] else [t[0].0] + Keys(t[1..])
  }

  predicate HasKey<K(==), V>(t: seq<(K, V)>, k: K) {
    k in Keys(t)
  }

  ghost predicate UniqueKeys<K, V>(t: seq<(K, V)>) {
    forall i, j :: 0 <= i < j < |t| ==> t[i].0 != t[j].0
  }

  /** The value of the first entry with key `k`, as an IndexMap `get` finds it. */
  function Lookup<K(==), V>(t: seq<(K, V)>, k: K): (r: Option<V>)
    ensures r.Some? <==> HasKey(t, k)
    ensures r.Some? ==> (k, r.value) in t
  {
    if t == [] then None
    else if t[0].0 == k then Some(t[0].1)
    else Lookup(t[1..], k)
  }

  /** Every entry with key `k` gets value `v`; the order is kept. */
  function Replace<K(==), V>(t: seq<(K, V)>, k: K, v: V): (r: seq<(K, V)>)
    ensures Keys(r) == Keys(t)
  {
    if t == [] then []
    else [if t[0].0 == k then (k, v) else t[0]] + Replace(t[1..], k, v)
  }

  /** IndexMap insertion: an existing key keeps its place and gets the new value; a new key goes last. */
  function Put<K(==), V>(t: seq<(K, V)>, k: K, v: V): seq<(K, V)> {
    if HasKey(t, k) then Replace(t, k, v) else t + [(k, v)]
  }

  /** Order-preserving removal of key `k` (IndexMap `shift_remove`). */
  function Remove<K(==), V>(t: seq<(K, V)>, k: K): seq<(K, V)> {
    Filter(t, OtherKey<K, V>(k))
  }

  function OtherKey<K(==), V>(k: K): ((K, V)) -> bool {
    (e: (K, V)) => e.0 != k
  }

  lemma {:induction false} LookupReplace<K, V>(t: seq<(K, V)>, k: K, v: V, k': K)
    ensures Lookup(Replace(t, k, v), k') == if k' == k && HasKey(t, k) then Some(v) else Lookup(t, k')
  {
    if t != [] {
      LookupReplace(t[1..], k, v, k');
    }
  }

  lemma {:induction false} KeysAppend<K, V>(a: seq<(K, V)>, b: seq<(K, V)>)
    ensures Keys(a + b) == Keys(a) + Keys(b)
  {
    if a != [] {
      assert (a + b)[1..] == a[1..] + b;
      KeysAppend(a[1..], b);
    }
  }

  lemma {:induction false} LookupAppend<K, V>(a: seq<(K, V)>, b: seq<(K, V)>, k: K)
    ensures Lookup(a + b, k) == if HasKey(a, k) then Lookup(a, k) else Lookup(b, k)
  {
    if a == [] {
      assert a + b == b;
    } else {
      assert Keys(a) == [a[0].0] + Keys(a[1..]);
      if a[0].0 != k {
        assert (a + b)[1..] == a[1..] + b;
        LookupAppend(a[1..], b, k);
      }
    }
  }

  /** What `Put` does to the map, seen through `Lookup`: the key now has the new value, every other key keeps its own. */
  lemma PutLookup<K, V>(t: seq<(K, V)>, k: K, v: V, k': K)
    ensures Lookup(Put(t, k, v), k') == if k' == k then Some(v) else Lookup(t, k')
    ensures Keys(Put(t, k, v)) == if HasKey(t, k) then Keys(t) else Keys(t) + [k]
  {
    if HasKey(t, k) {
      LookupReplace(t, k, v, k');
    } else {
      LookupAppend(t, [(k, v)], k');
      KeysAppend(t, [(k, v)]);
    }
  }

  lemma {:induction false} ReplaceUnique<K, V>(t: seq<(K, V)>, k: K, v: V)
    requires UniqueKeys(t)
    ensures UniqueKeys(Replace(t, k, v))
  {
    var r := Replace(t, k, v);
    forall i, j | 0 <= i < j < |r| ensures r[i].0 != r[j].0 {
      assert Keys(r)[i] == Keys(t)[i] && Keys(r)[j] == Keys(t)[j];
    }
  }

  /** `Put` keeps keys unique. */
  lemma PutUnique<K, V>(t: seq<(K, V)>, k: K, v: V)
    requires UniqueKeys(t)
    ensures UniqueKeys(Put(t, k, v))
  {
    if HasKey(t, k) {
      ReplaceUnique(t, k, v);
    } else {
      var r := t + [(k, v)];
      forall i, j | 0 <= i < j < |r| ensures r[i].0 != r[j].0 {
        if j == |t| {
          assert Keys(t)[i] == t[i].0;
        }
      }
    }
  }

  /** Putting back the value a unique key already has changes nothing. */
  lemma {:induction false} PutSame<K, V>(t: seq<(K, V)>, k: K, v: V)
    requires UniqueKeys(t) && Lookup(t, k) == Some(v)
    ensures Put(t, k, v) == t
  {
    ReplaceSame(t, k, v);
  }

  lemma {:induction false} ReplaceSame<K, V>(t: seq<(K, V)>, k: K, v: V)
    requires UniqueKeys(t) && (HasKey(t, k) ==> Lookup(t, k) == Some(v))
    ensures Replace(t, k, v) == t
  {
    if t != [] {
      assert UniqueKeys(t[1..]);
      if t[0].0 == k {
        forall j | 0 <= j < |t[1..]| ensures Keys(t[1..])[j] != k {
          assert t[1..][j] == t[j + 1];
        }
      }
      assert Keys(t) == [t[0].0] + Keys(t[1..]);
      ReplaceSame(t[1..], k, v);
    }
  }

  /** Putting twice under one key is putting the second value. */
  lemma {:induction false} PutPut<K, V>(t: seq<(K, V)>, k: K, v: V, w: V)
    ensures Put(Put(t, k, v), k, w) == Put(t, k, w)
  {
    PutLookup(t, k, v, k);
    if HasKey(t, k) {
      ReplaceReplace(t, k, v, w);
    } else {
      ReplaceAppended(t, k, v, w);
    }
  }

  lemma {:induction false} ReplaceReplace<K, V>(t: seq<(K, V)>, k: K, v: V, w: V)
    ensures Replace(Replace(t, k, v), k, w) == Replace(t, k, w)
  {
    if t != [] {
      ReplaceReplace(t[1..], k, v, w);
    }
  }

  lemma {:induction false} ReplaceAppended<K, V>(t: seq<(K, V)>, k: K, v: V, w: V)
    requires !HasKey(t, k)
    ensures Replace(t + [(k, v)], k, w) == t + [(k, w)]
  {
    if t == [] {
      assert Replace([(k, v)], k, w) == [(k, w)] + Replace([], k, w);
    } else {
      assert (t + [(k, v)])[1..] == t[1..] + [(k, v)];
      assert Keys(t) == [t[0].0] + Keys(t[1..]);
      ReplaceAppended(t[1..], k, v, w);
    }
  }

  /** What `Remove` does, seen through `Lookup`: the key is gone, every other key keeps its value. */
  lemma {:induction false} RemoveLookup<K, V>(t: seq<(K, V)>, k: K, k': K)
    ensures Lookup(Remove(t, k), k') == if k' == k then None else Lookup(t, k')
  {
    if t != [] {
      RemoveLookup(t[1..], k, k');
      assert Remove(t, k) == if t[0].0 != k then [t[0]] + Remove(t[1..], k) else Remove(t[1..], k);
    }
  }

  /** Removing a key that `Put` just added restores the table. */
  lemma {:induction false} RemoveUndoesPut<K, V>(t: seq<(K, V)>, k: K, v: V)
    requires !HasKey(t, k)
    ensures Remove(Put(t, k, v), k) == t
  {
    FilterAppend(t, [(k, v)], OtherKey<K, V>(k));
    assert Filter([(k, v)], OtherKey<K, V>(k)) == [];
    forall e | e in t ensures OtherKey<K, V>(k)(e) {
      var j :| 0 <= j < |t| && t[j] == e;
      assert Keys(t)[j] == e.0;
    }
    FilterKeepsAll(t, OtherKey<K, V>(k));
  }

  /** A filter of a unique-keyed table is unique-keyed. */
  lemma {:induction false} FilterUnique<K, V>(t: seq<(K, V)>, p: ((K, V)) -> bool)
    requires UniqueKeys(t)
    ensures UniqueKeys(Filter(t, p))
  {
    if t != [] {
      assert UniqueKeys(t[1..]);
      FilterUnique(t[1..], p);
      var rest := Filter(t[1..], p);
      if p(t[0]) {
        var r := [t[0]] + rest;
        forall i, j | 0 <= i < j < |r| ensures r[i].0 != r[j].0 {
          if i == 0 {
            assert r[j] in t[1..];
            var m :| 0 <= m < |t[1..]| && t[1..][m] == r[j];
            assert t[m + 1] == r[j];
          } else {
            assert r[i] == rest[i - 1] && r[j] == rest[j - 1];
          }
        }
      }
    }
  }
}
