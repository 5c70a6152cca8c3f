/**
 * Ruby's Hash as an association list kept in insertion order: the order in
 * which Ruby iterates a Hash, and so the order in which `to_json` and
 * `URI.encode_www_form` write its entries out. Keys are strings: the names
 * of the symbols (`:currency`) or the strings (`"status"`) the program uses.
 */
module RubyHash {
  import opened Wrappers

  type Hash<V> = seq<(string, V)>

  /** The keys of `h`, in order. */
  function Keys<V>(h: Hash<V>): (ks: seq<string>)
    ensures |ks| == |h|
    ensures forall i :: 0 <= i < |h| ==> ks[i] == h[i].0
  {
    if h == [] then [] else [h[0].0] + Keys(h[1..])
  }

  /** Every Ruby Hash has this shape: no key occurs twice. */
  predicate DistinctKeys<V>(h: Hash<V>) {
    h == [] || (h[0].0 !in Keys(h[1..]) && DistinctKeys(h[1..]))
  }

  /** `h[k]`: the value stored under `k`, or None when `k` is not a key. */
  function Get<V>(h: Hash<V>, k: string): (r: Option<V>)
    ensures r.Some? <==> k in Keys(h)
    ensures r.Some? ==> (k, r.value) in h
  {
    if h == [] then None
    else if h[0].0 == k then Some(h[0].1)
    else Get(h[1..], k)
  }

  lemma KeysCons<V>(x: (string, V), t: Hash<V>)
    ensures Keys([x] + t) == [x.0] + Keys(t)
  {
    assert ([x] + t)[1..] == t;
  }

  /**
   * `h[k] = v`: a key already present keeps its position and takes the new
   * value (StoreKeys, StoreGet); a new key is added at the end.
   */
  function Store<V>(h: Hash<V>, k: string, v: V): (r: Hash<V>)
    ensures (forall i :: 0 <= i < |h| ==> h[i].0 != k) ==> r == h + [(k, v)]
  {
    if h == [] then [(k, v)]
    else if h[0].0 == k then [(k, v)] + h[1..]
    else
      assert [h[0]] + (h[1..] + [(k, v)]) == h + [(k, v)];
      [h[0]] + Store(h[1..], k, v)
  }

  /** Storing under the first key replaces the first entry. */
  lemma StoreFirst<V>(x: (string, V), t: Hash<V>, v: V)
    ensures Store([x] + t, x.0, v) == [(x.0, v)] + t
  {
    assert ([x] + t)[1..] == t;
  }

  /** Storing under any other key leaves the first entry where it is. */
  lemma StoreBehind<V>(x: (string, V), t: Hash<V>, k: string, v: V)
    requires x.0 != k
    ensures Store([x] + t, k, v) == [x] + Store(t, k, v)
  {
    assert ([x] + t)[1..] == t;
  }

  /** A key that is not in `h` is appended by Store. */
  lemma StoreNew<V>(h: Hash<V>, k: string, v: V)
    requires k !in Keys(h)
    ensures Store(h, k, v) == h + [(k, v)]
  {
    assert forall i :: 0 <= i < |h| ==> h[i].0 == Keys(h)[i];
  }

  /** The keys after `h[k] = v`: unchanged when `k` was present, else `k` is added last. */
  lemma {:induction false} StoreKeys<V>(h: Hash<V>, k: string, v: V)
    ensures Keys(Store(h, k, v)) == if k in Keys(h) then Keys(h) else Keys(h) + [k]
  {
    if h != [] {
      KeysCons(h[0], h[1..]);
      if h[0].0 == k {
        KeysCons((k, v), h[1..]);
      } else {
        StoreKeys(h[1..], k, v);
        KeysCons(h[0], Store(h[1..], k, v));
      }
    }
  }

  /** After `h[k] = v`, `k` reads as `v` and every other key reads as before. */
  lemma {:induction false} StoreGet<V>(h: Hash<V>, k: string, v: V, k': string)
    ensures Get(Store(h, k, v), k') == if k' == k then Some(v) else Get(h, k')
  {
    if h != [] && h[0].0 != k {
      StoreGet(h[1..], k, v, k');
      assert ([h[0]] + Store(h[1..], k, v))[1..] == Store(h[1..], k, v);
    } else if h != [] {
      assert ([(k, v)] + h[1..])[1..] == h[1..];
    }
  }

  /**
   * In a Hash whose keys are distinct, storing under a present key changes
   * the value at that key's position and nothing else.
   */
  lemma {:induction false} StoreReplaces<V>(h: Hash<V>, k: string, v: V)
    requires DistinctKeys(h) && k in Keys(h)
    ensures |Store(h, k, v)| == |h|
    ensures forall i :: 0 <= i < |h| ==> Store(h, k, v)[i] == if h[i].0 == k then (k, v) else h[i]
  {
    KeysCons(h[0], h[1..]);
    if h[0].0 == k {
      forall i | 1 <= i < |h|
        ensures h[i].0 != k
      {
        assert h[i].0 == Keys(h[1..])[i - 1];
      }
    } else {
      StoreReplaces(h[1..], k, v);
    }
  }

  /** Storing into a Hash never makes a key occur twice. */
  lemma {:induction false} StoreKeepsDistinct<V>(h: Hash<V>, k: string, v: V)
    requires DistinctKeys(h)
    ensures DistinctKeys(Store(h, k, v))
  {
    if h != [] && h[0].0 != k {
      StoreKeepsDistinct(h[1..], k, v);
      StoreKeys(h[1..], k, v);
      var r := Store(h, k, v);
      assert r[1..] == Store(h[1..], k, v);
    } else if h != [] {
      assert Store(h, k, v)[1..] == h[1..];
    }
  }

  /**
   * `a.merge(b)`: the entries of `b` stored one after another into a copy of
   * `a`, so that `b` wins on every key the two share.
   */
  function Merge<V>(a: Hash<V>, b: Hash<V>): Hash<V>
    decreases |b|
  {
    if b == [] then a else Merge(Store(a, b[0].0, b[0].1), b[1..])
  }

  /** The elements of `ks` that are not in `excluded`, in their order. */
  function Missing(ks: seq<string>, excluded: seq<string>): (r: seq<string>)
    ensures forall x :: x in r <==> x in ks && x !in excluded
    ensures |r| <= |ks|
  {
    if ks == [] then []
    else (if ks[0] in excluded then [] else [ks[0]]) + Missing(ks[1..], excluded)
  }

  lemma MissingCons(x: string, ks: seq<string>, excluded: seq<string>)
    ensures Missing([x] + ks, excluded) == (if x in excluded then [] else [x]) + Missing(ks, excluded)
  {
    assert ([x] + ks)[1..] == ks;
  }

  lemma {:induction false} MissingIgnores(ks: seq<string>, excluded: seq<string>, x: string)
    requires x !in ks
    ensures Missing(ks, excluded + [x]) == Missing(ks, excluded)
  {
    if ks != [] {
      MissingIgnores(ks[1..], excluded, x);
    }
  }

  lemma DistinctTail<V>(h: Hash<V>)
    requires h != []
    ensures Keys(h) == [h[0].0] + Keys(h[1..])
  {
    KeysCons(h[0], h[1..]);
    assert [h[0]] + h[1..] == h;
  }

  /** Merging never moves or drops a key of the receiver, nor repeats a key. */
  lemma {:induction false} MergeKeepsReceiverKeys<V>(a: Hash<V>, b: Hash<V>)
    ensures Keys(a) <= Keys(Merge(a, b))
    ensures DistinctKeys(a) ==> DistinctKeys(Merge(a, b))
    decreases |b|
  {
    if b != [] {
      if DistinctKeys(a) {
        StoreKeepsDistinct(a, b[0].0, b[0].1);
      }
      StoreKeys(a, b[0].0, b[0].1);
      MergeKeepsReceiverKeys(Store(a, b[0].0, b[0].1), b[1..]);
    }
  }

  /** The keys of `a.merge(b)`: those of `a`, then the new keys of `b` in `b`'s order. */
  lemma {:induction false} MergeKeys<V>(a: Hash<V>, b: Hash<V>)
    requires DistinctKeys(b)
    ensures Keys(Merge(a, b)) == Keys(a) + Missing(Keys(b), Keys(a))
    decreases |b|
  {
    if b != [] {
      var a' := Store(a, b[0].0, b[0].1);
      MergeKeys(a', b[1..]);
      MergeKeysStep(a, b);
    }
  }

  /** One step of MergeKeys: storing the first entry of `b` and merging the rest. */
  lemma MergeKeysStep<V>(a: Hash<V>, b: Hash<V>)
    requires b != [] && DistinctKeys(b)
    ensures var a' := Store(a, b[0].0, b[0].1);
      Keys(a') + Missing(Keys(b[1..]), Keys(a')) == Keys(a) + Missing(Keys(b), Keys(a))
  {
    var k, b' := b[0].0, b[1..];
    StoreKeys(a, k, b[0].1);
    DistinctTail(b);
    MissingStep(Keys(a), k, Keys(b'));
  }

  /** MergeKeysStep on the key sequences alone. */
  lemma MissingStep(ka: seq<string>, k: string, kb: seq<string>)
    requires k !in kb
    ensures var ka' := if k in ka then ka else ka + [k];
      ka' + Missing(kb, ka') == ka + Missing([k] + kb, ka)
  {
    MissingCons(k, kb, ka);
    var rest := Missing(kb, ka);
    if k !in ka {
      MissingIgnores(kb, ka, k);
      assert (ka + [k]) + rest == ka + ([k] + rest);
    } else {
      assert [] + rest == rest;
    }
  }

  /** The value of a key in `a.merge(b)`: `b`'s when `b` has the key, `a`'s otherwise. */
  lemma {:induction false} MergeGet<V>(a: Hash<V>, b: Hash<V>, k: string)
    requires DistinctKeys(b)
    ensures Get(Merge(a, b), k) == if k in Keys(b) then Get(b, k) else Get(a, k)
    decreases |b|
  {
    if b != [] {
      DistinctTail(b);
      assert ([b[0]] + b[1..])[1..] == b[1..];
      MergeGet(Store(a, b[0].0, b[0].1), b[1..], k);
      StoreGet(a, b[0].0, b[0].1, k);
    }
  }

  /** When no key clashes, `a.merge(b)` is `a` followed by `b`. */
  lemma {:induction false} MergeDisjoint<V>(a: Hash<V>, b: Hash<V>)
    requires DistinctKeys(b)
    requires forall i :: 0 <= i < |b| ==> b[i].0 !in Keys(a)
    ensures Merge(a, b) == a + b
    decreases |b|
  {
    if b != [] {
      var a', b' := a + [b[0]], b[1..];
      MergeDisjointStep(a, b);
      MergeDisjoint(a', b');
      ConcatCons(a, b);
    }
  }

  lemma ConcatCons<V>(a: Hash<V>, b: Hash<V>)
    requires b != []
    ensures (a + [b[0]]) + b[1..] == a + b
  {
    assert [b[0]] + b[1..] == b;
  }

  /** One step of MergeDisjoint: the first entry of `b` is appended, and the rest still do not clash. */
  lemma MergeDisjointStep<V>(a: Hash<V>, b: Hash<V>)
    requires b != [] && DistinctKeys(b)
    requires forall i :: 0 <= i < |b| ==> b[i].0 !in Keys(a)
    ensures Store(a, b[0].0, b[0].1) == a + [b[0]]
    ensures forall i :: 0 <= i < |b| - 1 ==> b[1..][i].0 !in Keys(a + [b[0]])
  {
    DistinctTail(b);
    StoreNew(a, b[0].0, b[0].1);
    assert Keys(a + [b[0]]) == Keys(a) + [b[0].0];
    forall i | 0 <= i < |b| - 1 ensures b[1..][i].0 !in Keys(a + [b[0]]) {
      assert b[1..][i].0 == Keys(b[1..])[i];
    }
  }

  /** Keys that differ pairwise are distinct keys. */
  lemma {:induction false} PairwiseDistinctKeys<V>(h: Hash<V>)
    requires forall i, j :: 0 <= i < j < |h| ==> h[i].0 != h[j].0
    ensures DistinctKeys(h)
  {
    if h != [] {
      PairwiseDistinctKeys(h[1..]);
    }
  }
}
