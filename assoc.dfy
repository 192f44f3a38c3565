/**
 * Ordered string-keyed dictionaries, the model of a JavaScript plain object.
 *
 * JavaScript objects remember the order in which their keys were first
 * assigned; `Object.entries`, `Object.values` and the spread `{...a, ...b}`
 * all follow that order. An object is therefore an association list of
 * (key, value) pairs whose keys are pairwise distinct.
 */
module Assoc {
  import opened Wrappers

  /** The keys of an object, in insertion order (`Object.keys`). */
  function Keys<V>(m: seq<(string, V)>): (ks: seq<string>)
    ensures |ks| == |m|
    ensures forall i :: 0 <= i < |m| ==> ks[i] == m[i].0
  {
    if m == [] then [] else [m[0].0] + Keys(m[1..])
  }

  /** The values of an object, in insertion order (`Object.values`). */
  function Values<V>(m: seq<(string, V)>): (vs: seq<V>)
    ensures |vs| == |m|
    ensures forall i :: 0 <= i < |m| ==> vs[i] == m[i].1
  {
    if m == [] then [] else [m[0].1] + Values(m[1..])
  }

  /** Every key occurs at most once: what every JavaScript object satisfies. */
  ghost predicate UniqueKeys<V>(m: seq<(string, V)>)
  {
    forall i, j :: 0 <= i < j < |m| ==> m[i].0 != m[j].0
  }

  /** Property lookup `m[k]`; `None` stands for `undefined`. */
  function Get<V>(m: seq<(string, V)>, k: string): (r: Option<V>)
    ensures r.None? <==> k !in Keys(m)
    ensures r.Some? ==> exists i :: 0 <= i < |m| && m[i] == (k, r.value)
  {
    if m == [] then None
    else if m[0].0 == k then Some(m[0].1)
    else Get(m[1..], k)
  }

  /** Property assignment `m[k] = v`: an existing key keeps its place, a new key goes last. */
  function Put<V>(m: seq<(string, V)>, k: string, v: V): (r: seq<(string, V)>)
    ensures Keys(r) == if k in Keys(m) then Keys(m) else Keys(m) + [k]
    ensures Get(r, k) == Some(v)
    ensures forall k' :: k' != k ==> Get(r, k') == Get(m, k')
  {
    if m == [] then [(k, v)]
    else if m[0].0 == k then [(k, v)] + m[1..]
    else [m[0]] + Put(m[1..], k, v)
  }

  /** The keys of `ks` that are not in `existing`, in the order of `ks`. */
  function NewKeys(ks: seq<string>, existing: seq<string>): (r: seq<string>)
    ensures forall k :: k in r <==> k in ks && k !in existing
  {
    if ks == [] then []
    else if ks[0] in existing then NewKeys(ks[1..], existing)
    else [ks[0]] + NewKeys(ks[1..], existing)
  }

  /** Object spread `{...a, ...b}`: the entries of `b` assigned one by one onto a copy of `a`. */
  function Merge<V>(a: seq<(string, V)>, b: seq<(string, V)>): seq<(string, V)>
    decreases |b|
  {
    if b == [] then a else Merge(Put(a, b[0].0, b[0].1), b[1..])
  }

  lemma KeysDistinct<V>(m: seq<(string, V)>)
    requires UniqueKeys(m)
    ensures forall i, j :: 0 <= i < j < |Keys(m)| ==> Keys(m)[i] != Keys(m)[j]
  {
  }

  /** A key in the tail of a unique-keyed list is not its first key. */
  lemma TailKeys<V>(m: seq<(string, V)>)
    requires m != [] && UniqueKeys(m)
    ensures UniqueKeys(m[1..])
    ensures m[0].0 !in Keys(m[1..])
  {
  }

  /** Assignment keeps the keys unique. */
  lemma {:induction false} PutUnique<V>(m: seq<(string, V)>, k: string, v: V)
    requires UniqueKeys(m)
    ensures UniqueKeys(Put(m, k, v))
  {
    var r := Put(m, k, v);
    forall i, j | 0 <= i < j < |r| ensures r[i].0 != r[j].0 {
      assert Keys(r)[i] == r[i].0 && Keys(r)[j] == r[j].0;
      if k in Keys(m) {
        assert Keys(m)[i] == m[i].0 && Keys(m)[j] == m[j].0;
      } else {
        if j < |m| {
          assert Keys(m)[i] == m[i].0 && Keys(m)[j] == m[j].0;
        } else {
          assert Keys(r)[j] == k;
          assert Keys(m)[i] == Keys(r)[i];
          assert Keys(r)[i] in Keys(m);
        }
      }
    }
  }

  /**
   * Spread, key by key: a key of `b` takes `b`'s value, any other key keeps
   * `a`'s value (or stays absent).
   */
  lemma {:induction false} MergeGet<V>(a: seq<(string, V)>, b: seq<(string, V)>, k: string)
    requires UniqueKeys(b)
    ensures Get(Merge(a, b), k) == if k in Keys(b) then Get(b, k) else Get(a, k)
    decreases |b|
  {
    if b != [] {
      TailKeys(b);
      MergeGet(Put(a, b[0].0, b[0].1), b[1..], k);
    }
  }

  /** Spread keeps the keys unique. */
  lemma {:induction false} MergeUnique<V>(a: seq<(string, V)>, b: seq<(string, V)>)
    requires UniqueKeys(a)
    ensures UniqueKeys(Merge(a, b))
    decreases |b|
  {
    if b != [] {
      PutUnique(a, b[0].0, b[0].1);
      MergeUnique(Put(a, b[0].0, b[0].1), b[1..]);
    }
  }

  /**
   * Spread, key order: the keys of `a` in their own order, then the keys of
   * `b` that `a` lacks, in `b`'s order.
   */
  lemma {:induction false} MergeKeys<V>(a: seq<(string, V)>, b: seq<(string, V)>)
    requires UniqueKeys(b)
    ensures Keys(Merge(a, b)) == Keys(a) + NewKeys(Keys(b), Keys(a))
    decreases |b|
  {
    if b != [] {
      TailKeys(b);
      MergeKeys(Put(a, b[0].0, b[0].1), b[1..]);
      MergeKeysStep(a, b);
    }
  }

  /** One step of MergeKeys: assigning the first entry of `b` moves its key (if new) out of the new keys. */
  lemma MergeKeysStep<V>(a: seq<(string, V)>, b: seq<(string, V)>)
    requires b != [] && b[0].0 !in Keys(b[1..])
    ensures Keys(a) + NewKeys(Keys(b), Keys(a))
         == Keys(Put(a, b[0].0, b[0].1)) + NewKeys(Keys(b[1..]), Keys(Put(a, b[0].0, b[0].1)))
  {
    var k0, rest := b[0].0, b[1..];
    assert Keys(b) == [k0] + Keys(rest);
    if k0 !in Keys(a) {
      NewKeysSkip(Keys(rest), Keys(a), k0);
      assert NewKeys(Keys(b), Keys(a)) == [k0] + NewKeys(Keys(rest), Keys(a));
    }
  }

  /** Adding a key that the list does not contain does not change its new keys. */
  lemma {:induction false} NewKeysSkip(ks: seq<string>, existing: seq<string>, k: string)
    requires k !in ks
    ensures NewKeys(ks, existing + [k]) == NewKeys(ks, existing)
  {
    if ks != [] {
      assert ks[0] in existing + [k] <==> ks[0] in existing;
      NewKeysSkip(ks[1..], existing, k);
    }
  }

  /** Assigning a key the object lacks appends the entry. */
  lemma {:induction false} PutNew<V>(m: seq<(string, V)>, k: string, v: V)
    requires k !in Keys(m)
    ensures Put(m, k, v) == m + [(k, v)]
  {
    if m != [] {
      assert Keys(m)[0] == m[0].0;
      assert k !in Keys(m[1..]) by {
        assert Keys(m) == [m[0].0] + Keys(m[1..]);
      }
      PutNew(m[1..], k, v);
      assert Put(m, k, v) == [m[0]] + Put(m[1..], k, v);
      assert [m[0]] + (m[1..] + [(k, v)]) == m + [(k, v)];
    }
  }

  /** Spreading an object whose keys are all new appends its entries in order. */
  lemma {:induction false} MergeDisjoint<V>(a: seq<(string, V)>, b: seq<(string, V)>)
    requires UniqueKeys(b)
    requires forall k :: k in Keys(b) ==> k !in Keys(a)
    ensures Merge(a, b) == a + b
    decreases |b|
  {
    if b != [] {
      var a' := a + [b[0]];
      assert a' + b[1..] == a + b by {
        assert b == [b[0]] + b[1..];
      }
      TailKeys(b);
      assert Keys(b) == [b[0].0] + Keys(b[1..]);
      PutNew(a, b[0].0, b[0].1);
      assert Merge(a, b) == Merge(a', b[1..]);
      assert Keys(a') == Keys(a) + [b[0].0];
      assert forall k :: k in Keys(b[1..]) ==> k !in Keys(a') by {
        forall k | k in Keys(b[1..]) ensures k !in Keys(a') {
          assert k in Keys(b) && k != b[0].0;
        }
      }
      MergeDisjoint(a', b[1..]);
    }
  }

  /** `{...{}, ...b}` is `b` itself. */
  lemma SpreadIntoEmpty<V>(b: seq<(string, V)>)
    requires UniqueKeys(b)
    ensures Merge([], b) == b
  {
    MergeDisjoint([], b);
  }
}
