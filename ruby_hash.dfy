/**
  Ruby's `Hash`, as far as the serialization module uses it: an insertion-ordered
  table with distinct keys. It is modelled as an association list whose keys are
  pairwise distinct; `ToMap` gives its abstract value as a Dafny `map`, and
  `Keys` the order in which its entries are enumerated.
 */
module RubyHash {
  import opened Wrappers

  /** The keys of an association list, in order. */
  function Keys<K, V>(s: seq<(K, V)>): (ks: seq<K>)
    ensures |ks| == |s|
  {
    if s == [] then [] else [s[0].0] + Keys(s[1..])
  }

  /** No key occurs twice. */
  predicate UniqueKeys<K(==), V>(s: seq<(K, V)>) {
    s == [] || (s[0].0 !in Keys(s[1..]) && UniqueKeys(s[1..]))
  }

  /** A Ruby hash. */
  type Hash<K(==), V> = s: seq<(K, V)> | UniqueKeys(s) witness []

  /** The abstract value of an association list (the first entry for a key wins). */
  function ToMap<K(==), V>(s: seq<(K, V)>): map<K, V> {
    if s == [] then map[] else ToMap(s[1..])[s[0].0 := s[0].1]
  }

  /** The keys of the abstract value are exactly the keys enumerated. */
  lemma {:induction false} ToMapDomain<K, V>(s: seq<(K, V)>, k: K)
    ensures k in ToMap(s) <==> k in Keys(s)
  {
    if s != [] {
      ToMapDomain(s[1..], k);
    }
  }

  /** Looks a key up by scanning the entries, as the hash table answers `has_key?` and `fetch`. */
  function Lookup<K(==), V>(s: seq<(K, V)>, k: K): (r: Option<V>)
    ensures r.Some? <==> k in ToMap(s)
    ensures r.Some? ==> r.value == ToMap(s)[k]
  {
    if s == [] then None
    else if s[0].0 == k then Some(s[0].1)
    else Lookup(s[1..], k)
  }

  /** `h.has_key?(k)` */
  predicate HasKey<K(==), V>(h: Hash<K, V>, k: K)
    ensures HasKey(h, k) <==> k in ToMap(h)
  {
    Lookup(h, k).Some?
  }

  /** `h.fetch(k, default)`: the value stored under `k`, or `default` when `k` is not a key. */
  function Fetch<K(==), V>(h: Hash<K, V>, k: K, default: V): (r: V)
    ensures k in ToMap(h) ==> r == ToMap(h)[k]
    ensures k !in ToMap(h) ==> r == default
  {
    Lookup(h, k).GetOr(default)
  }

  /** How the views of an association list unfold over its first entry. */
  lemma Cons<K, V>(e: (K, V), t: seq<(K, V)>)
    ensures Keys([e] + t) == [e.0] + Keys(t)
    ensures ToMap([e] + t) == ToMap(t)[e.0 := e.1]
    ensures UniqueKeys([e] + t) <==> e.0 !in Keys(t) && UniqueKeys(t)
  {
    assert ([e] + t)[1..] == t;
  }

  /**
    `h[k] = v`: an existing key keeps its position and takes the new value;
    a new key is appended at the end.
   */
  function Store<K(==), V>(h: Hash<K, V>, k: K, v: V): (r: Hash<K, V>)
    ensures ToMap(r) == ToMap(h)[k := v]
    ensures Keys(r) == if k in Keys(h) then Keys(h) else Keys(h) + [k]
  {
    if h == [] then
      Cons((k, v), []);
      [(k, v)]
    else
      Cons(h[0], h[1..]);
      assert h == [h[0]] + h[1..];
      if h[0].0 == k then
        Cons((k, v), h[1..]);
        [(k, v)] + h[1..]
      else
        var r' := Store(h[1..], k, v);
        Cons(h[0], r');
        [h[0]] + r'
  }

  lemma UpdateThenUnion<K, V>(m: map<K, V>, n: map<K, V>, k: K, v: V)
    requires k !in n
    ensures m[k := v] + n == m + n[k := v]
  {
  }

  /**
    `a.merge(b)`: a new hash holding the entries of `a`, into which each entry of
    `b` is stored in turn.
   */
  function Merge<K(==), V>(a: Hash<K, V>, b: Hash<K, V>): Hash<K, V>
    decreases |b|
  {
    if b == [] then a else Merge(Store(a, b[0].0, b[0].1), b[1..])
  }

  /** Keys of the argument win over the receiver's; the receiver's keys keep their positions at the front. */
  lemma {:induction false} MergeSemantics<K, V>(a: Hash<K, V>, b: Hash<K, V>)
    ensures ToMap(Merge(a, b)) == ToMap(a) + ToMap(b)
    ensures |a| <= |Merge(a, b)| && Keys(Merge(a, b))[..|a|] == Keys(a)
    decreases |b|
  {
    if b != [] {
      Cons(b[0], b[1..]);
      assert b == [b[0]] + b[1..];
      var a' := Store(a, b[0].0, b[0].1);
      MergeSemantics(a', b[1..]);
      var r := Merge(a', b[1..]);
      ToMapDomain(b[1..], b[0].0);
      UpdateThenUnion(ToMap(a), ToMap(b[1..]), b[0].0, b[0].1);
      assert Keys(r)[..|a|] == Keys(r)[..|a'|][..|a|];
    }
  }

  /** The elements of `bs` that are not in `ks`, in the order of `bs`. */
  function Fresh<K(==)>(ks: seq<K>, bs: seq<K>): seq<K> {
    if bs == [] then [] else (if bs[0] in ks then [] else [bs[0]]) + Fresh(ks, bs[1..])
  }

  /** Adding to `ks` an element that `bs` does not hold leaves `Fresh(ks, bs)` alone. */
  lemma {:induction false} FreshSkips<K>(ks: seq<K>, x: K, bs: seq<K>)
    requires x !in bs
    ensures Fresh(ks + [x], bs) == Fresh(ks, bs)
  {
    if bs != [] {
      assert bs[0] in ks + [x] <==> bs[0] in ks;
      FreshSkips(ks, x, bs[1..]);
    }
  }

  lemma AppendAssoc<T>(xs: seq<T>, ys: seq<T>, zs: seq<T>)
    ensures xs + ys + zs == xs + (ys + zs)
  {
  }

  /** After the receiver's keys, `a.merge(b)` enumerates the keys of `b` that `a` lacks, in `b`'s order. */
  lemma {:induction false} MergeKeyOrder<K, V>(a: Hash<K, V>, b: Hash<K, V>)
    ensures Keys(Merge(a, b)) == Keys(a) + Fresh(Keys(a), Keys(b))
    decreases |b|
  {
    if b != [] {
      var k0, rest := b[0].0, b[1..];
      Cons(b[0], rest);
      assert b == [b[0]] + rest;
      assert Keys(b)[1..] == Keys(rest);
      var a' := Store(a, k0, b[0].1);
      MergeKeyOrder(a', rest);
      var added: seq<K> := if k0 in Keys(a) then [] else [k0];
      assert Fresh(Keys(a), Keys(b)) == added + Fresh(Keys(a), Keys(rest));
      if k0 !in Keys(a) {
        FreshSkips(Keys(a), k0, Keys(rest));
        AppendAssoc(Keys(a), [k0], Fresh(Keys(a), Keys(rest)));
      } else {
        assert added + Fresh(Keys(a), Keys(rest)) == Fresh(Keys(a), Keys(rest));
      }
    }
  }

  /** Storing a key the hash does not hold appends exactly that entry. */
  lemma {:induction false} StoreNewKey<K, V>(h: Hash<K, V>, k: K, v: V)
    requires k !in ToMap(h)
    ensures Store(h, k, v) == h + [(k, v)]
  {
    if h != [] {
      Cons(h[0], h[1..]);
      assert h == [h[0]] + h[1..];
      StoreNewKey(h[1..], k, v);
    }
  }

  /** Moving the first entry of `b` to the end of `a` keeps the two key sets apart. */
  lemma ShiftDisjoint<K, V>(a: Hash<K, V>, b: Hash<K, V>)
    requires b != []
    requires ToMap(a).Keys !! ToMap(b).Keys
    ensures b[0].0 !in ToMap(a)
    ensures ToMap(a)[b[0].0 := b[0].1].Keys !! ToMap(b[1..]).Keys
  {
    Cons(b[0], b[1..]);
    assert b == [b[0]] + b[1..];
    ToMapDomain(b[1..], b[0].0);
  }

  lemma AppendFirst<T>(a: seq<T>, b: seq<T>)
    requires b != []
    ensures a + [b[0]] + b[1..] == a + b
  {
    assert b == [b[0]] + b[1..];
  }

  /** Merging hashes with no key in common concatenates them, order included. */
  lemma {:induction false} MergeDisjoint<K, V>(a: Hash<K, V>, b: Hash<K, V>)
    requires ToMap(a).Keys !! ToMap(b).Keys
    ensures Merge(a, b) == a + b
    decreases |b|
  {
    if b != [] {
      ShiftDisjoint(a, b);
      StoreNewKey(a, b[0].0, b[0].1);
      MergeDisjoint(Store(a, b[0].0, b[0].1), b[1..]);
      AppendFirst(a, b);
    }
  }

  /** A hash is determined by its key order and its abstract value. */
  lemma {:induction false} HashExtensionality<K, V>(a: Hash<K, V>, b: Hash<K, V>)
    requires Keys(a) == Keys(b) && ToMap(a) == ToMap(b)
    ensures a == b
  {
    if a != [] {
      Cons(a[0], a[1..]);
      Cons(b[0], b[1..]);
      assert a == [a[0]] + a[1..];
      assert b == [b[0]] + b[1..];
      var k := a[0].0;
      assert Keys(a)[0] == k == Keys(b)[0];
      assert Keys(a[1..]) == Keys(a)[1..] == Keys(b)[1..] == Keys(b[1..]);
      assert a[0].1 == ToMap(a)[k] == ToMap(b)[k] == b[0].1;
      ToMapDomain(a[1..], k);
      ToMapDomain(b[1..], k);
      assert ToMap(a[1..]) == ToMap(a) - {k};
      assert ToMap(b[1..]) == ToMap(b) - {k};
      HashExtensionality(a[1..], b[1..]);
    }
  }
}
