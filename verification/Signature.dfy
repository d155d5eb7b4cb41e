/** Freedom Pay signatures: MD5 over the values in sorted key order. */
module Signature {
  import opened Text
  import opened OrdMaps

  /** Hex MD5 of a text. Nothing is assumed about it but that it is a function. */
  type Hash = string -> string

  function CollectValues(v: Value): seq<string>
    decreases v
  {
    match v
    case Str(s) => if s == "" then [] else [s]
    case Map(m) =>
      KeysAreKeys(m.pairs);
      CollectKeys(m.pairs, SortedKeys(m.pairs))
    case List(items) => CollectItems(items)
  }

  function CollectKeys(ps: seq<Pair>, keys: seq<string>): seq<string>
    requires forall k :: k in keys ==> HasKey(ps, k)
    decreases ps, |keys|
  {
    if keys == [] then []
    else CollectValues(ps[Find(ps, keys[0])].value) + CollectKeys(ps, keys[1..])
  }

  function CollectItems(items: seq<OrdMap>): seq<string>
    decreases items
  {
    if items == [] then []
    else
      KeysAreKeys(items[0].pairs);
      CollectKeys(items[0].pairs, SortedKeys(items[0].pairs)) + CollectItems(items[1..])
  }

  lemma {:induction false} KeysAreKeys(ps: seq<Pair>)
    ensures forall k :: k in SortedKeys(ps) ==> HasKey(ps, k)
  {
    forall k | k in SortedKeys(ps) ensures HasKey(ps, k) {
      assert k in multiset(SortedKeys(ps));
      KeysMembership(ps, k);
    }
  }

  function SignedText(script: string, m: OrdMap, secret: string): string {
    Join((if script != "" then [script] else []) + CollectValues(Map(m)) + [secret], ";")
  }

  function Sign(md5: Hash, script: string, m: OrdMap, secret: string): string {
    md5(SignedText(script, m, secret))
  }

  /** `Verify`, its second result only. */
  predicate Verify(md5: Hash, script: string, m: OrdMap, secret: string, signature: string) {
    Sign(md5, script, OrdMap(WithoutKey(m.pairs, "pg_sig")), secret) == signature
  }

  // ------------------------------------------------- insertion order is no matter

  /** Equal up to the order of keys, at every level of nesting; lists keep their order. */
  ghost predicate SameValue(a: Value, b: Value)
    decreases a
  {
    match a
    case Str(s) => b == a
    case Map(m) => b.Map? && SamePairs(m.pairs, b.m.pairs)
    case List(items) => b.List? && SameItems(items, b.items)
  }

  ghost predicate SamePairs(ps: seq<Pair>, qs: seq<Pair>)
    decreases ps
  {
    && UniqueKeys(ps)
    && multiset(Keys(ps)) == multiset(Keys(qs))
    && forall i :: 0 <= i < |ps| ==>
         HasKey(qs, ps[i].key) && SameValue(ps[i].value, qs[Find(qs, ps[i].key)].value)
  }

  ghost predicate SameItems(xs: seq<OrdMap>, ys: seq<OrdMap>)
    decreases xs
  {
    if xs == [] then ys == []
    else ys != [] && SamePairs(xs[0].pairs, ys[0].pairs) && SameItems(xs[1..], ys[1..])
  }

  lemma {:induction false} SameValueSameList(a: Value, b: Value)
    requires SameValue(a, b)
    ensures CollectValues(a) == CollectValues(b)
    decreases a
  {
    match a
    case Str(_) =>
    case Map(m) => SamePairsSameList(m.pairs, b.m.pairs);
    case List(items) => SameItemsSameList(items, b.items);
  }

  lemma {:induction false} SamePairsSameList(ps: seq<Pair>, qs: seq<Pair>)
    requires SamePairs(ps, qs)
    ensures CollectValues(Map(OrdMap(ps))) == CollectValues(Map(OrdMap(qs)))
    decreases ps, |ps| + 1
  {
    SortedIsUnique(SortedKeys(ps), SortedKeys(qs));
    KeysAreKeys(ps);
    KeysAreKeys(qs);
    SameKeysSameList(ps, qs, SortedKeys(ps));
  }

  lemma {:induction false} SameKeysSameList(ps: seq<Pair>, qs: seq<Pair>, keys: seq<string>)
    requires SamePairs(ps, qs)
    requires forall k :: k in keys ==> HasKey(ps, k) && HasKey(qs, k)
    ensures CollectKeys(ps, keys) == CollectKeys(qs, keys)
    decreases ps, |keys|
  {
    if keys != [] {
      SameValueSameList(ps[Find(ps, keys[0])].value, qs[Find(qs, keys[0])].value);
      SameKeysSameList(ps, qs, keys[1..]);
    }
  }

  lemma {:induction false} SameItemsSameList(xs: seq<OrdMap>, ys: seq<OrdMap>)
    requires SameItems(xs, ys)
    ensures CollectItems(xs) == CollectItems(ys)
    decreases xs
  {
    if xs != [] {
      SamePairsSameList(xs[0].pairs, ys[0].pairs);
      SameItemsSameList(xs[1..], ys[1..]);
    }
  }

  /** The order in which fields were set, at any depth, never changes a signature. */
  lemma SignIgnoresInsertionOrder(md5: Hash, script: string, m: OrdMap, n: OrdMap, secret: string)
    requires SamePairs(m.pairs, n.pairs)
    ensures Sign(md5, script, m, secret) == Sign(md5, script, n, secret)
  {
    SamePairsSameList(m.pairs, n.pairs);
  }
}
