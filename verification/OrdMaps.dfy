/** The ordered map that Freedom Pay requests and responses are made of. */
module OrdMaps {
  import opened Text

  datatype Value =
    | Str(s: string)
    | Map(m: OrdMap)
    | List(items: seq<OrdMap>)

  datatype Pair = Pair(key: string, value: Value)

  datatype OrdMap = OrdMap(pairs: seq<Pair>)

  function Keys(ps: seq<Pair>): (r: seq<string>)
    ensures |r| == |ps|
  {
    if ps == [] then [] else [ps[0].key] + Keys(ps[1..])
  }

  predicate HasKey(ps: seq<Pair>, k: string) {
    ps != [] && (ps[0].key == k || HasKey(ps[1..], k))
  }

  predicate UniqueKeys(ps: seq<Pair>) {
    ps == [] || (!HasKey(ps[1..], ps[0].key) && UniqueKeys(ps[1..]))
  }

  /** The position of the first pair with this key. */
  function Find(ps: seq<Pair>, k: string): (i: nat)
    requires HasKey(ps, k)
    ensures i < |ps| && ps[i].key == k && k !in Keys(ps[..i])
  {
    if ps[0].key == k then 0
    else
      var i := Find(ps[1..], k);
      assert ps[..i + 1][1..] == ps[1..][..i];
      i + 1
  }

  function Get(ps: seq<Pair>, k: string): Option<Value> {
    if HasKey(ps, k) then Some(ps[Find(ps, k)].value) else None
  }

  function SetKey(ps: seq<Pair>, k: string, v: Value): seq<Pair> {
    if ps == [] then [Pair(k, v)]
    else if ps[0].key == k then [Pair(k, v)] + ps[1..]
    else [ps[0]] + SetKey(ps[1..], k, v)
  }

  /** Removes the first pair with this key. */
  function DeleteKey(ps: seq<Pair>, k: string): seq<Pair> {
    if ps == [] then []
    else if ps[0].key == k then ps[1..]
    else [ps[0]] + DeleteKey(ps[1..], k)
  }

  /** Removes every pair with this key. */
  function WithoutKey(ps: seq<Pair>, k: string): seq<Pair> {
    if ps == [] then []
    else if ps[0].key == k then WithoutKey(ps[1..], k)
    else [ps[0]] + WithoutKey(ps[1..], k)
  }

  function SortedKeys(ps: seq<Pair>): seq<string> {
    SortStrings(Keys(ps))
  }

  /** `i` is the first position with the key, or the end when there is none. */
  predicate FirstAt(ps: seq<Pair>, i: nat, k: string) {
    && i <= |ps| && (i < |ps| ==> ps[i].key == k)
    && forall j :: 0 <= j < i ==> ps[j].key != k
  }

  lemma {:induction false} SetAtFirst(ps: seq<Pair>, i: nat, k: string, v: Value)
    requires FirstAt(ps, i, k)
    ensures SetKey(ps, k, v) == if i < |ps| then ps[i := Pair(k, v)] else ps + [Pair(k, v)]
  {
    if i > 0 {
      assert FirstAt(ps[1..], i - 1, k);
      SetAtFirst(ps[1..], i - 1, k, v);
      assert ps[0].key != k;
      assert SetKey(ps, k, v) == [ps[0]] + SetKey(ps[1..], k, v);
      hide SetKey, FirstAt;
      EditBehind(ps, i, Pair(k, v));
    }
  }

  /** Writing, appending or cutting out behind the first pair. */
  lemma EditBehind(ps: seq<Pair>, i: nat, p: Pair)
    requires 0 < i <= |ps|
    ensures i < |ps| ==> [ps[0]] + ps[1..][i - 1 := p] == ps[i := p]
    ensures [ps[0]] + (ps[1..] + [p]) == ps + [p] && [ps[0]] + ps[1..] == ps
    ensures i < |ps| ==> [ps[0]] + (ps[1..][..i - 1] + ps[1..][i..]) == ps[..i] + ps[i + 1..]
  {
  }

  lemma {:induction false} DeleteFirst(ps: seq<Pair>, i: nat, k: string)
    requires FirstAt(ps, i, k)
    ensures DeleteKey(ps, k) == if i < |ps| then ps[..i] + ps[i + 1..] else ps
  {
    if i > 0 {
      assert FirstAt(ps[1..], i - 1, k);
      DeleteFirst(ps[1..], i - 1, k);
      assert ps[0].key != k;
      assert DeleteKey(ps, k) == [ps[0]] + DeleteKey(ps[1..], k);
      hide DeleteKey, FirstAt;
      EditBehind(ps, i, ps[0]);
    }
  }

  // ------------------------------------------------------- the slice in place

  /** A slice variable of type OrdMap whose pairs `Set` and `Delete` write in place. */
  class Fields {
    var pairs: seq<Pair>

    constructor (pairs: seq<Pair>)
      ensures this.pairs == pairs
    {
      this.pairs := pairs;
    }

    method Set(key: string, value: Value)
      modifies this
      ensures pairs == SetKey(old(pairs), key, value)
    {
      for i := 0 to |pairs|
        invariant pairs == old(pairs)
        invariant forall j :: 0 <= j < i ==> pairs[j].key != key
      {
        if pairs[i].key == key {
          SetAtFirst(pairs, i, key, value);
          pairs := pairs[i := Pair(key, value)];
          return;
        }
      }
      SetAtFirst(pairs, |pairs|, key, value);
      pairs := pairs + [Pair(key, value)];
    }

    method Delete(key: string)
      modifies this
      ensures pairs == DeleteKey(old(pairs), key)
    {
      for i := 0 to |pairs|
        invariant pairs == old(pairs)
        invariant forall j :: 0 <= j < i ==> pairs[j].key != key
      {
        if pairs[i].key == key {
          DeleteFirst(pairs, i, key);
          pairs := pairs[..i] + pairs[i + 1..];
          return;
        }
      }
      DeleteFirst(pairs, |pairs|, key);
    }

    method WithoutKeyCopy(key: string) returns (out: seq<Pair>)
      ensures out == WithoutKey(pairs, key)
    {
      out := [];
      for i := 0 to |pairs|
        invariant WithoutKey(pairs, key) == out + WithoutKey(pairs[i..], key)
      {
        assert pairs[i..][1..] == pairs[i + 1..];
        if pairs[i].key != key {
          out := out + [pairs[i]];
        }
      }
    }

    method KeysInSlice() returns (keys: seq<string>)
      ensures keys == Keys(pairs)
    {
      keys := [];
      for i := 0 to |pairs|
        invariant Keys(pairs) == keys + Keys(pairs[i..])
      {
        assert pairs[i..][1..] == pairs[i + 1..];
        keys := keys + [pairs[i].key];
      }
    }

    method KeysInOrder() returns (keys: seq<string>)
      ensures keys == SortedKeys(pairs)
    {
      var unsorted := KeysInSlice();
      keys := SortStrings(unsorted);
    }
  }

  // --------------------------------------------------------------------- laws

  lemma {:induction false} KeysMembership(ps: seq<Pair>, k: string)
    ensures k in Keys(ps) <==> HasKey(ps, k)
    ensures HasKey(ps, k) <==> exists i :: 0 <= i < |ps| && ps[i].key == k
  {
    if ps != [] {
      KeysMembership(ps[1..], k);
      if HasKey(ps[1..], k) {
        var i :| 0 <= i < |ps[1..]| && ps[1..][i].key == k;
        assert ps[i + 1].key == k;
      }
    }
  }

  lemma {:induction false} UniquePosition(ps: seq<Pair>, i: nat)
    requires UniqueKeys(ps) && i < |ps|
    ensures HasKey(ps, ps[i].key) && Find(ps, ps[i].key) == i
  {
    KeysMembership(ps, ps[i].key);
    if i > 0 {
      KeysMembership(ps[1..], ps[i].key);
      assert ps[1..][i - 1] == ps[i];
      UniquePosition(ps[1..], i - 1);
    }
  }

  lemma {:induction false} HasKeyAppend(ps: seq<Pair>, qs: seq<Pair>, k: string)
    ensures HasKey(ps + qs, k) <==> HasKey(ps, k) || HasKey(qs, k)
  {
    if ps == [] {
      assert ps + qs == qs;
    } else {
      assert (ps + qs)[1..] == ps[1..] + qs;
      HasKeyAppend(ps[1..], qs, k);
    }
  }

  /** What a later `Get` sees after a `Set`, and that `Set` keeps keys unique. */
  lemma {:induction false} GetAfterSet(ps: seq<Pair>, k: string, v: Value, other: string)
    ensures Get(SetKey(ps, k, v), other) == if other == k then Some(v) else Get(ps, other)
    ensures HasKey(SetKey(ps, k, v), other) <==> other == k || HasKey(ps, other)
    ensures UniqueKeys(ps) ==> UniqueKeys(SetKey(ps, k, v))
  {
    if ps == [] {
    } else {
      Cons(ps[0], ps[1..], other);
      assert ps == [ps[0]] + ps[1..];
      if ps[0].key == k {
        Cons(Pair(k, v), ps[1..], other);
      } else {
        Cons(ps[0], SetKey(ps[1..], k, v), other);
        hide Get, HasKey, UniqueKeys;
        GetAfterSet(ps[1..], k, v, other);
        GetAfterSet(ps[1..], k, v, ps[0].key);
      }
    }
  }

  lemma Cons(p: Pair, rest: seq<Pair>, k: string)
    ensures Get([p] + rest, k) == if p.key == k then Some(p.value) else Get(rest, k)
    ensures HasKey([p] + rest, k) <==> p.key == k || HasKey(rest, k)
    ensures UniqueKeys([p] + rest) <==> !HasKey(rest, p.key) && UniqueKeys(rest)
  {
    assert ([p] + rest)[1..] == rest;
  }

  lemma {:induction false} GetAfterDelete(ps: seq<Pair>, k: string, other: string)
    requires UniqueKeys(ps)
    ensures Get(DeleteKey(ps, k), other) == if other == k then None else Get(ps, other)
    ensures HasKey(DeleteKey(ps, k), other) <==> other != k && HasKey(ps, other)
    ensures UniqueKeys(DeleteKey(ps, k))
  {
    if ps != [] && ps[0].key != k {
      assert DeleteKey(ps, k)[1..] == DeleteKey(ps[1..], k);
      GetAfterDelete(ps[1..], k, other);
      GetAfterDelete(ps[1..], k, ps[0].key);
    }
  }

  /** On unique keys deleting the first occurrence and dropping all of them agree. */
  lemma {:induction false} DeleteIsWithout(ps: seq<Pair>, k: string)
    requires UniqueKeys(ps)
    ensures DeleteKey(ps, k) == WithoutKey(ps, k)
    ensures !HasKey(ps, k) ==> WithoutKey(ps, k) == ps
  {
    if ps != [] {
      DeleteIsWithout(ps[1..], k);
      assert ps == [ps[0]] + ps[1..];
    }
  }

  lemma {:induction false} SetElements(ps: seq<Pair>, k: string, v: Value)
    ensures var r := SetKey(ps, k, v); forall i :: 0 <= i < |r| ==> r[i] == Pair(k, v) || r[i] in ps
  {
    if ps != [] {
      var r := SetKey(ps, k, v);
      SetElements(ps[1..], k, v);
      forall i | 0 < i < |r| ensures r[i] == Pair(k, v) || r[i] in ps {
        if ps[0].key == k {
          assert r[i] == ps[i];
        } else {
          assert r[i] == SetKey(ps[1..], k, v)[i - 1];
        }
      }
    }
  }

  lemma {:induction false} SetAppends(ps: seq<Pair>, k: string, v: Value)
    requires !HasKey(ps, k)
    ensures SetKey(ps, k, v) == ps + [Pair(k, v)]
  {
    if ps != [] {
      SetAppends(ps[1..], k, v);
    }
  }

  lemma {:induction false} SetReplacesLast(ps: seq<Pair>, k: string, u: Value, v: Value)
    requires !HasKey(ps, k)
    ensures Get(ps + [Pair(k, u)], k) == Some(u)
    ensures SetKey(ps + [Pair(k, u)], k, v) == ps + [Pair(k, v)]
  {
    if ps == [] {
      assert [] + [Pair(k, u)] == [Pair(k, u)] && [] + [Pair(k, v)] == [Pair(k, v)];
    } else {
      var rest := ps[1..] + [Pair(k, u)];
      assert ps + [Pair(k, u)] == [ps[0]] + rest && ps + [Pair(k, v)] == [ps[0]] + (ps[1..] + [Pair(k, v)]);
      assert ([ps[0]] + rest)[1..] == rest;
      SetReplacesLast(ps[1..], k, u, v);
      Cons(ps[0], rest, k);
      hide Get, HasKey;
    }
  }
}
