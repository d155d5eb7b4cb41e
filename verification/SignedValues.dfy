/** The list of signed values survives printing and parsing, even where the tree does not. */
module SignedValues {
  import opened Text
  import opened OrdMaps
  import opened Signature
  import opened Xml
  import opened XmlParser

  // -------------------------------- CollectValues as a stable sort of the pairs

  /** A key with the values that it contributes. */
  datatype Entry = Entry(key: string, vals: seq<string>)

  function Entries(ps: seq<Pair>): seq<Entry> {
    if ps == [] then [] else [Entry(ps[0].key, CollectValues(ps[0].value))] + Entries(ps[1..])
  }

  function InsertEntry(e: Entry, es: seq<Entry>): (r: seq<Entry>)
    ensures forall x :: x in r <==> x == e || x in es
  {
    if es == [] then [e]
    else if Leq(e.key, es[0].key) then [e] + es
    else [es[0]] + InsertEntry(e, es[1..])
  }

  function SortEntries(es: seq<Entry>): (r: seq<Entry>)
    ensures forall x :: x in r <==> x in es
  {
    if es == [] then [] else InsertEntry(es[0], SortEntries(es[1..]))
  }

  function EntryKeys(es: seq<Entry>): seq<string> {
    if es == [] then [] else [es[0].key] + EntryKeys(es[1..])
  }

  function Flat(es: seq<Entry>): seq<string> {
    if es == [] then [] else es[0].vals + Flat(es[1..])
  }

  lemma {:induction false} InsertAgrees(e: Entry, es: seq<Entry>)
    ensures EntryKeys(InsertEntry(e, es)) == InsertString(e.key, EntryKeys(es))
  {
    if es != [] {
      assert EntryKeys(es)[1..] == EntryKeys(es[1..]);
      if Leq(e.key, es[0].key) {
        assert ([e] + es)[1..] == es;
      } else {
        InsertAgrees(e, es[1..]);
        assert InsertEntry(e, es)[1..] == InsertEntry(e, es[1..]);
      }
    }
  }

  lemma {:induction false} SortAgrees(ps: seq<Pair>)
    ensures EntryKeys(SortEntries(Entries(ps))) == SortedKeys(ps)
  {
    if ps != [] {
      var es := Entries(ps);
      assert es[1..] == Entries(ps[1..]) && Keys(ps)[1..] == Keys(ps[1..]);
      SortAgrees(ps[1..]);
      InsertAgrees(es[0], SortEntries(es[1..]));
    }
  }

  ghost predicate Describes(ps: seq<Pair>, e: Entry) {
    HasKey(ps, e.key) && e.vals == CollectValues(ps[Find(ps, e.key)].value)
  }

  lemma {:induction false} EntriesIndexed(ps: seq<Pair>)
    ensures |Entries(ps)| == |ps|
    ensures forall i :: 0 <= i < |ps| ==> Entries(ps)[i] == Entry(ps[i].key, CollectValues(ps[i].value))
  {
    if ps != [] {
      EntriesIndexed(ps[1..]);
      forall i | 0 < i < |ps| ensures Entries(ps)[i] == Entry(ps[i].key, CollectValues(ps[i].value)) {
        assert ps[i] == ps[1..][i - 1];
      }
    }
  }

  lemma {:induction false} CollectListed(ps: seq<Pair>, es: seq<Entry>)
    requires forall e :: e in es ==> Describes(ps, e)
    ensures forall k :: k in EntryKeys(es) ==> HasKey(ps, k)
    ensures CollectKeys(ps, EntryKeys(es)) == Flat(es)
  {
    if es != [] {
      assert es[0] in es && forall e :: e in es[1..] ==> e in es;
      CollectListed(ps, es[1..]);
      assert EntryKeys(es)[1..] == EntryKeys(es[1..]);
    }
  }

  lemma CollectIsSortedFlat(ps: seq<Pair>)
    requires UniqueKeys(ps)
    ensures CollectValues(Map(OrdMap(ps))) == Flat(SortEntries(Entries(ps)))
  {
    var es := SortEntries(Entries(ps));
    forall e | e in es ensures Describes(ps, e) {
      EntriesIndexed(ps);
      var i :| 0 <= i < |Entries(ps)| && Entries(ps)[i] == e;
      UniquePosition(ps, i);
    }
    CollectListed(ps, es);
    SortAgrees(ps);
    KeysAreKeys(ps);
  }

  // ------------------------------------------- entries that contribute nothing

  function NonEmpty(es: seq<Entry>): seq<Entry> {
    if es == [] then [] else (if es[0].vals == [] then [] else [es[0]]) + NonEmpty(es[1..])
  }

  lemma {:induction false} FlatNonEmpty(es: seq<Entry>)
    ensures Flat(NonEmpty(es)) == Flat(es)
  {
    if es != [] {
      FlatNonEmpty(es[1..]);
      if es[0].vals != [] {
        assert NonEmpty(es)[1..] == NonEmpty(es[1..]);
      } else {
        assert NonEmpty(es) == NonEmpty(es[1..]);
      }
    }
  }

  ghost predicate SortedEntries(es: seq<Entry>) {
    es != [] ==> (forall e :: e in es[1..] ==> Leq(es[0].key, e.key)) && SortedEntries(es[1..])
  }

  lemma {:induction false} InsertSorted(e: Entry, es: seq<Entry>)
    requires SortedEntries(es)
    ensures SortedEntries(InsertEntry(e, es))
  {
    if es != [] {
      if Leq(e.key, es[0].key) {
        assert ([e] + es)[1..] == es;
        forall x | x in es ensures Leq(e.key, x.key) {
          if x in es[1..] { LeqTransitive(e.key, es[0].key, x.key); }
        }
      } else {
        LeqTotal(e.key, es[0].key);
        InsertSorted(e, es[1..]);
        assert InsertEntry(e, es)[1..] == InsertEntry(e, es[1..]);
      }
    }
  }

  lemma {:induction false} SortIsSorted(es: seq<Entry>)
    ensures SortedEntries(SortEntries(es))
  {
    if es != [] {
      SortIsSorted(es[1..]);
      InsertSorted(es[0], SortEntries(es[1..]));
    }
  }

  lemma {:induction false} NonEmptyMembers(es: seq<Entry>, e: Entry)
    ensures e in NonEmpty(es) ==> e in es
  {
    if es != [] { NonEmptyMembers(es[1..], e); }
  }

  lemma {:induction false} InsertBefore(e: Entry, es: seq<Entry>)
    requires forall x :: x in es ==> Leq(e.key, x.key)
    ensures InsertEntry(e, es) == [e] + es
  {
  }

  lemma {:induction false} NonEmptyInsert(e: Entry, es: seq<Entry>)
    requires SortedEntries(es)
    ensures NonEmpty(InsertEntry(e, es)) == if e.vals == [] then NonEmpty(es) else InsertEntry(e, NonEmpty(es))
  {
    if es == [] {
    } else if Leq(e.key, es[0].key) {
      assert ([e] + es)[1..] == es;
      forall x | x in NonEmpty(es) ensures Leq(e.key, x.key) {
        NonEmptyMembers(es, x);
        if x in es[1..] { LeqTransitive(e.key, es[0].key, x.key); }
      }
      InsertBefore(e, NonEmpty(es));
    } else {
      NonEmptyInsert(e, es[1..]);
      assert InsertEntry(e, es)[1..] == InsertEntry(e, es[1..]);
      if es[0].vals != [] {
        assert NonEmpty(es)[1..] == NonEmpty(es[1..]);
      } else {
        assert NonEmpty(es) == NonEmpty(es[1..]);
      }
    }
  }

  lemma {:induction false} NonEmptySort(es: seq<Entry>)
    ensures NonEmpty(SortEntries(es)) == SortEntries(NonEmpty(es))
  {
    if es != [] {
      SortIsSorted(es[1..]);
      NonEmptyInsert(es[0], SortEntries(es[1..]));
      NonEmptySort(es[1..]);
      if es[0].vals != [] {
        assert NonEmpty(es)[1..] == NonEmpty(es[1..]);
      } else {
        assert NonEmpty(es) == NonEmpty(es[1..]);
      }
    }
  }

  // ------------------------------------------------------- values on the wire

  /** The values a receiver signs: each leaf as the wire changes it, dropped when nothing is left. */
  function WireValues(xs: seq<string>): seq<string> {
    if xs == [] then [] else (if Wire(xs[0]) == "" then [] else [Wire(xs[0])]) + WireValues(xs[1..])
  }

  lemma {:induction false} WireValuesAppend(xs: seq<string>, ys: seq<string>)
    ensures WireValues(xs + ys) == WireValues(xs) + WireValues(ys)
  {
    hide Wire;
    if xs == [] {
      assert xs + ys == ys;
    } else {
      assert (xs + ys)[1..] == xs[1..] + ys;
      WireValuesAppend(xs[1..], ys);
      var first := if Wire(xs[0]) == "" then [] else [Wire(xs[0])];
      assert first + (WireValues(xs[1..]) + WireValues(ys)) == first + WireValues(xs[1..]) + WireValues(ys);
    }
  }

  function WireEntries(es: seq<Entry>): seq<Entry> {
    if es == [] then [] else [Entry(es[0].key, WireValues(es[0].vals))] + WireEntries(es[1..])
  }

  lemma {:induction false} WireInsert(e: Entry, es: seq<Entry>)
    ensures WireEntries(InsertEntry(e, es)) == InsertEntry(Entry(e.key, WireValues(e.vals)), WireEntries(es))
  {
    if es != [] {
      assert WireEntries(es)[1..] == WireEntries(es[1..]);
      if Leq(e.key, es[0].key) {
        assert ([e] + es)[1..] == es;
      } else {
        WireInsert(e, es[1..]);
        assert InsertEntry(e, es)[1..] == InsertEntry(e, es[1..]);
      }
    }
  }

  lemma {:induction false} WireSort(es: seq<Entry>)
    ensures WireEntries(SortEntries(es)) == SortEntries(WireEntries(es))
  {
    if es != [] {
      assert WireEntries(es)[1..] == WireEntries(es[1..]);
      WireSort(es[1..]);
      WireInsert(es[0], SortEntries(es[1..]));
    }
  }

  lemma {:induction false} WireFlat(es: seq<Entry>)
    ensures Flat(WireEntries(es)) == WireValues(Flat(es))
  {
    if es != [] {
      assert WireEntries(es)[1..] == WireEntries(es[1..]);
      WireFlat(es[1..]);
      WireValuesAppend(es[0].vals, Flat(es[1..]));
    }
  }

  lemma {:induction false} BlankVanishes(ps: seq<Pair>)
    requires Blank(ps)
    ensures NormPairs(ps) == []
  {
    if ps != [] { BlankVanishes(ps[1..]); }
  }

  // ------------------------------------------------------------- main theorem

  /** Collapsed, emptied and dropped elements change the tree, never the list of signed values. */
  lemma {:induction false} ValuesSurviveWire(ps: seq<Pair>)
    requires WellFormed(ps)
    ensures CollectValues(Map(OrdMap(NormPairs(ps)))) == WireValues(CollectValues(Map(OrdMap(ps))))
    decreases ps, 1
  {
    NormKeepsKeysUnique(ps, "");
    var before, after := Entries(ps), Entries(NormPairs(ps));
    CollectIsSortedFlat(ps);
    CollectIsSortedFlat(NormPairs(ps));
    EntriesSurviveWire(ps);
    calc {
      Flat(SortEntries(after));
      { FlatNonEmpty(SortEntries(after)); NonEmptySort(after); }
      Flat(SortEntries(NonEmpty(after)));
      Flat(SortEntries(NonEmpty(WireEntries(before))));
      { FlatNonEmpty(SortEntries(WireEntries(before))); NonEmptySort(WireEntries(before)); }
      Flat(SortEntries(WireEntries(before)));
      { WireSort(before); WireFlat(SortEntries(before)); }
      WireValues(Flat(SortEntries(before)));
    }
  }

  lemma {:induction false} EntriesSurviveWire(ps: seq<Pair>)
    requires WellFormed(ps)
    ensures NonEmpty(Entries(NormPairs(ps))) == NonEmpty(WireEntries(Entries(ps)))
    decreases ps, 0
  {
    if ps != [] {
      var k, v := ps[0].key, ps[0].value;
      WellFormedParts(ps);
      EntriesSurviveWire(ps[1..]);
      ValueSurvivesWire(k, v);
      assert Entries(ps)[1..] == Entries(ps[1..]);
      assert WireEntries(Entries(ps))[1..] == WireEntries(Entries(ps[1..]));
      if NormPair(k, v) == [] {
        assert NormPairs(ps) == NormPairs(ps[1..]);
      } else {
        assert NormPairs(ps)[1..] == NormPairs(ps[1..]);
        assert Entries(NormPairs(ps))[1..] == Entries(NormPairs(ps[1..]));
      }
    }
  }

  lemma {:induction false} ValueSurvivesWire(k: string, v: Value)
    requires WellFormedValue(v)
    ensures |NormPair(k, v)| <= 1
    ensures NormPair(k, v) == [] ==> WireValues(CollectValues(v)) == []
    ensures NormPair(k, v) != [] ==> NormPair(k, v)[0].key == k
                                     && CollectValues(NormPair(k, v)[0].value) == WireValues(CollectValues(v))
    decreases v, 0
  {
    match v
    case Str(s) =>
    case Map(m) =>
      ValuesSurviveWire(m.pairs);
      if Blank(m.pairs) { BlankVanishes(m.pairs); }
    case List(items) =>
      ItemsSurviveWire(items);
      CollapseKeepsValues(NonBlank(items));
  }

  lemma CollapseKeepsValues(maps: seq<OrdMap>)
    ensures CollectValues(Collapse(maps)) == CollectItems(maps)
  {
    if |maps| == 1 {
      KeysAreKeys(maps[0].pairs);
      assert CollectItems(maps[1..]) == [];
    }
  }

  lemma {:induction false} ItemsSurviveWire(items: seq<OrdMap>)
    requires forall i :: 0 <= i < |items| ==> WellFormed(items[i].pairs)
    ensures CollectItems(NonBlank(items)) == WireValues(CollectItems(items))
    decreases items
  {
    if items != [] {
      ValuesSurviveWire(items[0].pairs);
      ItemsSurviveWire(items[1..]);
      WireValuesAppend(CollectValues(Map(items[0])), CollectItems(items[1..]));
      assert Map(OrdMap(items[0].pairs)) == Map(items[0]);
      if Blank(items[0].pairs) {
        BlankVanishes(items[0].pairs);
        assert NonBlank(items) == NonBlank(items[1..]);
      } else {
        assert NonBlank(items)[1..] == NonBlank(items[1..]);
        assert CollectItems(NonBlank(items))
            == CollectValues(Map(OrdMap(NormPairs(items[0].pairs)))) + CollectItems(NonBlank(items[1..]));
      }
    }
  }

  /** What a receiver signs, for every printable map: the sender's values, each as the wire changes it. */
  lemma ParsedValuesAreWireValues(root: string, m: OrdMap)
    requires IsName(root) && WellFormed(m.pairs) && LegalPairs(m.pairs)
    ensures var r := ParseText(RenderResponse(root, m));
            r.Ok? && CollectValues(Map(r.value)) == WireValues(CollectValues(Map(m)))
  {
    ParsePrinted(root, m);
    ValuesSurviveWire(m.pairs);
    assert OrdMap(m.pairs) == m;
  }
}
