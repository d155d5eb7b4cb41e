/** Exactly when editing the printed body equals editing the map. */
module TagExact {
  import opened Text
  import opened OrdMaps
  import opened Xml
  import opened TagSurgery
  import opened TagDepth

  // -------------------------------------------- where the search finds its tag

  /** Text around the first opening tag and the first closing tag behind it. */
  datatype Parts = Parts(x: string, y: string, z: string)

  function Joined(p: Parts, k: string): string {
    p.x + OpenTag(k) + p.y + CloseTag(k) + p.z
  }

  ghost function SplitPairs(ps: seq<Pair>, k: string): Parts
    requires !TagFree(ps, k)
    decreases ps, 1
  {
    if TagFreeValue(ps[0].key, ps[0].value, k) then
      TagFreeTail(ps, k);
      var p := SplitPairs(ps[1..], k);
      Parts(RenderValue(ps[0].key, ps[0].value) + p.x, p.y, p.z)
    else
      var p := SplitValue(ps[0].key, ps[0].value, k);
      Parts(p.x, p.y, p.z + RenderPairs(ps[1..]))
  }

  lemma TagFreeTail(ps: seq<Pair>, k: string)
    requires ps != []
    ensures TagFree(ps, k) <==> TagFreeValue(ps[0].key, ps[0].value, k) && TagFree(ps[1..], k)
  {
    assert forall i :: 0 <= i < |ps[1..]| ==> ps[1..][i] == ps[i + 1];
    assert forall i :: 0 < i < |ps| ==> ps[i] == ps[1..][i - 1];
  }

  ghost function SplitValue(t: string, v: Value, k: string): Parts
    requires !TagFreeValue(t, v, k)
    decreases v, 1
  {
    match v
    case Str(s) => Parts("", Escape(s), "")
    case Map(m) => SplitElement(t, m, k)
    case List(items) => SplitItems(t, items, k)
  }

  ghost function SplitElement(t: string, m: OrdMap, k: string): Parts
    requires t == k || !TagFree(m.pairs, k)
    decreases m, 0
  {
    if TagFree(m.pairs, k) then Parts("", RenderPairs(m.pairs), "")
    else
      var p := SplitPairs(m.pairs, k);
      if t == k then Parts("", p.x + OpenTag(k) + p.y, p.z + CloseTag(t))
      else Parts(OpenTag(t) + p.x, p.y, p.z + CloseTag(t))
  }

  ghost function SplitItems(t: string, items: seq<OrdMap>, k: string): Parts
    requires items != [] && (t == k || exists i :: 0 <= i < |items| && !TagFree(items[i].pairs, k))
    decreases items, 1
  {
    if t == k || !TagFree(items[0].pairs, k) then
      var p := SplitElement(t, items[0], k);
      Parts(p.x, p.y, p.z + RenderItems(t, items[1..]))
    else
      TagFreeItemsTail(items, k);
      var p := SplitItems(t, items[1..], k);
      Parts(OpenTag(t) + RenderPairs(items[0].pairs) + CloseTag(t) + p.x, p.y, p.z)
  }

  lemma {:induction false} TagFreeItemsTail(items: seq<OrdMap>, k: string)
    requires items != [] && TagFree(items[0].pairs, k) && exists i :: 0 <= i < |items| && !TagFree(items[i].pairs, k)
    ensures items[1..] != [] && exists i :: 0 <= i < |items[1..]| && !TagFree(items[1..][i].pairs, k)
  {
    var i :| 0 <= i < |items| && !TagFree(items[i].pairs, k);
    assert items[i] == items[1..][i - 1];
  }

  /** The parts make up the text, the searches come to the two tags first, and neither part dips below its ground. */
  ghost predicate Splits(text: string, p: Parts, k: string) {
    && text == Joined(p, k)
    && Skips(p.x, OpenTag(k)) && Skips(p.x, CloseTag(k)) && Skips(p.y, CloseTag(k))
    && Whole(p.x) && Above(p.x, 0) && Whole(p.y) && Above(p.y, 0)
  }

  /** A complete print in which no tag `k` begins. */
  ghost predicate Clear(text: string, k: string) {
    Level(text) && Skips(text, OpenTag(k)) && Skips(text, CloseTag(k))
  }

  lemma JoinedAfter(a: string, p: Parts, k: string)
    ensures a + Joined(p, k) == Joined(Parts(a + p.x, p.y, p.z), k)
  {
    var o, c := OpenTag(k), CloseTag(k);
    Assoc(a, p.x + o + p.y + c, p.z);
    Assoc(a, p.x + o + p.y, c);
    Assoc(a, p.x + o, p.y);
    Assoc(a, p.x, o);
  }

  lemma JoinedBefore(p: Parts, b: string, k: string)
    ensures Joined(p, k) + b == Joined(Parts(p.x, p.y, p.z + b), k)
  {
    Assoc(p.x + OpenTag(k) + p.y + CloseTag(k), p.z, b);
  }

  lemma JoinedInside(p: Parts, k: string)
    ensures OpenTag(k) + Joined(p, k) + CloseTag(k) == Joined(Parts("", p.x + OpenTag(k) + p.y, p.z + CloseTag(k)), k)
  {
    var o, c := OpenTag(k), CloseTag(k);
    JoinedAfter(o, p, k);
    Assoc(o, p.x, o);
    Assoc(o, p.x + o, p.y);
    JoinedBefore(Parts(o + p.x, p.y, p.z), c, k);
    assert "" + o == o;
  }

  lemma SplitsAfter(a: string, text: string, p: Parts, k: string)
    requires Clear(a, k) && Splits(text, p, k)
    ensures Splits(a + text, Parts(a + p.x, p.y, p.z), k)
  {
    hide OpenTag, CloseTag, Depth, Whole, Above, Skips, Joined;
    JoinedAfter(a, p, k);
    SkipsBoth(a, p.x, OpenTag(k));
    SkipsBoth(a, p.x, CloseTag(k));
    WholeAdds(a, p.x);
    AboveAdds(a, p.x, 0);
  }

  lemma SplitsBefore(text: string, b: string, p: Parts, k: string)
    requires Splits(text, p, k)
    ensures Splits(text + b, Parts(p.x, p.y, p.z + b), k)
  {
    hide OpenTag, CloseTag, Depth, Whole, Above, Skips, Joined;
    JoinedBefore(p, b, k);
  }

  /** Inside an element of another name the parts lie one level deeper. */
  lemma SplitsInside(t: string, text: string, p: Parts, k: string)
    requires IsName(t) && IsName(k) && t != k && Splits(text, p, k)
    ensures Splits(OpenTag(t) + text + CloseTag(t), Parts(OpenTag(t) + p.x, p.y, p.z + CloseTag(t)), k)
    ensures Depth(OpenTag(t) + p.x) >= 1
  {
    hide Depth, Whole, Above, Skips, Joined;
    var open := OpenTag(t);
    NameTags(t);
    NamesDiffer(t, k, k);
    NamesDiffer(t, "/" + k, k);
    assert Tag("/" + k) == CloseTag(k) && Tag(k) == OpenTag(k);
    hide OpenTag, CloseTag, Tag;
    JoinedAfter(open, p, k);
    SplitsBefore(open + text, CloseTag(t), Parts(open + p.x, p.y, p.z), k) by {
      SkipsBoth(open, p.x, OpenTag(k));
      SkipsBoth(open, p.x, CloseTag(k));
      WholeAdds(open, p.x);
      AboveWeakens(p.x, 0, 1);
      AboveAdds(open, p.x, 0);
    }
    DepthAdds(open, p.x);
    FullDepth(p.x, 0);
  }

  /** Inside an element of the same name the search stops at that element and runs into the nested closing tag. */
  lemma SplitsNested(text: string, p: Parts, k: string)
    requires IsName(k) && Splits(text, p, k)
    ensures Splits(OpenTag(k) + text + CloseTag(k), Parts("", p.x + OpenTag(k) + p.y, p.z + CloseTag(k)), k)
  {
    hide OpenTag, CloseTag, Depth, Whole, Above, Skips, Joined;
    var open := OpenTag(k);
    JoinedInside(p, k);
    NameTags(k);
    OpenSkipsClose(k);
    SkipsBoth(p.x, open, CloseTag(k));
    SkipsBoth(p.x + open, p.y, CloseTag(k));
    WholeAdds(p.x, open);
    WholeAdds(p.x + open, p.y);
    DepthAdds(p.x, open);
    FullDepth(p.x, 0);
    AboveWeakens(open, 0, Depth(p.x));
    AboveAdds(p.x, open, 0);
    AboveWeakens(p.y, 0, Depth(p.x + open));
    AboveAdds(p.x + open, p.y, 0);
    NothingIsClear(k);
  }

  lemma NothingIsClear(k: string)
    requires IsName(k)
    ensures Clear("", k) && Whole("") && Above("", 0) && Skips("", OpenTag(k)) && Skips("", CloseTag(k))
  {
    NothingIsLevel();
    SkipsText("", OpenTag(k));
    SkipsText("", CloseTag(k));
  }

  lemma SplitsPlain(text: string, k: string)
    requires IsName(k) && Clear(text, k)
    ensures Splits(OpenTag(k) + text + CloseTag(k), Parts("", text, ""), k)
  {
    hide Depth, Whole, Above, Skips;
    NothingIsClear(k);
    var o, c := OpenTag(k), CloseTag(k);
    hide OpenTag, CloseTag;
    assert "" + o == o && o + text + c + "" == o + text + c;
  }

  lemma PairsAreClear(ps: seq<Pair>, k: string)
    requires WellFormed(ps) && TagFree(ps, k) && IsName(k)
    ensures Clear(RenderPairs(ps), k)
  {
    PairsAreLevel(ps);
    SkipsPairs(ps, k, k);
    SkipsPairs(ps, "/" + k, k);
    assert Tag("/" + k) == CloseTag(k) && Tag(k) == OpenTag(k);
  }

  lemma ValueIsClear(t: string, v: Value, k: string)
    requires IsName(t) && WellFormedValue(v) && TagFreeValue(t, v, k) && IsName(k)
    ensures Clear(RenderValue(t, v), k)
  {
    ValueIsLevel(t, v);
    SkipsValue(t, v, k, k);
    SkipsValue(t, v, "/" + k, k);
    assert Tag("/" + k) == CloseTag(k) && Tag(k) == OpenTag(k);
  }

  /** The parts of a printed map; a key that its top level does not hold is found below some other element. */
  lemma {:induction false} PairsSplit(ps: seq<Pair>, k: string)
    requires WellFormed(ps) && IsName(k) && !TagFree(ps, k)
    ensures Splits(RenderPairs(ps), SplitPairs(ps, k), k)
    ensures !HasKey(ps, k) ==> Depth(SplitPairs(ps, k).x) >= 1
    decreases ps, 1
  {
    hide Splits, Depth, Clear, RenderValue;
    WellFormedParts(ps);
    TagFreeTail(ps, k);
    var first, rest := RenderValue(ps[0].key, ps[0].value), RenderPairs(ps[1..]);
    if TagFreeValue(ps[0].key, ps[0].value, k) {
      var p := SplitPairs(ps[1..], k);
      PairsSplit(ps[1..], k);
      ValueIsClear(ps[0].key, ps[0].value, k);
      SplitsAfter(first, rest, p, k);
      DepthAfter(first, p.x, k);
    } else {
      ValueSplit(ps[0].key, ps[0].value, k);
      SplitsBefore(first, rest, SplitValue(ps[0].key, ps[0].value, k), k);
    }
  }

  lemma DepthAfter(a: string, x: string, k: string)
    requires Clear(a, k)
    ensures Depth(a + x) == Depth(x)
  {
    DepthAdds(a, x);
  }

  lemma {:induction false} ValueSplit(t: string, v: Value, k: string)
    requires IsName(t) && WellFormedValue(v) && IsName(k) && !TagFreeValue(t, v, k)
    ensures Splits(RenderValue(t, v), SplitValue(t, v, k), k)
    ensures if t == k then SplitValue(t, v, k).x == "" else Depth(SplitValue(t, v, k).x) >= 1
    decreases v, 1
  {
    hide Splits, Depth, Clear;
    match v
    case Str(s) =>
      TextIsClear(Escape(s), k);
      SplitsPlain(Escape(s), k);
    case Map(m) =>
      ElementSplit(t, m, k);
    case List(items) =>
      ItemsSplit(t, items, k);
  }

  lemma TextIsClear(s: string, k: string)
    requires '<' !in s && IsName(k)
    ensures Clear(s, k)
  {
    TextAbove(s);
    SkipsText(s, OpenTag(k));
    SkipsText(s, CloseTag(k));
  }

  lemma {:induction false} ElementSplit(t: string, m: OrdMap, k: string)
    requires IsName(t) && WellFormed(m.pairs) && IsName(k) && (t == k || !TagFree(m.pairs, k))
    ensures Splits(OpenTag(t) + RenderPairs(m.pairs) + CloseTag(t), SplitElement(t, m, k), k)
    ensures if t == k then SplitElement(t, m, k).x == "" else Depth(SplitElement(t, m, k).x) >= 1
    decreases m, 0
  {
    hide Splits, Depth, Clear;
    var text := RenderPairs(m.pairs);
    if TagFree(m.pairs, k) {
      PairsAreClear(m.pairs, k);
      SplitsPlain(text, k);
    } else {
      PairsSplit(m.pairs, k);
      if t == k {
        SplitsNested(text, SplitPairs(m.pairs, k), k);
      } else {
        SplitsInside(t, text, SplitPairs(m.pairs, k), k);
      }
    }
  }

  lemma {:induction false} ItemsSplit(t: string, items: seq<OrdMap>, k: string)
    requires IsName(t) && IsName(k) && forall i :: 0 <= i < |items| ==> WellFormed(items[i].pairs)
    requires items != [] && (t == k || exists i :: 0 <= i < |items| && !TagFree(items[i].pairs, k))
    ensures Splits(RenderItems(t, items), SplitItems(t, items, k), k)
    ensures if t == k then SplitItems(t, items, k).x == "" else Depth(SplitItems(t, items, k).x) >= 1
    decreases items, 1
  {
    hide Splits, Depth, Clear;
    var first := OpenTag(t) + RenderPairs(items[0].pairs) + CloseTag(t);
    var rest := RenderItems(t, items[1..]);
    if t == k || !TagFree(items[0].pairs, k) {
      ElementSplit(t, items[0], k);
      SplitsBefore(first, rest, SplitElement(t, items[0], k), k);
    } else {
      TagFreeItemsTail(items, k);
      ItemsSplit(t, items[1..], k);
      FirstItemIsClear(t, items[0], k);
      var p := SplitItems(t, items[1..], k);
      SplitsAfter(first, rest, p, k);
      DepthAfter(first, p.x, k);
    }
  }

  lemma FirstItemIsClear(t: string, m: OrdMap, k: string)
    requires IsName(t) && IsName(k) && t != k && WellFormed(m.pairs) && TagFree(m.pairs, k)
    ensures Clear(OpenTag(t) + RenderPairs(m.pairs) + CloseTag(t), k)
  {
    assert RenderValue(t, Map(m)) == OpenTag(t) + RenderPairs(m.pairs) + CloseTag(t);
    ValueIsClear(t, Map(m), k);
  }

  // ------------------------------------------------- the edits, cut at the parts

  lemma EditSplit(pre: string, text: string, p: Parts, tail: string, k: string, value: string)
    requires IsName(k) && Skips(pre, OpenTag(k)) && Skips(pre, CloseTag(k)) && Splits(text, p, k)
    ensures RemoveTag(pre + text + tail, k) == pre + p.x + (p.z + tail)
    ensures ReplaceTagValue(pre + text + tail, k, value)
         == pre + p.x + OpenTag(k) + value + (CloseTag(k) + (p.z + tail))
  {
    hide Depth, Whole, Above, Skips, RemoveBetween, ReplaceBetween;
    var o, c := OpenTag(k), CloseTag(k);
    OpenSkipsClose(k);
    SkipsBoth(pre, p.x, o);
    SkipsBoth(pre, p.x, c);
    EditBetween(pre + p.x, o, p.y, c, p.z + tail, value);
    hide OpenTag, CloseTag;
    Spread(pre, p.x, o, p.y, c, p.z, tail);
  }

  lemma Spread(pre: string, x: string, o: string, y: string, c: string, z: string, tail: string)
    ensures pre + (x + o + y + c + z) + tail == (pre + x) + (o + (y + (c + (z + tail))))
  {
  }

  /** Cutting out an element that is nested in `text` cannot come out as moving a whole element to the end. */
  lemma NestedCutIsNoMove(text: string, p: Parts, k: string, moved: string)
    requires IsName(k) && Level(text) && Splits(text, p, k) && Depth(p.x) >= 1
    ensures p.z + moved != OpenTag(k) + p.y + CloseTag(k) + p.z
  {
    hide Above, Skips;
    var o, c := OpenTag(k), CloseTag(k);
    var cut := o + p.y + c;
    CutIsLevel(p.y, k);
    hide OpenTag, CloseTag;
    assert text == p.x + (cut + p.z) by { Assoc(p.x, cut, p.z); Spread("", p.x, o, p.y, c, p.z, ""); }
    DepthAdds(p.x, cut + p.z);
    DepthAdds(cut, p.z);
    assert p.z != "" ==> p.z[|p.z| - 1] == text[|text| - 1];
    if p.z + moved == cut + p.z {
      assert p.z[..|p.z|] == p.z;
      RestStaysAbove(cut, p.z, moved, |p.z|);
    }
  }

  lemma CutIsLevel(y: string, k: string)
    requires IsName(k) && Whole(y) && Above(y, 0)
    ensures var cut := OpenTag(k) + y + CloseTag(k); cut != "" && Whole(cut) && Above(cut, 0) && Depth(cut) >= 0
  {
    var o, c := OpenTag(k), CloseTag(k);
    NameTags(k);
    assert o + y + c != "";
    hide Depth, Above, Whole, OpenTag, CloseTag;
    WholeAdds(o, y);
    WholeAdds(o + y, c);
    DepthAdds(o, y);
    FullDepth(y, 0);
    AboveWeakens(y, 0, 1);
    AboveAdds(o, y, 0);
    AboveWeakens(c, 1, Depth(o + y));
    AboveAdds(o + y, c, 0);
    FullDepth(o + y + c, 0);
  }

  lemma Cancel(pre: string, a: string, b: string, tail: string)
    requires pre + a + tail == pre + b + tail
    ensures a == b
  {
    var s := pre + a + tail;
    assert |a| == |b|;
    assert a == s[|pre|..|pre| + |a|] && b == s[|pre|..|pre| + |b|];
  }

  // ------------------------------------------------------------- removing a tag

  /** A key with other pairs around it, as the top level holds it. */
  ghost predicate Held(root: string, before: seq<Pair>, k: string, v: Value, after: seq<Pair>) {
    && IsName(root) && IsName(k) && k != root && WellFormed(before + [Pair(k, v)] + after)
  }

  lemma HeldParts(root: string, before: seq<Pair>, k: string, v: Value, after: seq<Pair>)
    requires Held(root, before, k, v, after)
    ensures WellFormed(before) && WellFormed(after) && WellFormedValue(v) && WellFormed(before + after)
    ensures !HasKey(before, k) && !HasKey(before + after, k)
  {
    WellSplits(before + [Pair(k, v)], after);
    WellSplits(before, [Pair(k, v)]);
    assert WellPair([Pair(k, v)][0]);
    UniqueParts(before, Pair(k, v), after);
    WellJoins(before, after);
  }

  ghost predicate WellPair(p: Pair) { IsName(p.key) && WellFormedValue(p.value) }

  ghost predicate WellPairs(ps: seq<Pair>) { forall i :: 0 <= i < |ps| ==> WellPair(ps[i]) }

  lemma WellSplits(a: seq<Pair>, b: seq<Pair>)
    ensures WellPairs(a + b) ==> WellPairs(a) && WellPairs(b)
  {
    hide WellPair;
    assert forall i :: 0 <= i < |a| ==> a[i] == (a + b)[i];
    assert forall i :: 0 <= i < |b| ==> b[i] == (a + b)[|a| + i];
  }

  lemma WellJoins(a: seq<Pair>, b: seq<Pair>)
    ensures WellPairs(a) && WellPairs(b) ==> WellPairs(a + b)
  {
    hide WellPair;
  }

  lemma {:induction false} UniqueParts(before: seq<Pair>, p: Pair, after: seq<Pair>)
    requires UniqueKeys(before + [p] + after)
    ensures UniqueKeys(before) && UniqueKeys(after) && UniqueKeys(before + after)
    ensures !HasKey(before, p.key) && !HasKey(before + after, p.key)
  {
    if before == [] {
      assert [] + [p] + after == [p] + after && ([p] + after)[1..] == after && [] + after == after;
    } else {
      var rest := before[1..] + [p] + after;
      assert (before + [p] + after)[1..] == rest;
      assert (before + after)[1..] == before[1..] + after;
      UniqueParts(before[1..], p, after);
      HasKeyAppend(before[1..] + [p], after, before[0].key);
      HasKeyAppend(before[1..], [p], before[0].key);
      HasKeyAppend(before[1..], after, before[0].key);
      assert HasKey([p], before[0].key) <==> p.key == before[0].key;
    }
  }

  lemma RenderHeld(before: seq<Pair>, k: string, v: Value, after: seq<Pair>)
    ensures RenderPairs(before + [Pair(k, v)] + after) == RenderPairs(before) + RenderValue(k, v) + RenderPairs(after)
    ensures RenderPairs(before + after) == RenderPairs(before) + RenderPairs(after)
  {
    RenderAppend(before + [Pair(k, v)], after);
    RenderAppend(before, [Pair(k, v)]);
    RenderOne(Pair(k, v));
    RenderAppend(before, after);
  }

  lemma PrintHeld(head: string, end: string, root: string, before: seq<Pair>, k: string, v: Value, after: seq<Pair>)
    requires Frames(head, end, root, k)
    ensures RenderResponse(root, OrdMap(before + [Pair(k, v)] + after))
         == head + (RenderPairs(before) + RenderValue(k, v) + RenderPairs(after)) + end
    ensures RenderResponse(root, OrdMap(before + after)) == head + (RenderPairs(before) + RenderPairs(after)) + end
    ensures Skips(head, OpenTag(k)) && Skips(head, CloseTag(k))
  {
    RenderHeld(before, k, v, after);
    Framed(head, end, root, before + [Pair(k, v)] + after, k);
    Framed(head, end, root, before + after, k);
    hide Frames, RenderResponse, RenderPairs, RenderValue, Skips, OpenTag, CloseTag;
  }

  /** An earlier element of that name: the edit hits it, and the result is not the print without the key. */
  lemma RemoveHitsEarlier(root: string, before: seq<Pair>, k: string, v: Value, after: seq<Pair>)
    requires Held(root, before, k, v, after) && !TagFree(before, k)
    ensures var ps := before + [Pair(k, v)] + after;
            RemoveTag(RenderResponse(root, OrdMap(ps)), k) != RenderResponse(root, OrdMap(before + after))
  {
    hide RenderResponse, SplitPairs, Splits, Level, RenderValue, RenderPairs, RemoveTag, Skips, Depth, OpenTag,
         CloseTag;
    HeldParts(root, before, k, v, after);
    hide Held, WellFormed, TagFree;
    var head, end := FrameOf(root, k);
    var text, elem, rest := RenderPairs(before), RenderValue(k, v), RenderPairs(after);
    var p := SplitPairs(before, k);
    PairsSplit(before, k);
    PairsAreLevel(before);
    PrintHeld(head, end, root, before, k, v, after);
    hide Frames;
    NestedCutIsNoMove(text, p, k, elem);
    EditNested(head, text, p, k, elem, rest, end);
  }

  lemma EditNested(head: string, text: string, p: Parts, k: string, elem: string, rest: string, end: string)
    requires IsName(k) && Skips(head, OpenTag(k)) && Skips(head, CloseTag(k)) && Splits(text, p, k)
    requires p.z + elem != OpenTag(k) + p.y + CloseTag(k) + p.z
    ensures RemoveTag(head + (text + elem + rest) + end, k) != head + (text + rest) + end
  {
    assert text == Joined(p, k);
    EditSplit(head, text, p, elem + rest + end, k, "");
    hide Splits, Skips, RemoveTag, OpenTag, CloseTag, Joined;
    Regrouped(head, text, elem, rest, end);
    MoveOrCut(head, p, k, elem, rest, end);
  }

  lemma Regrouped(head: string, text: string, elem: string, rest: string, end: string)
    ensures head + (text + elem + rest) + end == head + text + (elem + rest + end) == head + text + elem + (rest + end)
    ensures head + (text + rest) + end == head + text + (rest + end)
  {
  }

  lemma MoveOrCut(head: string, p: Parts, k: string, elem: string, rest: string, end: string)
    requires p.z + elem != OpenTag(k) + p.y + CloseTag(k) + p.z
    ensures head + p.x + (p.z + (elem + rest + end)) != head + (Joined(p, k) + rest) + end
  {
    var o, c := OpenTag(k), CloseTag(k);
    hide OpenTag, CloseTag;
    var tail := rest + end;
    assert head + p.x + (p.z + (elem + rest + end)) == (head + p.x) + (p.z + elem) + tail;
    assert head + (Joined(p, k) + rest) + end == (head + p.x) + (o + p.y + c + p.z) + tail;
    if (head + p.x) + (p.z + elem) + tail == (head + p.x) + (o + p.y + c + p.z) + tail {
      Cancel(head + p.x, p.z + elem, o + p.y + c + p.z, tail);
    }
  }

  /** More than one element of the key, or one with a nested namesake: the edit leaves part of it behind. */
  lemma RemoveLeavesRest(root: string, before: seq<Pair>, k: string, v: Value, after: seq<Pair>)
    requires Held(root, before, k, v, after) && TagFree(before, k) && v != List([])
    requires !FirstAndAlone(root, before, k, v)
    ensures var ps := before + [Pair(k, v)] + after;
            RemoveTag(RenderResponse(root, OrdMap(ps)), k) != RenderResponse(root, OrdMap(before + after))
  {
    hide RenderResponse, SplitValue, Splits, Clear, RenderValue, RenderPairs, RemoveTag, Skips, Depth, OpenTag,
         CloseTag;
    HeldParts(root, before, k, v, after);
    NotTagFree(k, v);
    LeavesMore(root, before, k, v);
    hide Held, WellFormed, WellFormedValue, TagFree, TagFreeValue, FirstAndAlone;
    var head, end := FrameOf(root, k);
    var text, elem, rest := RenderPairs(before), RenderValue(k, v), RenderPairs(after);
    ValueSplit(k, v, k);
    PairsAreClear(before, k);
    PrintHeld(head, end, root, before, k, v, after);
    hide Frames;
    ClearSkips(head, text, k);
    EditLeaves(head + text, elem, SplitValue(k, v, k), k, rest + end);
    Regrouped(head, text, elem, rest, end);
  }

  lemma ClearSkips(head: string, text: string, k: string)
    requires Skips(head, OpenTag(k)) && Skips(head, CloseTag(k)) && Clear(text, k)
    ensures Skips(head + text, OpenTag(k)) && Skips(head + text, CloseTag(k))
  {
    SkipsBoth(head, text, OpenTag(k));
    SkipsBoth(head, text, CloseTag(k));
  }

  lemma EditLeaves(pre: string, elem: string, p: Parts, k: string, tail: string)
    requires IsName(k) && Skips(pre, OpenTag(k)) && Skips(pre, CloseTag(k)) && Splits(elem, p, k)
    requires p.x == "" && p.z != ""
    ensures RemoveTag(pre + elem + tail, k) != pre + tail
  {
    EditSplit(pre, elem, p, tail, k, "");
    assert |pre + p.x + (p.z + tail)| > |pre + tail|;
  }

  lemma NotTagFree(k: string, v: Value)
    requires v != List([])
    ensures !TagFreeValue(k, v, k)
  {
  }

  lemma LeavesMore(root: string, before: seq<Pair>, k: string, v: Value)
    requires IsName(root) && IsName(k) && k != root && WellFormed(before) && TagFree(before, k) && !HasKey(before, k)
    requires WellFormedValue(v) && v != List([])
    ensures SplitValue(k, v, k).z == "" <==> FirstAndAlone(root, before, k, v)
  {
    match v
    case Str(_) =>
    case Map(m) => ElementLeaves(m, k);
    case List(items) =>
      ElementLeaves(items[0], k);
      hide SplitElement;
      if |items| == 1 {
        assert RenderItems(k, items[1..]) == "";
      } else {
        assert |RenderItems(k, items[1..])| >= |OpenTag(k)|;
      }
  }

  lemma ElementLeaves(m: OrdMap, k: string)
    ensures SplitElement(k, m, k).z == "" <==> TagFree(m.pairs, k)
  {
  }

  /**
   * For a key that the top level holds: removing the tag from the print is deleting the key from the map if
   * and only if the key's element is the first of that name and prints once with no namesake inside, or the
   * key prints nothing and no other element has its name.
   */
  lemma RemoveTagExactly(root: string, before: seq<Pair>, k: string, v: Value, after: seq<Pair>)
    requires Held(root, before, k, v, after)
    ensures var ps := before + [Pair(k, v)] + after;
            RemoveTag(RenderResponse(root, OrdMap(ps)), k) == RenderResponse(root, OrdMap(DeleteKey(ps, k)))
            <==> FirstAndAlone(root, before, k, v) || (v == List([]) && TagFree(before + after, k))
  {
    HeldParts(root, before, k, v, after);
    EditAt(before, k, v, v, after);
    hide RemoveTag;
    if v == List([]) {
      RenderHeld(before, k, v, after);
      assert RenderPairs(before) + RenderValue(k, v) == RenderPairs(before);
      RemoveAbsentTag(root, OrdMap(before + after), k);
      DeleteIsWithout(before + after, k);
    } else if !TagFree(before, k) {
      RemoveHitsEarlier(root, before, k, v, after);
    } else if FirstAndAlone(root, before, k, v) {
      RemoveTagIsDelete(root, before, k, v, after);
    } else {
      RemoveLeavesRest(root, before, k, v, after);
    }
  }

  // ------------------------------------------------------------ replacing a tag

  /** Two contents on the two sides of one text cannot trade places unless they are the same. */
  lemma ContentsAgree(a: string, b: string, w: string, d: string)
    requires Plain(a) && Whole(b) && Above(b, 0) && |d| == |b|
    requires |w| >= 2 && w[0] == '<' && w[1] == '/' && w[|w| - 1] == '>'
    requires a + w + d == b + w + a
    ensures a == b && d == a
  {
    var s := a + w + d;
    assert s[|s| - |a|..] == a;
    assert s[|a| + |w| - 1] == '>';
    if |d| > |a| {
      assert s[..|b|] == b;
      assert b[|a|] == s[|a|] == '<';
      if |b| > |a| + 1 {
        assert b[|a| + 1] == s[|a| + 1] == '/';
        assert b[..|a| + 2] == a + "</";
        ClosingDips(a);
      }
    } else if |d| == |a| {
      assert s[..|a|] == a && s[..|b|] == b;
    }
  }

  lemma ClosingDips(a: string)
    requires Plain(a)
    ensures Whole(a + "</") && Depth(a + "</") == -1
  {
    TextDepth(a);
    DepthAdds(a, "</");
    assert "</"[1..] == "/" && "/"[1..] == "";
    assert Depth("/") == 0;
  }

  /** Anything printed under a name begins with its opening tag and ends with its closing tag. */
  lemma ValueShape(k: string, v: Value) returns (d: string)
    requires v != List([])
    ensures RenderValue(k, v) == OpenTag(k) + d + CloseTag(k)
  {
    match v
    case Str(s) => d := Escape(s);
    case Map(m) => d := RenderPairs(m.pairs);
    case List(items) => d := ItemsShape(k, items);
  }

  lemma {:induction false} ItemsShape(k: string, items: seq<OrdMap>) returns (d: string)
    requires items != []
    ensures RenderItems(k, items) == OpenTag(k) + d + CloseTag(k)
    decreases |items|
  {
    var o, c, first := OpenTag(k), CloseTag(k), RenderPairs(items[0].pairs);
    if |items| == 1 {
      d := first;
      assert RenderItems(k, items[1..]) == "";
      hide OpenTag, CloseTag;
      assert o + d + c + "" == o + d + c;
    } else {
      var rest := ItemsShape(k, items[1..]);
      d := first + c + o + rest;
      hide OpenTag, CloseTag;
      assert (o + first + c) + (o + rest + c) == o + d + c;
    }
  }

  /** The content that a replacement finds, against the value that is set: equal prints mean equal contents. */
  lemma {:induction false} ReplacedNested(head: string, p: Parts, k: string, a: string, elem: string, tail: string)
    requires IsName(k) && Plain(a) && Whole(p.y) && Above(p.y, 0)
    requires elem == "" || exists d :: elem == OpenTag(k) + d + CloseTag(k)
    ensures head + p.x + OpenTag(k) + a + (CloseTag(k) + (p.z + (elem + tail)))
         == head + Joined(p, k) + (OpenTag(k) + a + CloseTag(k) + tail)
         <==> elem == OpenTag(k) + a + CloseTag(k) && p.y == a
  {
    var o, c := OpenTag(k), CloseTag(k);
    var set1, w := o + a + c, c + p.z + o;
    assert w[0] == '<' && w[1] == '/' && w[|w| - 1] == '>';
    assert o != "" && c != "";
    hide OpenTag, CloseTag, Above, Whole, Plain;
    var left := head + p.x + o + a + (c + (p.z + (elem + tail)));
    var right := head + Joined(p, k) + (set1 + tail);
    LeftIs(head + p.x + o, a, c, p.z, elem, tail);
    assert head + (p.x + o + p.y + c + p.z) + (set1 + tail) == (head + p.x + o) + (p.y + (c + (p.z + set1))) + tail by {
      RightIs(head, p.x, o, p.y, c, p.z, set1, tail);
    }
    if left == right {
      Cancel(head + p.x + o, a + (c + (p.z + elem)), p.y + (c + (p.z + set1)), tail);
      assert elem != "" by { Lengths(a, c, p.z, p.y, o); }
      var d :| elem == o + d + c;
      EndCancels(a, c, p.z, o, d, p.y);
      ContentsAgree(a, p.y, w, d);
    }
  }

  lemma LeftIs(pre: string, a: string, c: string, z: string, elem: string, tail: string)
    ensures pre + a + (c + (z + (elem + tail))) == pre + (a + (c + (z + elem))) + tail
  {
  }

  lemma RightIs(head: string, x: string, o: string, y: string, c: string, z: string, value: string, tail: string)
    ensures head + (x + o + y + c + z) + (value + tail) == (head + x + o) + (y + (c + (z + value))) + tail
  {
  }

  lemma Lengths(a: string, c: string, z: string, y: string, o: string)
    requires o != ""
    ensures a + (c + (z + "")) != y + (c + (z + (o + a + c)))
  {
    assert |a + (c + (z + ""))| < |y + (c + (z + (o + a + c)))|;
  }

  lemma EndCancels(a: string, c: string, z: string, o: string, d: string, y: string)
    requires a + (c + (z + (o + d + c))) == y + (c + (z + (o + a + c)))
    ensures |d| == |y| && a + (c + z + o) + d == y + (c + z + o) + a
  {
    var w := c + z + o;
    assert a + (c + (z + (o + d + c))) == "" + (a + w + d) + c;
    assert y + (c + (z + (o + a + c))) == "" + (y + w + a) + c;
    Cancel("", a + w + d, y + w + a, c);
  }

  lemma ReplaceHitsEarlier(root: string, before: seq<Pair>, k: string, v: Value, after: seq<Pair>, s: string)
    requires Held(root, before, k, v, after) && !TagFree(before, k)
    ensures ReplaceTagValue(RenderResponse(root, OrdMap(before + [Pair(k, v)] + after)), k, Escape(s))
         == RenderResponse(root, OrdMap(before + [Pair(k, Str(s))] + after))
         <==> RenderValue(k, v) == RenderValue(k, Str(s)) && SplitPairs(before, k).y == Escape(s)
  {
    assert RenderValue(k, Str(s)) == OpenTag(k) + Escape(s) + CloseTag(k);
    EscapeIsPlain(s);
    hide RenderResponse, SplitPairs, Splits, Escape, RenderValue, RenderPairs, ReplaceTagValue, Skips, OpenTag,
         CloseTag;
    HeldParts(root, before, k, v, after);
    hide Held, WellFormed, TagFree;
    var head, end := FrameOf(root, k);
    PairsSplit(before, k);
    PrintHeld(head, end, root, before, k, v, after);
    PrintHeld(head, end, root, before, k, Str(s), after);
    hide Frames;
    if v == List([]) { NothingPrinted(k); } else { var d := ValueShape(k, v); }
    EditedNested(head, RenderPairs(before), SplitPairs(before, k), k, Escape(s), RenderValue(k, v), RenderPairs(after),
                 end);
  }

  lemma {:induction false} EditedNested(head: string, text: string, p: Parts, k: string, a: string, elem: string,
                                         rest: string, end: string)
    requires IsName(k) && Skips(head, OpenTag(k)) && Skips(head, CloseTag(k)) && Splits(text, p, k) && Plain(a)
    requires elem == "" || exists d :: elem == OpenTag(k) + d + CloseTag(k)
    ensures ReplaceTagValue(head + (text + elem + rest) + end, k, a)
         == head + (text + (OpenTag(k) + a + CloseTag(k)) + rest) + end
         <==> elem == OpenTag(k) + a + CloseTag(k) && p.y == a
  {
    var value := OpenTag(k) + a + CloseTag(k);
    EditSplit(head, text, p, elem + (rest + end), k, a);
    ReplacedNested(head, p, k, a, elem, rest + end);
    assert text == Joined(p, k);
    hide Splits, Joined, Skips, ReplaceTagValue, OpenTag, CloseTag, Plain;
    Regrouped(head, text, elem, rest, end);
    Regrouped(head, text, value, rest, end);
    TwoTails(head + text, elem, rest, end);
    TwoTails(head + text, value, rest, end);
  }

  lemma TwoTails(pre: string, elem: string, rest: string, end: string)
    ensures pre + elem + (rest + end) == pre + (elem + (rest + end))
  {
  }

  lemma NothingPrinted(k: string)
    ensures RenderValue(k, List([])) == ""
  {
  }

  lemma EscapeIsPlain(s: string)
    ensures Plain(Escape(s))
  {
  }

  /** However a tag is replaced, the body grows by less than a whole new element. */
  lemma ReplaceGrowsLess(body: string, k: string, value: string)
    ensures |ReplaceTagValue(body, k, value)| <= |body| + |OpenTag(k)| + |value|
  {
    hide Index;
  }

  /** A key that prints nothing is set by a whole new element; editing the text cannot add one. */
  lemma ReplaceAddsNothing(root: string, m: OrdMap, n: OrdMap, k: string, s: string)
    requires |RenderPairs(n.pairs)| == |RenderPairs(m.pairs)| + |RenderValue(k, Str(s))|
    ensures ReplaceTagValue(RenderResponse(root, m), k, Escape(s))
         != RenderResponse(root, n)
  {
    ReplaceGrowsLess(RenderResponse(root, m), k, Escape(s));
    assert |RenderValue(k, Str(s))| > |OpenTag(k)| + |Escape(s)|;
    hide ReplaceTagValue, RenderValue, RenderPairs, Escape;
    assert |RenderResponse(root, n)| == |RenderResponse(root, m)| + |RenderPairs(n.pairs)| - |RenderPairs(m.pairs)|;
  }

  /** Setting a key that the top level does not hold appends a pair; replacing the tag never does that. */
  lemma ReplaceAbsentTag(root: string, m: OrdMap, k: string, s: string)
    requires !HasKey(m.pairs, k)
    ensures ReplaceTagValue(RenderResponse(root, m), k, Escape(s))
         != RenderResponse(root, OrdMap(SetKey(m.pairs, k, Str(s))))
  {
    SetAppends(m.pairs, k, Str(s));
    RenderAppend(m.pairs, [Pair(k, Str(s))]);
    RenderOne(Pair(k, Str(s)));
    ReplaceAddsNothing(root, m, OrdMap(m.pairs + [Pair(k, Str(s))]), k, s);
  }

  lemma ReplaceHitsKey(root: string, before: seq<Pair>, k: string, v: Value, after: seq<Pair>, s: string)
    requires Held(root, before, k, v, after) && TagFree(before, k) && v != List([])
    ensures ReplaceTagValue(RenderResponse(root, OrdMap(before + [Pair(k, v)] + after)), k, Escape(s))
         == RenderResponse(root, OrdMap(before + [Pair(k, Str(s))] + after))
         <==> FirstAndAlone(root, before, k, v)
  {
    assert RenderValue(k, Str(s)) == OpenTag(k) + Escape(s) + CloseTag(k);
    hide RenderResponse, SplitValue, Splits, Escape, Clear, RenderValue, RenderPairs, ReplaceTagValue, Skips,
         OpenTag, CloseTag;
    HeldParts(root, before, k, v, after);
    NotTagFree(k, v);
    LeavesMore(root, before, k, v);
    hide Held, WellFormed, WellFormedValue, TagFree, TagFreeValue, FirstAndAlone;
    var head, end := FrameOf(root, k);
    ValueSplit(k, v, k);
    PairsAreClear(before, k);
    PrintHeld(head, end, root, before, k, v, after);
    PrintHeld(head, end, root, before, k, Str(s), after);
    hide Frames;
    ClearSkips(head, RenderPairs(before), k);
    EditedAlone(head, RenderPairs(before), SplitValue(k, v, k), k, Escape(s), RenderValue(k, v), RenderPairs(after),
                end);
  }

  lemma EditedAlone(head: string, text: string, p: Parts, k: string, a: string, elem: string, rest: string, end: string)
    requires IsName(k) && Skips(head + text, OpenTag(k)) && Skips(head + text, CloseTag(k))
    requires Splits(elem, p, k) && p.x == ""
    ensures ReplaceTagValue(head + (text + elem + rest) + end, k, a)
         == head + (text + (OpenTag(k) + a + CloseTag(k)) + rest) + end
         <==> p.z == ""
  {
    EditSplit(head + text, elem, p, rest + end, k, a);
    ReplacedAlone(head + text, p, k, a, rest + end);
    hide Splits, Skips, ReplaceTagValue, OpenTag, CloseTag;
    Regrouped(head, text, elem, rest, end);
    Regrouped(head, text, OpenTag(k) + a + CloseTag(k), rest, end);
  }

  lemma ReplacedAlone(pre: string, p: Parts, k: string, a: string, tail: string)
    requires p.x == ""
    ensures pre + p.x + OpenTag(k) + a + (CloseTag(k) + (p.z + tail)) == pre + (OpenTag(k) + a + CloseTag(k)) + tail
        <==> p.z == ""
  {
    var o, c := OpenTag(k), CloseTag(k);
    hide OpenTag, CloseTag;
    assert pre + "" + o + a + (c + (p.z + tail)) == pre + (o + a + c) + (p.z + tail);
  }

  /**
   * For a key that the top level holds: replacing the tag's content by an escaped text is setting the key to
   * that text if and only if the key's element is the first of that name and prints once with no namesake
   * inside, or both sides change nothing: the key already prints that text, and so does the earlier element
   * that the search stops at.
   */
  lemma ReplaceTagExactly(root: string, before: seq<Pair>, k: string, v: Value, after: seq<Pair>, s: string)
    requires Held(root, before, k, v, after)
    ensures var ps := before + [Pair(k, v)] + after;
            ReplaceTagValue(RenderResponse(root, OrdMap(ps)), k, Escape(s))
            == RenderResponse(root, OrdMap(SetKey(ps, k, Str(s))))
            <==> || FirstAndAlone(root, before, k, v)
                 || (!TagFree(before, k) && RenderValue(k, v) == RenderValue(k, Str(s))
                     && SplitPairs(before, k).y == Escape(s))
  {
    HeldParts(root, before, k, v, after);
    EditAt(before, k, v, Str(s), after);
    hide ReplaceTagValue, RenderValue, Escape, SplitPairs;
    if !TagFree(before, k) {
      ReplaceHitsEarlier(root, before, k, v, after, s);
    } else if v == List([]) {
      NothingPrinted(k);
      RenderHeld(before, k, v, after);
      RenderHeld(before, k, Str(s), after);
      ReplaceAddsNothing(root, OrdMap(before + [Pair(k, v)] + after), OrdMap(before + [Pair(k, Str(s))] + after), k, s);
    } else {
      ReplaceHitsKey(root, before, k, v, after, s);
    }
  }
}
