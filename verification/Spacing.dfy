/** Text and instructions between elements, and why the parser reads the same map without them. */
module Spacing {
  import opened Text
  import opened OrdMaps
  import opened Xml
  import opened XmlParser

  /** The way from the root down to a place: positions of pairs, and of items in their lists. */
  type Path = seq<nat>

  predicate IsFiller(f: seq<Token>) {
    forall i :: 0 <= i < |f| ==> f[i].CharData? || f[i].ProcInst?
  }

  /** All the text in it. */
  function TextOf(f: seq<Token>): string {
    if f == [] then "" else (if f[0].CharData? then f[0].text else "") + TextOf(f[1..])
  }

  function Then(f: seq<Token>, ts: Tokens): Tokens {
    if f == [] then ts else More(f[0], Then(f[1..], ts))
  }

  /** What stands before each element and each closing tag, and the pieces in which each leaf is delivered. */
  datatype Layout = Layout(gap: Path -> seq<Token>, leaf: (Path, string) -> seq<Token>)

  ghost predicate Fits(l: Layout) {
    && (forall p :: IsFiller(l.gap(p)))
    && (forall p, s :: IsFiller(l.leaf(p, s)) && TextOf(l.leaf(p, s)) == s)
  }

  /** Nothing but white space and instructions between the elements. */
  ghost predicate IsBlankLayout(l: Layout) {
    forall p :: TrimSpace(TextOf(l.gap(p))) == ""
  }

  /** No map below prints nothing, so that text in it always has an element beside it. */
  ghost predicate Filled(ps: seq<Pair>)
    decreases ps
  {
    forall i :: 0 <= i < |ps| ==> FilledValue(ps[i].value)
  }

  ghost predicate FilledValue(v: Value)
    decreases v
  {
    match v
    case Str(_) => true
    case Map(m) => !Blank(m.pairs) && Filled(m.pairs)
    case List(items) => forall i :: 0 <= i < |items| ==> !Blank(items[i].pairs) && Filled(items[i].pairs)
  }

  // ------------------------------------------------- the tokens of a map laid out

  function PairsLaid(ps: seq<Pair>, l: Layout, at: Path, i: nat, then_: Tokens): Tokens
    decreases ps
  {
    if ps == [] then then_
    else ValueLaid(ps[0].key, ps[0].value, l, at + [i], PairsLaid(ps[1..], l, at, i + 1, then_))
  }

  function ValueLaid(k: string, v: Value, l: Layout, at: Path, then_: Tokens): Tokens
    decreases v
  {
    match v
    case Str(s) =>
      var inner := if LegalText(s) then Then(l.leaf(at, Normalize(s)), More(End(k), then_)) else Broken;
      Then(l.gap(at), More(Start(k), inner))
    case Map(m) => Then(l.gap(at), ElementLaid(k, m, l, at, then_))
    case List(items) => ItemsLaid(k, items, l, at, 0, then_)
  }

  function ElementLaid(k: string, m: OrdMap, l: Layout, at: Path, then_: Tokens): Tokens
    decreases m
  {
    More(Start(k), PairsLaid(m.pairs, l, at, 0, Then(l.gap(at + [|m.pairs|]), More(End(k), then_))))
  }

  function ItemsLaid(k: string, items: seq<OrdMap>, l: Layout, at: Path, j: nat, then_: Tokens): Tokens
    decreases items
  {
    if items == [] then then_
    else Then(l.gap(at + [j]), ElementLaid(k, items[0], l, at + [j], ItemsLaid(k, items[1..], l, at, j + 1, then_)))
  }

  // ------------------------------------------------------------ reading them back

  /** Pieces of text add up until the first child; from then on they are skipped. */
  lemma {:induction false} LoopReadsFiller(f: seq<Token>, ts: Tokens, text: string, has: bool, kids: seq<Pair>)
    requires IsFiller(f)
    ensures ElementLoop(Then(f, ts), text, has, kids)
         == ElementLoop(ts, if has then text else text + TextOf(f), has, kids)
    decreases |f|
  {
    if f == [] {
      assert text + "" == text;
    } else {
      var more := if has || !f[0].CharData? then text else text + f[0].text;
      FillerStep(f, ts, text, has, kids);
      hide ElementLoop;
      LoopReadsFiller(f[1..], ts, more, has, kids);
      if !has { Assoc(text, if f[0].CharData? then f[0].text else "", TextOf(f[1..])); assert text + "" == text; }
    }
  }

  lemma FillerStep(f: seq<Token>, ts: Tokens, text: string, has: bool, kids: seq<Pair>)
    requires IsFiller(f) && f != []
    ensures ElementLoop(Then(f, ts), text, has, kids)
         == ElementLoop(Then(f[1..], ts), if has || !f[0].CharData? then text else text + f[0].text, has, kids)
  {
    hide MergeChild, TrimSpace, Count;
  }

  /** Behind a child the text read before it is forgotten. */
  lemma TextIsIdle(ts: Tokens, a: string, b: string, kids: seq<Pair>)
    ensures ElementLoop(ts, a, true, kids) == ElementLoop(ts, b, true, kids)
  {
    LoopsAgree(ts, a, kids);
    LoopsAgree(ts, b, kids);
    hide ElementLoop, ChildrenLoop;
  }

  /** Enough to read `v` whatever the layout: blank gaps, or no empty map for a text to stand in alone. */
  ghost predicate Readable(l: Layout, ps: seq<Pair>) {
    Fits(l) && (IsBlankLayout(l) || Filled(ps))
  }

  ghost predicate ReadableValue(l: Layout, v: Value) {
    Fits(l) && (IsBlankLayout(l) || FilledValue(v))
  }

  ghost predicate ReadableItems(l: Layout, items: seq<OrdMap>) {
    Fits(l) && (IsBlankLayout(l) || forall i :: 0 <= i < |items| ==> !Blank(items[i].pairs) && Filled(items[i].pairs))
  }

  lemma ReadableParts(l: Layout, ps: seq<Pair>)
    requires Readable(l, ps) && ps != []
    ensures ReadableValue(l, ps[0].value) && Readable(l, ps[1..])
  {
    hide FilledValue, Fits, IsBlankLayout;
    assert forall i :: 0 <= i < |ps[1..]| ==> ps[1..][i] == ps[i + 1];
  }

  lemma ReadableItemParts(l: Layout, items: seq<OrdMap>)
    requires ReadableItems(l, items) && items != []
    ensures Readable(l, items[0].pairs) && (IsBlankLayout(l) || !Blank(items[0].pairs)) && ReadableItems(l, items[1..])
  {
    hide Filled, Fits, IsBlankLayout, Blank;
    assert forall i :: 0 <= i < |items[1..]| ==> items[1..][i] == items[i + 1];
  }

  /** The loop behind a printed map: as without gaps. */
  function Behind(ts: Tokens, text: string, has: bool, kids: seq<Pair>, ps: seq<Pair>): Parsed<Value> {
    if Blank(ps) then ElementLoop(ts, text, has, kids) else ElementLoop(ts, "", true, kids + NormPairs(ps))
  }

  lemma {:induction false} LoopReadsLaid(ps: seq<Pair>, l: Layout, at: Path, i: nat, ts: Tokens, text: string,
                                         has: bool, kids: seq<Pair>)
    requires WellFormed(ps) && DisjointKeys(kids, ps) && Readable(l, ps)
    ensures ElementLoop(PairsLaid(ps, l, at, i, ts), text, has, kids)
         == if LegalPairs(ps) then Behind(ts, text, has, kids, ps) else Fail
    decreases ps, 0
  {
    if ps != [] {
      var k, v, more := ps[0].key, ps[0].value, PairsLaid(ps[1..], l, at, i + 1, ts);
      WellFormedParts(ps);
      ReadableParts(l, ps);
      DisjointNext(kids, ps);
      BehindNext(ts, text, has, kids, ps);
      hide ElementLoop, Readable, ReadableValue, WellFormed, WellFormedValue, LegalPairs, LegalValue, ValueLaid, Behind,
           NormPair, NormPairs;
      LoopReadsValueLaid(k, v, l, at + [i], more, text, has, kids);
      if LegalValue(v) {
        if v == List([]) {
          LoopReadsLaid(ps[1..], l, at, i + 1, ts, text, has, kids);
        } else {
          LoopReadsLaid(ps[1..], l, at, i + 1, ts, "", true, kids + NormPair(k, v));
        }
      }
    }
  }

  lemma BehindNext(ts: Tokens, text: string, has: bool, kids: seq<Pair>, ps: seq<Pair>)
    requires ps != []
    ensures var head := NormPair(ps[0].key, ps[0].value);
            if ps[0].value == List([])
            then kids + head == kids && Behind(ts, text, has, kids, ps) == Behind(ts, text, has, kids, ps[1..])
            else Behind(ts, text, has, kids, ps) == Behind(ts, "", true, kids + head, ps[1..])
  {
    hide ElementLoop;
    var head := NormPair(ps[0].key, ps[0].value);
    BlankNorm(ps[1..]);
    Assoc(kids, head, NormPairs(ps[1..]));
    assert kids + head + [] == kids + head;
    if ps[0].value == List([]) {
      assert kids + head == kids && NormPairs(ps) == NormPairs(ps[1..]);
    }
  }

  lemma {:induction false} BlankNorm(ps: seq<Pair>)
    ensures Blank(ps) ==> NormPairs(ps) == []
    decreases |ps|
  {
    if ps != [] { BlankNorm(ps[1..]); }
  }

  lemma {:induction false} LoopReadsValueLaid(k: string, v: Value, l: Layout, at: Path, ts: Tokens, text: string,
                                              has: bool, kids: seq<Pair>)
    requires WellFormedValue(v) && !HasKey(kids, k) && ReadableValue(l, v)
    ensures ElementLoop(ValueLaid(k, v, l, at, ts), text, has, kids)
         == if !LegalValue(v) then Fail
            else if v == List([]) then ElementLoop(ts, text, has, kids)
            else ElementLoop(ts, "", true, kids + NormPair(k, v))
    decreases v, 0
  {
    match v
    case Str(s) => LoopReadsStringLaid(k, s, l, at, ts, text, has, kids);
    case Map(m) =>
      hide ElementLoop, WellFormed, LegalPairs, Blank, Filled, ElementLaid, NormPairs, Fits, IsBlankLayout, HasKey;
      LoopReadsMapLaid(k, m, l, at, ts, text, has, kids);
    case List(items) =>
      hide ElementLoop, Blank, Filled, NonBlank, Fits, IsBlankLayout, HasKey, ItemsLaid, WellFormed, LegalPairs;
      ListIsItems(items);
      if items != [] {
        LoopReadsListLaid(k, items, l, at, ts, text, has, kids);
      }
  }

  lemma {:induction false} LoopReadsMapLaid(k: string, m: OrdMap, l: Layout, at: Path, ts: Tokens, text: string,
                                            has: bool, kids: seq<Pair>)
    requires WellFormed(m.pairs) && !HasKey(kids, k) && Readable(l, m.pairs) && (IsBlankLayout(l) || !Blank(m.pairs))
    ensures ElementLoop(Then(l.gap(at), ElementLaid(k, m, l, at, ts)), text, has, kids)
         == if LegalPairs(m.pairs) then ElementLoop(ts, "", true, kids + NormPair(k, Map(m))) else Fail
    decreases m, 2
  {
    assert IsFiller(l.gap(at));
    hide ElementLoop, WellFormed, LegalPairs, Blank, ElementLaid, NormPairs, Readable, IsBlankLayout;
    SetAppends(kids, k, NormOf(m));
    MergeNew(kids, k, NormOf(m));
    LoopReadsFiller(l.gap(at), ElementLaid(k, m, l, at, ts), text, has, kids);
    LoopReadsElementLaid(k, m, l, at, ts, if has then text else text + TextOf(l.gap(at)), has, kids);
  }

  lemma MergeNew(kids: seq<Pair>, k: string, v: Value)
    requires !HasKey(kids, k)
    ensures MergeChild(kids, k, v) == SetKey(kids, k, v)
  {
  }

  lemma {:induction false} LoopReadsListLaid(k: string, items: seq<OrdMap>, l: Layout, at: Path, ts: Tokens,
                                             text: string, has: bool, kids: seq<Pair>)
    requires AllWell(items) && !HasKey(kids, k) && items != [] && ReadableItems(l, items)
    ensures ElementLoop(ItemsLaid(k, items, l, at, 0, ts), text, has, kids)
         == if LegalItems(items) then ElementLoop(ts, "", true, kids + NormPair(k, List(items))) else Fail
    decreases items, 1
  {
    hide ElementLoop, ReadableItems, AllWell, LegalItems, NonBlank, HasKey, ItemsLaid;
    LoopReadsItemsLaid(k, items, [], false, l, at, 0, ts, text, has, kids);
    assert kids + [] == kids;
    assert [] + NonBlank(items) == NonBlank(items);
  }

  lemma LoopReadsStringLaid(k: string, s: string, l: Layout, at: Path, ts: Tokens, text: string, has: bool,
                            kids: seq<Pair>)
    requires !HasKey(kids, k) && Fits(l)
    ensures ElementLoop(ValueLaid(k, Str(s), l, at, ts), text, has, kids)
         == if LegalText(s) then ElementLoop(ts, "", true, kids + NormPair(k, Str(s))) else Fail
  {
    hide ElementLoop, Xml.LegalText, Xml.Normalize, TrimSpace;
    var before := if has then text else text + TextOf(l.gap(at));
    var inner := Then(l.leaf(at, Normalize(s)), More(End(k), ts));
    SetAppends(kids, k, Str(Wire(s)));
    LoopReadsFiller(l.gap(at), More(Start(k), if LegalText(s) then inner else Broken), text, has, kids);
    LoopStepsIn(k, if LegalText(s) then inner else Broken, before, has, kids);
    if LegalText(s) {
      LoopReadsFiller(l.leaf(at, Normalize(s)), More(End(k), ts), "", false, []);
      assert "" + TextOf(l.leaf(at, Normalize(s))) == Normalize(s);
      LoopReadsEnd(k, Normalize(s), ts);
      TextIsIdle(ts, before, "", kids + NormPair(k, Str(s)));
    } else {
      BrokenFails();
    }
  }

  /** A nested map: its children, or the empty text when it has none. */
  lemma {:induction false} LoopReadsElementLaid(k: string, m: OrdMap, l: Layout, at: Path, ts: Tokens, text: string,
                                                has: bool, kids: seq<Pair>)
    requires WellFormed(m.pairs) && Readable(l, m.pairs) && (IsBlankLayout(l) || !Blank(m.pairs))
    ensures ElementLoop(ElementLaid(k, m, l, at, ts), text, has, kids)
         == if !LegalPairs(m.pairs) then Fail
            else ElementLoop(ts, "", true, MergeChild(kids, k, NormOf(m)))
    decreases m, 1
  {
    var close := l.gap(at + [|m.pairs|]);
    var tail := Then(close, More(End(k), ts));
    LoopStepsIn(k, PairsLaid(m.pairs, l, at, 0, tail), text, has, kids);
    hide ElementLoop, MergeChild;
    LoopReadsLaid(m.pairs, l, at, 0, tail, "", false, []);
    if LegalPairs(m.pairs) {
      assert [] + NormPairs(m.pairs) == NormPairs(m.pairs);
      LoopReadsFiller(close, More(End(k), ts), "", !Blank(m.pairs), if Blank(m.pairs) then [] else NormPairs(m.pairs));
      LoopEnds(k, if Blank(m.pairs) then "" + TextOf(close) else "", !Blank(m.pairs),
               if Blank(m.pairs) then [] else NormPairs(m.pairs), ts);
      assert "" + TextOf(close) == TextOf(close);
      TextIsIdle(ts, text, "", MergeChild(kids, k, NormOf(m)));
    }
  }

  function NormOf(m: OrdMap): Value {
    if Blank(m.pairs) then Str("") else Map(OrdMap(NormPairs(m.pairs)))
  }

  lemma LoopEnds(k: string, text: string, has: bool, kids: seq<Pair>, ts: Tokens)
    ensures ElementLoop(More(End(k), ts), text, has, kids) == Done(ElementValue(text, has, kids), ts)
  {
  }

  lemma {:induction false} LoopReadsItemsLaid(k: string, items: seq<OrdMap>, seen: seq<OrdMap>, any: bool, l: Layout,
                                              at: Path, j: nat, ts: Tokens, text: string, has: bool, kids: seq<Pair>)
    requires AllWell(items) && !HasKey(kids, k) && (seen != [] ==> any) && ReadableItems(l, items)
    ensures ElementLoop(ItemsLaid(k, items, l, at, j, ts), text, has, kids + SoFar(k, seen, any))
         == if !LegalItems(items) then Fail
            else if items == [] then ElementLoop(ts, text, has, kids + SoFar(k, seen, any))
            else ElementLoop(ts, "", true, kids + SoFar(k, seen + NonBlank(items), true))
    decreases items, 0
  {
    if items != [] {
      SeenThen(seen, items);
      NothingMore(seen, items);
      ItemsSplit(items);
      ReadableItemParts(l, items);
      hide ElementLoop, WellFormed, AllWell, LegalPairs, LegalItems, ItemsLaid, NormPairs, HasKey, Blank, SeenAfter,
           NonBlank, SoFar, Readable, ReadableItems, Fits, IsBlankLayout;
      FirstItemLaid(k, items, seen, any, l, at, j, ts, text, has, kids);
      if LegalPairs(items[0].pairs) {
        LoopReadsItemsLaid(k, items[1..], SeenAfter(seen, items[0]), true, l, at, j + 1, ts, "", true, kids);
      }
    }
  }

  lemma NothingMore(seen: seq<OrdMap>, items: seq<OrdMap>)
    requires items != []
    ensures items[1..] == [] ==> seen + NonBlank(items) == SeenAfter(seen, items[0])
  {
    SeenThen(seen, items);
    if items[1..] == [] {
      assert NonBlank(items[1..]) == [];
      assert SeenAfter(seen, items[0]) + [] == SeenAfter(seen, items[0]);
    }
    hide NonBlank, SeenAfter;
  }

  lemma {:induction false} FirstItemLaid(k: string, items: seq<OrdMap>, seen: seq<OrdMap>, any: bool, l: Layout,
                                         at: Path, j: nat, ts: Tokens, text: string, has: bool, kids: seq<Pair>)
    requires items != [] && AllWell(items) && !HasKey(kids, k) && (seen != [] ==> any) && ReadableItems(l, items)
    ensures ElementLoop(ItemsLaid(k, items, l, at, j, ts), text, has, kids + SoFar(k, seen, any))
         == if LegalPairs(items[0].pairs)
            then ElementLoop(ItemsLaid(k, items[1..], l, at, j + 1, ts), "", true,
                             kids + SoFar(k, SeenAfter(seen, items[0]), true))
            else Fail
    decreases items[0], 3
  {
    var m, rest := items[0], ItemsLaid(k, items[1..], l, at, j + 1, ts);
    ItemsSplit(items);
    ReadableItemParts(l, items);
    assert IsFiller(l.gap(at + [j]));
    assert ItemsLaid(k, items, l, at, j, ts) == Then(l.gap(at + [j]), ElementLaid(k, m, l, at + [j], rest));
    hide ElementLoop, WellFormed, AllWell, LegalPairs, ItemsLaid, NormPairs, HasKey, Blank, SeenAfter, SoFar, Readable,
         ReadableItems, Fits, IsBlankLayout, ElementLaid, Then, TextOf;
    LoopReadsFiller(l.gap(at + [j]), ElementLaid(k, m, l, at + [j], rest), text, has, kids + SoFar(k, seen, any));
    LoopReadsItemLaid(k, m, seen, any, l, at + [j], rest, if has then text else text + TextOf(l.gap(at + [j])), has,
                      kids);
  }

  lemma {:induction false} LoopReadsItemLaid(k: string, m: OrdMap, seen: seq<OrdMap>, any: bool, l: Layout, at: Path,
                                             ts: Tokens, text: string, has: bool, kids: seq<Pair>)
    requires WellFormed(m.pairs) && !HasKey(kids, k) && (seen != [] ==> any)
    requires Readable(l, m.pairs) && (IsBlankLayout(l) || !Blank(m.pairs))
    ensures ElementLoop(ElementLaid(k, m, l, at, ts), text, has, kids + SoFar(k, seen, any))
         == if LegalPairs(m.pairs) then ElementLoop(ts, "", true, kids + SoFar(k, SeenAfter(seen, m), true)) else Fail
    decreases m, 2
  {
    LoopReadsElementLaid(k, m, l, at, ts, text, has, kids + SoFar(k, seen, any));
    hide ElementLoop, WellFormed, LegalPairs, PairsLaid, NormPairs, Blank, MergeChild, SoFar, HasKey;
    MergeItem(kids, k, seen, any, NormOf(m));
  }

  lemma ClosingReads(f: seq<Token>, root: string, kids: seq<Pair>)
    requires IsFiller(f)
    ensures ElementLoop(Then(f, More(End(root), Eof)), "", true, kids) == Done(Map(OrdMap(kids)), Eof)
  {
    LoopReadsFiller(f, More(End(root), Eof), "", true, kids);
    LoopEnds(root, "", true, kids, Eof);
    hide ElementLoop;
  }

  lemma ChildrenReadLaid(root: string, ps: seq<Pair>, l: Layout)
    requires WellFormed(ps) && Readable(l, ps)
    ensures ChildrenLoop(PairsLaid(ps, l, [], 0, Then(l.gap([|ps|]), More(End(root), Eof))), [])
         == if LegalPairs(ps) then Done(NormPairs(ps), Eof) else Fail
  {
    var tail := Then(l.gap([|ps|]), More(End(root), Eof));
    assert IsFiller(l.gap([|ps|]));
    BlankNorm(ps);
    hide ElementLoop, ChildrenLoop, LegalPairs, NormPairs, PairsLaid, WellFormed, Blank, Readable;
    LoopReadsLaid(ps, l, [], 0, tail, "", true, []);
    LoopsAgree(PairsLaid(ps, l, [], 0, tail), "", []);
    ClosingReads(l.gap([|ps|]), root, []);
    ClosingReads(l.gap([|ps|]), root, NormPairs(ps));
    assert [] + NormPairs(ps) == NormPairs(ps);
  }

  /**
   * However a map is laid out - instructions anywhere, leaves in pieces, blank gaps, or any text beside
   * elements - the parser reads the normal form of the map.
   */
  lemma {:induction false} RootReadsLaid(root: string, m: OrdMap, l: Layout, before: seq<Token>)
    requires WellFormed(m.pairs) && Readable(l, m.pairs) && IsFiller(before)
    ensures DecodeRoot(Then(before, ElementLaid(root, m, l, [], Eof)))
         == if LegalPairs(m.pairs) then Ok(Some(NormPairs(m.pairs))) else Err(SyntaxError)
    decreases |before|
  {
    hide Readable, WellFormed, LegalPairs, NormPairs, PairsLaid, ChildrenLoop;
    if before != [] {
      hide ElementLaid;
      RootReadsLaid(root, m, l, before[1..]);
    } else {
      ChildrenReadLaid(root, m.pairs, l);
      assert [] + [|m.pairs|] == [|m.pairs|];
    }
  }

  // -------------------------------------------------------- the same as a text

  /** A text for each gap. */
  type Gaps = Path -> string

  ghost predicate LegalGaps(w: Gaps) {
    forall p :: LegalText(w(p))
  }

  ghost predicate BlankGaps(w: Gaps) {
    forall p :: Wire(w(p)) == ""
  }

  function SpacedPairs(ps: seq<Pair>, w: Gaps, at: Path, i: nat): string
    decreases ps
  {
    if ps == [] then "" else SpacedValue(ps[0].key, ps[0].value, w, at + [i]) + SpacedPairs(ps[1..], w, at, i + 1)
  }

  function SpacedValue(k: string, v: Value, w: Gaps, at: Path): string
    decreases v
  {
    match v
    case Str(s) => Escape(w(at)) + RenderValue(k, v)
    case Map(m) => Escape(w(at)) + SpacedElement(k, m, w, at)
    case List(items) => SpacedItems(k, items, w, at, 0)
  }

  function SpacedElement(k: string, m: OrdMap, w: Gaps, at: Path): string
    decreases m
  {
    OpenTag(k) + (SpacedPairs(m.pairs, w, at, 0) + (Escape(w(at + [|m.pairs|])) + CloseTag(k)))
  }

  function SpacedItems(k: string, items: seq<OrdMap>, w: Gaps, at: Path, j: nat): string
    decreases items
  {
    if items == [] then ""
    else Escape(w(at + [j])) + SpacedElement(k, items[0], w, at + [j]) + SpacedItems(k, items[1..], w, at, j + 1)
  }

  /** `RenderResponse` with a text before each element and each closing tag. */
  function SpacedResponse(root: string, m: OrdMap, w: Gaps): string {
    XML_PREFIX + (Escape(w([])) + SpacedElement(root, m, w, []))
  }

  function Delivered(s: string): seq<Token> {
    if s == "" then [] else [CharData(s)]
  }

  function LayoutOf(w: Gaps): Layout {
    Layout((p: Path) => Delivered(Normalize(w(p))), (p: Path, s: string) => Delivered(s))
  }

  lemma DeliveredFits(s: string)
    ensures IsFiller(Delivered(s)) && TextOf(Delivered(s)) == s
  {
    if s != "" {
      assert [CharData(s)][1..] == [];
      assert TextOf([]) == "";
    }
  }

  lemma LayoutFits(w: Gaps)
    ensures Fits(LayoutOf(w)) && (BlankGaps(w) ==> IsBlankLayout(LayoutOf(w)))
  {
    var l := LayoutOf(w);
    forall p ensures IsFiller(l.gap(p)) && TextOf(l.gap(p)) == Normalize(w(p)) { DeliveredFits(Normalize(w(p))); }
    forall p, s ensures IsFiller(l.leaf(p, s)) && TextOf(l.leaf(p, s)) == s { DeliveredFits(s); }
    hide TextOf, Normalize, TrimSpace;
    if BlankGaps(w) {
      forall p ensures TrimSpace(TextOf(l.gap(p))) == "" { assert Wire(w(p)) == ""; }
    }
  }

  lemma NormalizeKeeps(s: string)
    ensures Normalize(s) == "" <==> s == ""
  {
  }

  lemma GapTokens(t: string, rest: string, open: seq<string>)
    requires LegalText(t) && "<" <= rest
    ensures Tokenize(Escape(t) + rest, open) == Then(Delivered(Normalize(t)), Tokenize(rest, open))
  {
    NormalizeKeeps(t);
    hide Normalize;
    if t == "" {
      assert Escape(t) + rest == rest;
    } else {
      TokenizeText(t, rest, open);
      hide Tokenize;
      OneToken(CharData(Normalize(t)), Tokenize(rest, open));
    }
  }

  lemma OneToken(t: Token, ts: Tokens)
    ensures Then([t], ts) == More(t, ts)
  {
    assert [t][1..] == [];
  }

  lemma LeafTokens(k: string, s: string, rest: string, open: seq<string>)
    requires IsName(k)
    ensures Tokenize(RenderValue(k, Str(s)) + rest, open)
         == More(Start(k), if LegalText(s) then Then(Delivered(Normalize(s)), More(End(k), Tokenize(rest, open)))
                           else Broken)
  {
    TokenizeLeaf(k, s, rest, open);
    NormalizeKeeps(s);
    hide Tokenize, Normalize;
    OneToken(CharData(Normalize(s)), More(End(k), Tokenize(rest, open)));
  }

  lemma {:induction false} TokenizeSpaced(ps: seq<Pair>, w: Gaps, at: Path, i: nat, rest: string, open: seq<string>)
    requires WellFormed(ps) && LegalGaps(w)
    ensures Tokenize(SpacedPairs(ps, w, at, i) + rest, open) == PairsLaid(ps, LayoutOf(w), at, i, Tokenize(rest, open))
    decreases ps, 0
  {
    if ps == [] {
      assert "" + rest == rest;
    } else {
      WellFormedParts(ps);
      var more := SpacedPairs(ps[1..], w, at, i + 1) + rest;
      Regroup(SpacedValue(ps[0].key, ps[0].value, w, at + [i]), SpacedPairs(ps[1..], w, at, i + 1), rest);
      hide Tokenize, WellFormed, LayoutOf, LegalGaps;
      TokenizeSpaced(ps[1..], w, at, i + 1, rest, open);
      TokenizeValueSpaced(ps[0].key, ps[0].value, w, at + [i], more, open);
    }
  }

  lemma Regroup(a: string, b: string, c: string)
    ensures a + b + c == a + (b + c)
  {
  }

  lemma {:induction false} TokenizeValueSpaced(k: string, v: Value, w: Gaps, at: Path, rest: string, open: seq<string>)
    requires IsName(k) && WellFormedValue(v) && LegalGaps(w)
    ensures Tokenize(SpacedValue(k, v, w, at) + rest, open) == ValueLaid(k, v, LayoutOf(w), at, Tokenize(rest, open))
    decreases v, 0
  {
    assert LegalText(w(at));
    match v
    case Str(s) =>
      hide Tokenize, Escape, Normalize, LegalText, LegalGaps, RenderValue;
      GapThenLeaf(k, s, w(at), rest, open);
    case Map(m) =>
      hide Tokenize, WellFormed, Escape, SpacedElement, ElementLaid, Normalize, LegalText, LegalGaps;
      GapThenElement(k, m, w, at, rest, open, w(at));
    case List(items) =>
      assert AllWell(items);
      hide Tokenize, WellFormed, AllWell, LegalGaps;
      TokenizeItemsSpaced(k, items, w, at, 0, rest, open);
  }

  lemma GapThenLeaf(k: string, s: string, t: string, rest: string, open: seq<string>)
    requires IsName(k) && LegalText(t)
    ensures Tokenize(Escape(t) + RenderValue(k, Str(s)) + rest, open)
         == Then(Delivered(Normalize(t)),
                 More(Start(k), if LegalText(s) then Then(Delivered(Normalize(s)), More(End(k), Tokenize(rest, open)))
                                else Broken))
  {
    hide Tokenize, Escape, Normalize, LegalText;
    LeafStarts(k, s, rest);
    hide RenderValue;
    Regroup(Escape(t), RenderValue(k, Str(s)), rest);
    LeafTokens(k, s, rest, open);
    GapTokens(t, RenderValue(k, Str(s)) + rest, open);
  }

  lemma LeafStarts(k: string, s: string, rest: string)
    ensures "<" <= RenderValue(k, Str(s)) + rest
  {
    hide Escape;
  }

  lemma StartsTag(k: string, a: string, rest: string)
    ensures "<" <= OpenTag(k) + a + rest
  {
  }

  lemma {:induction false} GapThenElement(k: string, m: OrdMap, w: Gaps, at: Path, rest: string, open: seq<string>,
                                          t: string)
    requires IsName(k) && WellFormed(m.pairs) && LegalGaps(w) && LegalText(t)
    ensures Tokenize(Escape(t) + SpacedElement(k, m, w, at) + rest, open)
         == Then(Delivered(Normalize(t)), ElementLaid(k, m, LayoutOf(w), at, Tokenize(rest, open)))
    decreases m, 2
  {
    hide Tokenize, WellFormed, Escape, ElementLaid, Normalize, LegalText, LegalGaps, SpacedPairs;
    Regroup(Escape(t), SpacedElement(k, m, w, at), rest);
    StartsTag(k, SpacedPairs(m.pairs, w, at, 0) + (Escape(w(at + [|m.pairs|])) + CloseTag(k)), rest);
    hide SpacedElement, OpenTag, CloseTag;
    GapTokens(t, SpacedElement(k, m, w, at) + rest, open);
    TokenizeElementSpaced(k, m, w, at, rest, open);
  }

  lemma {:induction false} TokenizeElementSpaced(k: string, m: OrdMap, w: Gaps, at: Path, rest: string,
                                                 open: seq<string>)
    requires IsName(k) && WellFormed(m.pairs) && LegalGaps(w)
    ensures Tokenize(SpacedElement(k, m, w, at) + rest, open)
         == ElementLaid(k, m, LayoutOf(w), at, Tokenize(rest, open))
    decreases m, 1
  {
    assert LegalText(w(at + [|m.pairs|]));
    hide WellFormed, Escape, LegalText, LegalGaps, SpacedPairs, Tokenize, PairsLaid, Normalize;
    var gap, close := Escape(w(at + [|m.pairs|])), CloseTag(k) + rest;
    assert "<" <= close;
    hide OpenTag, CloseTag;
    ElementRegroups(OpenTag(k), SpacedPairs(m.pairs, w, at, 0), gap, CloseTag(k), rest);
    TokenizeOpen(k, SpacedPairs(m.pairs, w, at, 0) + (gap + close), open);
    TokenizeSpaced(m.pairs, w, at, 0, gap + close, [k] + open);
    GapTokens(w(at + [|m.pairs|]), close, [k] + open);
    TokenizeClose(k, rest, open);
  }

  lemma ElementRegroups(a: string, b: string, c: string, d: string, e: string)
    ensures a + (b + (c + d)) + e == a + (b + (c + (d + e)))
  {
  }

  lemma {:induction false} TokenizeItemsSpaced(k: string, items: seq<OrdMap>, w: Gaps, at: Path, j: nat, rest: string,
                                               open: seq<string>)
    requires IsName(k) && AllWell(items) && LegalGaps(w)
    ensures Tokenize(SpacedItems(k, items, w, at, j) + rest, open)
         == ItemsLaid(k, items, LayoutOf(w), at, j, Tokenize(rest, open))
    decreases items, 0
  {
    if items == [] {
      assert "" + rest == rest;
    } else {
      ItemsSplit(items);
      assert LegalText(w(at + [j]));
      hide Tokenize, WellFormed, AllWell, Escape, SpacedElement, ElementLaid, Normalize, LegalText, LegalGaps;
      var more := SpacedItems(k, items[1..], w, at, j + 1) + rest;
      Regroup(Escape(w(at + [j])) + SpacedElement(k, items[0], w, at + [j]), SpacedItems(k, items[1..], w, at, j + 1),
              rest);
      GapThenElement(k, items[0], w, at + [j], more, open, w(at + [j]));
      TokenizeItemsSpaced(k, items[1..], w, at, j + 1, rest, open);
    }
  }

  lemma {:induction false} TokenizeSpacedResponse(root: string, m: OrdMap, w: Gaps)
    requires IsName(root) && WellFormed(m.pairs) && LegalGaps(w)
    ensures Tokenize(SpacedResponse(root, m, w), [])
         == Then([ProcInst] + Delivered(Normalize(w([]))), ElementLaid(root, m, LayoutOf(w), [], Eof))
  {
    assert LegalText(w([]));
    assert Tokenize("", []) == Eof;
    hide Tokenize, WellFormed, Escape, SpacedElement, ElementLaid, Normalize, LegalText, LegalGaps;
    TokenizeDeclaration(Escape(w([])) + SpacedElement(root, m, w, []));
    GapThenElement(root, m, w, [], "", [], w([]));
    var all := Escape(w([])) + SpacedElement(root, m, w, []);
    assert all + "" == all;
    assert ([ProcInst] + Delivered(Normalize(w([]))))[1..] == Delivered(Normalize(w([])));
  }

  lemma SpacedIsTrimmed(root: string, m: OrdMap, w: Gaps)
    ensures SpacedResponse(root, m, w) != "" && TrimSpace(SpacedResponse(root, m, w)) == SpacedResponse(root, m, w)
  {
    var body := SpacedResponse(root, m, w);
    hide SpacedPairs, Escape;
    assert body[0] == '<' && body[|body| - 1] == '>';
    TrimSpaceFixes(body);
  }

  /** What the parser reads of a print with texts between its elements. */
  lemma {:induction false} ParseSpaced(root: string, m: OrdMap, w: Gaps)
    requires IsName(root) && WellFormed(m.pairs) && LegalGaps(w) && (BlankGaps(w) || Filled(m.pairs))
    ensures ParseText(SpacedResponse(root, m, w))
         == if LegalPairs(m.pairs) then Ok(OrdMap(NormPairs(m.pairs))) else Err(SyntaxError)
  {
    assert UniqueKeys(m.pairs);
    hide ElementLaid, NormPairs, LegalPairs, WellFormed, Tokenize, SpacedResponse, TrimSpace, SetAll, BlankGaps,
         LegalGaps, Filled, UniqueKeys;
    SpacedRootReads(root, m, w);
    SpacedIsTrimmed(root, m, w);
    hide DecodeRoot;
    NormKeepsKeysUnique(m.pairs, "");
    SetAllAppends([], NormPairs(m.pairs));
    assert [] + NormPairs(m.pairs) == NormPairs(m.pairs);
  }

  lemma {:induction false} SpacedRootReads(root: string, m: OrdMap, w: Gaps)
    requires IsName(root) && WellFormed(m.pairs) && LegalGaps(w) && (BlankGaps(w) || Filled(m.pairs))
    ensures DecodeRoot(Tokenize(SpacedResponse(root, m, w), []))
         == if LegalPairs(m.pairs) then Ok(Some(NormPairs(m.pairs))) else Err(SyntaxError)
  {
    var before := [ProcInst] + Delivered(Normalize(w([])));
    hide ElementLaid, NormPairs, LegalPairs, WellFormed, Tokenize, SpacedResponse, Fits, Filled, IsBlankLayout,
         BlankGaps, LegalGaps, LayoutOf, Then, Normalize, DecodeRoot, TextOf;
    LayoutFits(w);
    DeliveredFits(Normalize(w([])));
    assert IsFiller(before);
    TokenizeSpacedResponse(root, m, w);
    RootReadsLaid(root, m, LayoutOf(w), before);
  }

  /**
   * White space between elements, as much of it and wherever, changes nothing of what is read; nor does any
   * other text where every map has a child for it to stand beside.
   */
  lemma {:induction false} SpacingIsInvisible(root: string, m: OrdMap, w: Gaps)
    requires IsName(root) && WellFormed(m.pairs) && LegalGaps(w) && (BlankGaps(w) || Filled(m.pairs))
    ensures ParseText(SpacedResponse(root, m, w)) == ParseText(RenderResponse(root, m))
  {
    ParseSpaced(root, m, w);
    ParsePrinted(root, m);
    hide ParseText, SpacedResponse, RenderResponse;
  }

  /** Without any element a request is the empty map; one that breaks before its root is an error. */
  lemma {:induction false} NoRootIsEmpty(f: seq<Token>)
    requires IsFiller(f)
    ensures DecodeRoot(Then(f, Eof)) == Ok(None) && DecodeRoot(Then(f, Broken)) == Err(SyntaxError)
    decreases |f|
  {
    if f != [] { NoRootIsEmpty(f[1..]); }
  }

  /** So a text without tags gives no field, unless it is no character data. */
  lemma TextIsEmptyRequest(t: string)
    requires '<' !in t
    ensures ParseText(t) == if IsCharData(TrimSpace(t)) then Ok(OrdMap([])) else Err(SyntaxError)
  {
    assert IsCharData("");
    hide IsCharData, TrimSpace;
    var s := TrimSpace(t);
    RootDecides(t);
    hide ParseText;
    if s != "" {
      DecodeRefuses(s);
      TokenizeTextOnly(s);
      hide Tokenize, Decode;
      assert DecodeRoot(Eof) == Ok(None);
    }
  }

  lemma RootDecides(t: string)
    ensures TrimSpace(t) == "" ==> ParseText(t) == Ok(OrdMap([]))
    ensures TrimSpace(t) != "" ==>
              var root := DecodeRoot(Tokenize(TrimSpace(t), []));
              && (root == Ok(None) ==> ParseText(t) == Ok(OrdMap([])))
              && (root == Err(SyntaxError) ==> ParseText(t) == Err(SyntaxError))
  {
    hide TrimSpace, Tokenize, DecodeRoot, SetAll;
  }

  lemma TokenizeTextOnly(s: string)
    requires s != "" && '<' !in s
    ensures Tokenize(s, []) == if Decode(s).Some? then More(CharData(Decode(s).value), Eof) else Broken
  {
    hide Decode, Index, NameLen, IsName;
    TextRunsOut(s);
    assert s[..|s|] == s && s[|s|..] == "";
    assert s[0] in s && s[0] != '<';
    assert Tokenize("", []) == Eof;
  }

  lemma {:induction false} TextRunsOut(s: string)
    requires '<' !in s
    ensures TextLen(s) == |s|
  {
    if s != "" {
      assert s[0] in s;
      TextRunsOut(s[1..]);
    }
  }
}
