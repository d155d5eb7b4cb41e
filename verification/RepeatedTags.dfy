/** What the parser makes of tags that come more than once, in whatever order with others. */
module RepeatedTags {
  import opened Text
  import opened OrdMaps
  import opened Xml
  import opened XmlParser

  /** A parsed element is a text or a map; only merging makes lists. */
  predicate NoLists(children: seq<Pair>) {
    forall i :: 0 <= i < |children| ==> !children[i].value.List?
  }

  /** The loop's merging of one child after the other. */
  function MergeAll(kids: seq<Pair>, children: seq<Pair>): seq<Pair>
    decreases |children|
  {
    if children == [] then kids
    else
      var n := |children| - 1;
      MergeChild(MergeAll(kids, children[..n]), children[n].key, children[n].value)
  }

  function ValuesOf(children: seq<Pair>, k: string): seq<Value>
    decreases |children|
  {
    if children == [] then []
    else
      var n := |children| - 1;
      ValuesOf(children[..n], k) + (if children[n].key == k then [children[n].value] else [])
  }

  function MapsOf(vs: seq<Value>): seq<OrdMap>
    decreases |vs|
  {
    if vs == [] then []
    else
      var last := vs[|vs| - 1];
      MapsOf(vs[..|vs| - 1]) + (if last.Map? then [last.m] else [])
  }

  /** The maps among the values, all of them and in order; without any, the last text. */
  function Collected(vs: seq<Value>): Value
    requires vs != []
  {
    var maps := MapsOf(vs);
    if maps == [] then vs[|vs| - 1] else if |maps| == 1 then Map(maps[0]) else List(maps)
  }

  lemma {:induction false} NoMapsNoMap(vs: seq<Value>)
    requires vs != [] && MapsOf(vs) == []
    ensures !vs[|vs| - 1].Map?
  {
  }

  lemma CollectedNext(vs: seq<Value>, v: Value)
    ensures var all := vs + [v];
            && MapsOf(all) == MapsOf(vs) + (if v.Map? then [v.m] else [])
            && (vs == [] ==> Collected(all) == v)
  {
    assert (vs + [v])[..|vs|] == vs;
    if vs == [] {
      assert vs + [v] == [v];
      assert MapsOf([]) == [];
    }
  }

  /** One more child under the name merges as if all had been collected at once. */
  lemma MergeCollects(kids: seq<Pair>, k: string, vs: seq<Value>, v: Value)
    requires UniqueKeys(kids) && !v.List? && (vs != [] ==> !vs[|vs| - 1].List?)
    requires Get(kids, k) == if vs == [] then None else Some(Collected(vs))
    ensures Get(MergeChild(kids, k, v), k) == Some(Collected(vs + [v]))
  {
    hide Get, SetKey, UniqueKeys;
    CollectedNext(vs, v);
    var maps := MapsOf(vs);
    if vs != [] && maps == [] { NoMapsNoMap(vs); }
    assert maps + [] == maps && [] + (if v.Map? then [v.m] else []) == if v.Map? then [v.m] else [];
    assert (vs + [v])[|vs|] == v;
    hide MapsOf;
    GetAfterSet(kids, k, v, k);
    if vs != [] && maps != [] && v.Map? {
      GetAfterSet(kids, k, List(maps + [v.m]), k);
      if |maps| == 1 { assert maps + [v.m] == [maps[0], v.m]; }
    }
  }

  lemma MergeKeepsOthers(kids: seq<Pair>, name: string, v: Value, k: string)
    requires UniqueKeys(kids)
    ensures UniqueKeys(MergeChild(kids, name, v))
    ensures k != name ==> Get(MergeChild(kids, name, v), k) == Get(kids, k)
  {
    hide SetKey, UniqueKeys, Get;
    forall w: Value
      ensures UniqueKeys(SetKey(kids, name, w)) && (k != name ==> Get(SetKey(kids, name, w), k) == Get(kids, k))
    {
      GetAfterSet(kids, name, w, k);
    }
  }

  /**
   * A name holds the maps among its children, one alone or a list of all in order, whatever texts stand between
   * them; with texts only it holds the last. A name without children is not there.
   */
  lemma {:induction false} RepeatedTagsCollect(children: seq<Pair>, k: string)
    requires NoLists(children)
    ensures UniqueKeys(MergeAll([], children))
    ensures var vs := ValuesOf(children, k);
            Get(MergeAll([], children), k) == if vs == [] then None else Some(Collected(vs))
    ensures forall i :: 0 <= i < |ValuesOf(children, k)| ==> !ValuesOf(children, k)[i].List?
    decreases |children|
  {
    if children != [] {
      var n := |children| - 1;
      var front, last := children[..n], children[n];
      assert NoLists(front);
      RepeatedTagsCollect(front, k);
      var kids := MergeAll([], front);
      MergeKeepsOthers(kids, last.key, last.value, k);
      hide Get, UniqueKeys, MergeChild, Collected;
      if last.key == k {
        MergeCollects(kids, k, ValuesOf(front, k), last.value);
      } else {
        assert ValuesOf(front, k) + [] == ValuesOf(front, k);
      }
    }
  }

  // ---------------------------------------------------------- the same as a text

  /** Elements that may repeat their names; the maps inside are well formed. */
  ghost predicate Printable(ps: seq<Pair>) {
    forall i :: 0 <= i < |ps| ==> IsName(ps[i].key) && WellFormedValue(ps[i].value)
  }

  /** What one element reads as. */
  function Read(v: Value): Value {
    match v
    case Str(s) => Str(Wire(s))
    case Map(m) => if Blank(m.pairs) then Str("") else Map(OrdMap(NormPairs(m.pairs)))
    case List(_) => v
  }

  function AllRead(ps: seq<Pair>): seq<Pair>
    decreases |ps|
  {
    if ps == [] then [] else AllRead(ps[..|ps| - 1]) + [Pair(ps[|ps| - 1].key, Read(ps[|ps| - 1].value))]
  }

  lemma {:induction false} PrintableParts(ps: seq<Pair>, i: nat)
    requires Printable(ps) && i <= |ps|
    ensures Printable(ps[..i]) && Printable(ps[i..])
    ensures NoLists(ps) ==> NoLists(ps[..i]) && NoLists(ps[i..])
  {
    hide WellFormedValue;
    assert forall j :: 0 <= j < |ps[i..]| ==> ps[i..][j] == ps[i + j];
  }

  lemma {:induction false} TokenizeRepeated(ps: seq<Pair>, rest: string, open: seq<string>)
    requires Printable(ps)
    ensures Tokenize(RenderPairs(ps) + rest, open) == PairsTokens(ps, Tokenize(rest, open))
    decreases |ps|
  {
    if ps == [] {
      assert RenderPairs(ps) + rest == rest;
    } else {
      PrintableParts(ps, 1);
      var more := RenderPairs(ps[1..]) + rest;
      assert IsName(ps[0].key) && WellFormedValue(ps[0].value);
      Assoc(RenderValue(ps[0].key, ps[0].value), RenderPairs(ps[1..]), rest);
      hide Tokenize, WellFormedValue, Printable, RenderValue;
      TokenizeValue(ps[0].key, ps[0].value, more, open);
      TokenizeRepeated(ps[1..], rest, open);
    }
  }

  /** The loop reads one printed element after the other and merges each. */
  lemma {:induction false} ChildrenReadRepeated(ps: seq<Pair>, ts: Tokens)
    requires Printable(ps) && NoLists(ps)
    ensures ChildrenLoop(PairsTokens(ps, ts), [])
         == if LegalPairs(ps) then ChildrenLoop(ts, MergeAll([], AllRead(ps))) else Fail
    decreases |ps|
  {
    if ps != [] {
      var n := |ps| - 1;
      var front, last := ps[..n], ps[n];
      PrintableParts(ps, n);
      assert WellFormedValue(last.value) && !last.value.List?;
      hide PairsTokens, Printable, NoLists, WellFormedValue, LegalPairs, LegalValue, ChildrenLoop, MergeChild, Read,
           MergeAll, AllRead, ValueTokens;
      TokensOfFront(ps, ts);
      LegalFront(ps);
      MergeReadNext(ps);
      ChildrenReadRepeated(front, ValueTokens(last.key, last.value, ts));
      if LegalPairs(front) { ChildReads(last, ts, MergeAll([], AllRead(front))); }
    }
  }

  lemma MergeReadNext(ps: seq<Pair>)
    requires ps != []
    ensures var front, last := ps[..|ps| - 1], ps[|ps| - 1];
            MergeAll([], AllRead(ps)) == MergeChild(MergeAll([], AllRead(front)), last.key, Read(last.value))
  {
    hide MergeChild, Read;
    var front, last := ps[..|ps| - 1], ps[|ps| - 1];
    ReadLength(front);
    assert AllRead(ps) == AllRead(front) + [Pair(last.key, Read(last.value))];
    assert AllRead(ps)[..|ps| - 1] == AllRead(front);
  }

  lemma {:induction false} ReadLength(ps: seq<Pair>)
    ensures |AllRead(ps)| == |ps|
    decreases |ps|
  {
    if ps != [] { ReadLength(ps[..|ps| - 1]); }
  }

  lemma {:induction false} TokensOfFront(ps: seq<Pair>, ts: Tokens)
    requires ps != []
    ensures var n := |ps| - 1; PairsTokens(ps, ts) == PairsTokens(ps[..n], ValueTokens(ps[n].key, ps[n].value, ts))
    decreases |ps|
  {
    var n := |ps| - 1;
    if n > 0 {
      TokensOfFront(ps[1..], ts);
      assert ps[1..][..n - 1] == ps[..n][1..] && ps[1..][n - 1] == ps[n];
      hide ValueTokens;
    } else {
      assert ps[1..] == [] && ps[..0] == [];
      hide ValueTokens;
    }
  }

  lemma LegalFront(ps: seq<Pair>)
    requires ps != []
    ensures LegalPairs(ps) <==> LegalPairs(ps[..|ps| - 1]) && LegalValue(ps[|ps| - 1].value)
  {
    hide LegalValue;
    var n := |ps| - 1;
    assert forall i :: 0 <= i < n ==> ps[..n][i] == ps[i];
  }

  lemma ChildReads(p: Pair, ts: Tokens, kids: seq<Pair>)
    requires WellFormedValue(p.value) && !p.value.List?
    ensures ChildrenLoop(ValueTokens(p.key, p.value, ts), kids)
         == if LegalValue(p.value) then ChildrenLoop(ts, MergeChild(kids, p.key, Read(p.value))) else Fail
  {
    match p.value
    case Str(s) =>
      LoopReadsLeaf(p.key, s, ts);
      BrokenFails();
      hide ElementLoop, MergeChild, Wire, LegalText, Normalize;
    case Map(m) =>
      LoopReadsElement(m, p.key, ts);
      hide ElementLoop, MergeChild, Blank, NormPairs, LegalPairs, PairsTokens, WellFormed;
  }

  lemma {:induction false} ReadHasNoLists(ps: seq<Pair>)
    requires NoLists(ps)
    ensures NoLists(AllRead(ps))
    decreases |ps|
  {
    if ps != [] {
      var n := |ps| - 1;
      assert NoLists(ps[..n]) && !ps[n].value.List?;
      ReadHasNoLists(ps[..n]);
    }
  }

  /**
   * A request whose tags repeat: under each name the parsed map holds all maps of that name, in order, or the
   * last text when there is no map.
   */
  lemma {:induction false} RepeatedTagsParse(root: string, ps: seq<Pair>, k: string)
    requires IsName(root) && Printable(ps) && NoLists(ps)
    ensures var r := ParseText(RenderResponse(root, OrdMap(ps)));
            var vs := ValuesOf(AllRead(ps), k);
            if LegalPairs(ps) then r.Ok? && Get(r.value.pairs, k) == if vs == [] then None else Some(Collected(vs))
            else r == Err(SyntaxError)
  {
    var kids := MergeAll([], AllRead(ps));
    ReadHasNoLists(ps);
    RepeatedTagsCollect(AllRead(ps), k);
    SetAllAppends([], kids);
    assert [] + kids == kids;
    hide LegalPairs, RenderResponse, SetAll, Get, UniqueKeys, MergeAll, AllRead, NoLists, Printable, Collected,
         ValuesOf, ParseText;
    ParseRepeated(root, ps);
  }

  lemma ParseRepeated(root: string, ps: seq<Pair>)
    requires IsName(root) && Printable(ps) && NoLists(ps)
    ensures ParseText(RenderResponse(root, OrdMap(ps)))
         == if LegalPairs(ps) then Ok(OrdMap(SetAll([], MergeAll([], AllRead(ps))))) else Err(SyntaxError)
  {
    var ts := PairsTokens(ps, More(End(root), Eof));
    hide PairsTokens, LegalPairs, Tokenize, RenderResponse, TrimSpace, SetAll, MergeAll, AllRead, NoLists, Printable,
         ChildrenLoop, IsName;
    RootEnds(root, MergeAll([], AllRead(ps)));
    TokenizeRepeatedRoot(root, ps);
    PrintIsTrimmed(root, OrdMap(ps));
    RootBehindDeclaration(root, ts);
    ChildrenReadRepeated(ps, More(End(root), Eof));
  }

  lemma RootEnds(root: string, kids: seq<Pair>)
    ensures ChildrenLoop(More(End(root), Eof), kids) == Done(kids, Eof)
  {
  }

  lemma TokenizeRepeatedRoot(root: string, ps: seq<Pair>)
    requires IsName(root) && Printable(ps)
    ensures Tokenize(RenderResponse(root, OrdMap(ps)), [])
         == More(ProcInst, More(Start(root), PairsTokens(ps, More(End(root), Eof))))
  {
    assert Tokenize("", []) == Eof;
    hide Tokenize, RenderPairs, PairsTokens, Printable;
    TokenizeDeclaration(OpenTag(root) + RenderPairs(ps) + CloseTag(root));
    hide OpenTag, CloseTag;
    NothingBehind(OpenTag(root), RenderPairs(ps), CloseTag(root));
    TokenizeOpen(root, RenderPairs(ps) + (CloseTag(root) + ""), []);
    TokenizeRepeated(ps, CloseTag(root) + "", [root] + []);
    TokenizeClose(root, "", []);
  }
}
