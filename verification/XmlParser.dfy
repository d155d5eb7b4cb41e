/** The request parser: a recursive descent over the decoder's tokens that merges repeated tags. */
module XmlParser {
  import opened Text
  import opened OrdMaps
  import opened Xml

  datatype XmlError = SyntaxError

  // -------------------------------------------------- what the two loops compute

  /** A repeated tag turns maps into a list; a text never joins one. */
  function MergeChild(out: seq<Pair>, name: string, v: Value): seq<Pair> {
    match Get(out, name)
    case None => SetKey(out, name, v)
    case Some(Str(_)) => SetKey(out, name, v)
    case Some(Map(first)) => if v.Map? then SetKey(out, name, List([first, v.m])) else out
    case Some(List(items)) => if v.Map? then SetKey(out, name, List(items + [v.m])) else out
  }

  function ElementValue(text: string, hasChildren: bool, children: seq<Pair>): Value {
    if hasChildren then Map(OrdMap(children)) else Str(TrimSpace(text))
  }

  datatype Parsed<+T> = Done(value: T, rest: Tokens) | Fail

  /** `decodeElementValue` from a point inside its loop. */
  function ElementLoop(ts: Tokens, text: string, hasChildren: bool, children: seq<Pair>): (r: Parsed<Value>)
    ensures r.Done? ==> Count(r.rest) <= Count(ts)
    decreases Count(ts)
  {
    match ts
    case Eof => Done(ElementValue(text, hasChildren, children), Eof)
    case Broken => Fail
    case More(CharData(t), rest) => ElementLoop(rest, if hasChildren then text else text + t, hasChildren, children)
    case More(ProcInst, rest) => ElementLoop(rest, text, hasChildren, children)
    case More(End(_), rest) => Done(ElementValue(text, hasChildren, children), rest)
    case More(Start(name), rest) =>
      match ElementLoop(rest, "", false, [])
      case Fail => Fail
      case Done(v, rest') => ElementLoop(rest', text, true, MergeChild(children, name, v))
  }

  /** `decodeChildren` from a point inside its loop. */
  function ChildrenLoop(ts: Tokens, out: seq<Pair>): (r: Parsed<seq<Pair>>)
    decreases Count(ts)
  {
    match ts
    case Eof => Done(out, Eof)
    case Broken => Fail
    case More(CharData(_), rest) => ChildrenLoop(rest, out)
    case More(ProcInst, rest) => ChildrenLoop(rest, out)
    case More(End(_), rest) => Done(out, rest)
    case More(Start(name), rest) =>
      match ElementLoop(rest, "", false, [])
      case Fail => Fail
      case Done(v, rest') => ChildrenLoop(rest', MergeChild(out, name, v))
  }

  function DecodeRoot(ts: Tokens): Result<Option<seq<Pair>>, XmlError> {
    match ts
    case Eof => Ok(None)
    case Broken => Err(SyntaxError)
    case More(Start(_), rest) =>
      (match ChildrenLoop(rest, [])
       case Fail => Err(SyntaxError)
       case Done(out, _) => Ok(Some(out)))
    case More(_, rest) => DecodeRoot(rest)
  }

  function SetAll(out: seq<Pair>, ps: seq<Pair>): seq<Pair>
    decreases |ps|
  {
    if ps == [] then out else SetAll(SetKey(out, ps[0].key, ps[0].value), ps[1..])
  }

  /** `ParseRequestXML`. */
  function ParseText(xml: string): Result<OrdMap, XmlError> {
    var trimmed := TrimSpace(xml);
    if trimmed == "" then Ok(OrdMap([]))
    else
      match DecodeRoot(Tokenize(trimmed, []))
      case Err(e) => Err(e)
      case Ok(None) => Ok(OrdMap([]))
      case Ok(Some(root)) => Ok(OrdMap(SetAll([], root)))
  }

  // -------------------------------------------------------------- the loops

  datatype Stop = AtEof | AtError

  /** `xml.Decoder`, reduced to the tokens it still has to deliver. */
  class Decoder {
    var rest: Tokens

    constructor (ts: Tokens)
      ensures rest == ts
    {
      rest := ts;
    }

    method NextToken() returns (r: Result<Token, Stop>)
      modifies this
      ensures old(rest).More? ==> r == Ok(old(rest).token) && rest == old(rest).rest
      ensures !old(rest).More? ==> r == Err(if old(rest).Eof? then AtEof else AtError) && rest == old(rest)
    {
      match rest {
        case Eof => r := Err(AtEof);
        case Broken => r := Err(AtError);
        case More(t, ts) => rest := ts; r := Ok(t);
      }
    }
  }

  /** The merging switch, which the source writes out in both loops. */
  method Merge(out: Fields, name: string, v: Value)
    modifies out
    ensures out.pairs == MergeChild(old(out.pairs), name, v)
  {
    match Get(out.pairs, name) {
      case None => out.Set(name, v);
      case Some(Str(_)) => out.Set(name, v);
      case Some(Map(first)) =>
        if v.Map? { out.Set(name, List([first, v.m])); }
      case Some(List(items)) =>
        if v.Map? { out.Set(name, List(items + [v.m])); }
    }
  }

  method DecodeElementValue(dec: Decoder) returns (r: Result<Value, XmlError>)
    modifies dec
    ensures var spec := ElementLoop(old(dec.rest), "", false, []);
            if spec.Done? then r == Ok(spec.value) && dec.rest == spec.rest else r.Err?
    decreases Count(dec.rest)
  {
    var text := "";
    var hasChildren := false;
    var children := new Fields([]);
    while true
      invariant ElementLoop(dec.rest, text, hasChildren, children.pairs) == ElementLoop(old(dec.rest), "", false, [])
      invariant Count(dec.rest) <= old(Count(dec.rest))
      decreases Count(dec.rest)
    {
      var tok := dec.NextToken();
      match tok {
        case Err(AtEof) => break;
        case Err(AtError) => return Err(SyntaxError);
        case Ok(CharData(t)) => if !hasChildren { text := text + t; }
        case Ok(ProcInst) =>
        case Ok(Start(name)) =>
          hasChildren := true;
          var val := DecodeElementValue(dec);
          if val.Err? { return Err(SyntaxError); }
          Merge(children, name, val.value);
        case Ok(End(_)) => break;
      }
    }
    r := Ok(if hasChildren then Map(OrdMap(children.pairs)) else Str(TrimSpace(text)));
  }

  method DecodeChildren(dec: Decoder) returns (r: Result<seq<Pair>, XmlError>)
    modifies dec
    ensures var spec := ChildrenLoop(old(dec.rest), []);
            if spec.Done? then r == Ok(spec.value) && dec.rest == spec.rest else r.Err?
  {
    var out := new Fields([]);
    while true
      invariant ChildrenLoop(dec.rest, out.pairs) == ChildrenLoop(old(dec.rest), [])
      decreases Count(dec.rest)
    {
      var tok := dec.NextToken();
      match tok {
        case Err(AtEof) => break;
        case Err(AtError) => return Err(SyntaxError);
        case Ok(CharData(_)) =>
        case Ok(ProcInst) =>
        case Ok(Start(name)) =>
          var val := DecodeElementValue(dec);
          if val.Err? { return Err(SyntaxError); }
          Merge(out, name, val.value);
        case Ok(End(_)) => break;
      }
    }
    r := Ok(out.pairs);
  }

  method ParseRequestXML(xml: string) returns (r: Result<OrdMap, XmlError>)
    ensures r == ParseText(xml)
  {
    var trimmed := TrimSpace(xml);
    if trimmed == "" { return Ok(OrdMap([])); }
    var dec := new Decoder(Tokenize(trimmed, []));
    var found: Option<seq<Pair>> := None;
    while true
      invariant DecodeRoot(dec.rest) == DecodeRoot(Tokenize(trimmed, []))
      decreases Count(dec.rest)
    {
      var tok := dec.NextToken();
      match tok {
        case Err(AtEof) => return Ok(OrdMap([]));
        case Err(AtError) => return Err(SyntaxError);
        case Ok(Start(_)) =>
          var root := DecodeChildren(dec);
          if root.Err? { return Err(SyntaxError); }
          r := Rebuild(root.value);
          return;
        case Ok(_) =>
      }
    }
  }

  method Rebuild(root: seq<Pair>) returns (r: Result<OrdMap, XmlError>)
    ensures r == Ok(OrdMap(SetAll([], root)))
  {
    var fields := new Fields([]);
    for i := 0 to |root|
      invariant SetAll([], root) == SetAll(fields.pairs, root[i..])
    {
      assert root[i..] == [root[i]] + root[i + 1..];
      fields.Set(root[i].key, root[i].value);
    }
    r := Ok(OrdMap(fields.pairs));
  }

  // ------------------------------------------------------- the two copies agree

  /** Once an element has a child, both loops build the same map from the same tokens. */
  lemma {:induction false} LoopsAgree(ts: Tokens, text: string, kids: seq<Pair>)
    ensures var e, c := ElementLoop(ts, text, true, kids), ChildrenLoop(ts, kids);
            if c.Done? then e == Done(Map(OrdMap(c.value)), c.rest) else e.Fail?
    decreases Count(ts)
  {
    match ts
    case Eof =>
    case Broken =>
    case More(CharData(_), rest) => LoopsAgree(rest, text, kids);
    case More(ProcInst, rest) => LoopsAgree(rest, text, kids);
    case More(End(_), _) =>
    case More(Start(name), rest) =>
      var child := ElementLoop(rest, "", false, []);
      if child.Done? {
        LoopsAgree(child.rest, text, MergeChild(kids, name, child.value));
      }
  }

  // -------------------------------------------------- printing, then parsing back

  /** What a leaf becomes on the wire. */
  function Wire(s: string): (r: string)
    ensures |r| <= |s|
  {
    TrimSpace(Normalize(s))
  }

  /** Prints nothing: every value is an empty list. */
  predicate Blank(ps: seq<Pair>) {
    ps == [] || (ps[0].value == List([]) && Blank(ps[1..]))
  }

  ghost predicate LegalPairs(ps: seq<Pair>)
    decreases ps
  {
    forall i :: 0 <= i < |ps| ==> LegalValue(ps[i].value)
  }

  /** Every leaf below holds legal XML characters only. */
  ghost predicate LegalValue(v: Value)
    decreases v
  {
    match v
    case Str(s) => LegalText(s)
    case Map(m) => LegalPairs(m.pairs)
    case List(items) => forall i :: 0 <= i < |items| ==> LegalPairs(items[i].pairs)
  }

  /** What parsing a print gives back. */
  function NormPairs(ps: seq<Pair>): seq<Pair>
    decreases ps
  {
    if ps == [] then [] else NormPair(ps[0].key, ps[0].value) + NormPairs(ps[1..])
  }

  function NormPair(k: string, v: Value): seq<Pair>
    decreases v
  {
    match v
    case Str(s) => [Pair(k, Str(Wire(s)))]
    case Map(m) => [Pair(k, if Blank(m.pairs) then Str("") else Map(OrdMap(NormPairs(m.pairs))))]
    case List(items) => if items == [] then [] else [Pair(k, Collapse(NonBlank(items)))]
  }

  function NonBlank(items: seq<OrdMap>): seq<OrdMap>
    decreases items
  {
    if items == [] then []
    else (if Blank(items[0].pairs) then [] else [OrdMap(NormPairs(items[0].pairs))]) + NonBlank(items[1..])
  }

  function Collapse(maps: seq<OrdMap>): Value {
    if maps == [] then Str("") else if |maps| == 1 then Map(maps[0]) else List(maps)
  }

  ghost predicate DisjointKeys(kids: seq<Pair>, ps: seq<Pair>) {
    forall i :: 0 <= i < |ps| ==> !HasKey(kids, ps[i].key)
  }

  lemma WellFormedParts(ps: seq<Pair>)
    requires WellFormed(ps) && ps != []
    ensures WellFormed(ps[1..]) && WellFormedValue(ps[0].value) && IsName(ps[0].key)
    ensures LegalPairs(ps) <==> LegalValue(ps[0].value) && LegalPairs(ps[1..])
  {
    assert ps == [ps[0]] + ps[1..];
    assert forall i :: 0 <= i < |ps[1..]| ==> ps[1..][i] == ps[i + 1];
    forall i | 0 <= i < |ps| && i > 0 ensures ps[i] == ps[1..][i - 1] {}
  }

  lemma DisjointTail(kids: seq<Pair>, v: Value, ps: seq<Pair>)
    requires ps != [] && UniqueKeys(ps) && DisjointKeys(kids, ps)
    ensures DisjointKeys(kids, ps[1..])
    ensures DisjointKeys(kids + [Pair(ps[0].key, v)], ps[1..])
  {
    forall i | 0 <= i < |ps[1..]|
      ensures !HasKey(kids, ps[1..][i].key) && !HasKey(kids + [Pair(ps[0].key, v)], ps[1..][i].key)
    {
      assert ps[1..][i] == ps[i + 1];
      KeysMembership(ps[1..], ps[0].key);
      HasKeyAppend(kids, [Pair(ps[0].key, v)], ps[i + 1].key);
    }
  }

  lemma DisjointNext(kids: seq<Pair>, ps: seq<Pair>)
    requires ps != [] && UniqueKeys(ps) && DisjointKeys(kids, ps)
    ensures DisjointKeys(kids + NormPair(ps[0].key, ps[0].value), ps[1..])
  {
    var head := NormPair(ps[0].key, ps[0].value);
    if head == [] {
      assert kids + head == kids;
      DisjointTail(kids, ps[0].value, ps);
    } else {
      DisjointTail(kids, head[0].value, ps);
    }
  }

  /** The loop reads a printed map's tokens and appends its normal form, or fails on an illegal leaf. */
  lemma {:induction false} LoopReadsPairs(ps: seq<Pair>, ts: Tokens, text: string, has: bool, kids: seq<Pair>)
    requires WellFormed(ps) && DisjointKeys(kids, ps)
    ensures ElementLoop(PairsTokens(ps, ts), text, has, kids)
         == if LegalPairs(ps) then ElementLoop(ts, text, has || !Blank(ps), kids + NormPairs(ps)) else Fail
    decreases ps, 0
  {
    if ps == [] {
      assert kids + NormPairs(ps) == kids;
    } else {
      var k, v, more := ps[0].key, ps[0].value, PairsTokens(ps[1..], ts);
      WellFormedParts(ps);
      LoopReadsValue(k, v, more, text, has, kids);
      if LegalValue(v) {
        DisjointNext(kids, ps);
        LoopReadsPairs(ps[1..], ts, text, has || v != List([]), kids + NormPair(k, v));
        Assoc(kids, NormPair(k, v), NormPairs(ps[1..]));
      }
    }
  }

  lemma {:induction false} LoopReadsValue(k: string, v: Value, ts: Tokens, text: string, has: bool, kids: seq<Pair>)
    requires WellFormedValue(v) && !HasKey(kids, k)
    ensures ElementLoop(ValueTokens(k, v, ts), text, has, kids)
         == if LegalValue(v) then ElementLoop(ts, text, has || v != List([]), kids + NormPair(k, v)) else Fail
    decreases v, 0
  {
    match v
    case Str(s) => LoopReadsString(k, s, ts, text, has, kids);
    case Map(m) => LoopReadsMap(k, m, ts, text, has, kids);
    case List(items) =>
      ListIsItems(items);
      LoopReadsList(k, items, ts, text, has, kids);
  }

  lemma LoopStepsIn(k: string, rest: Tokens, text: string, has: bool, kids: seq<Pair>)
    ensures ElementLoop(More(Start(k), rest), text, has, kids)
         == match ElementLoop(rest, "", false, [])
            case Fail => Fail
            case Done(v, rest') => ElementLoop(rest', text, true, MergeChild(kids, k, v))
  {
    hide MergeChild, TrimSpace;
  }

  lemma LoopReadsString(k: string, s: string, ts: Tokens, text: string, has: bool, kids: seq<Pair>)
    requires !HasKey(kids, k)
    ensures ElementLoop(ValueTokens(k, Str(s), ts), text, has, kids)
         == if LegalText(s) then ElementLoop(ts, text, true, kids + NormPair(k, Str(s))) else Fail
  {
    hide ElementLoop, Xml.LegalText, Xml.Normalize, Wire;
    SetAppends(kids, k, Str(Wire(s)));
    LoopReadsLeaf(k, s, ts);
    LoopStepsIn(k, ValueTokens(k, Str(s), ts).rest, text, has, kids);
    BrokenFails();
  }

  lemma BrokenFails()
    ensures ElementLoop(Broken, "", false, []) == Fail
  {
  }

  lemma {:induction false} LoopReadsMap(k: string, m: OrdMap, ts: Tokens, text: string, has: bool, kids: seq<Pair>)
    requires WellFormed(m.pairs) && !HasKey(kids, k)
    ensures ElementLoop(ValueTokens(k, Map(m), ts), text, has, kids)
         == if LegalPairs(m.pairs) then ElementLoop(ts, text, true, kids + NormPair(k, Map(m))) else Fail
    decreases m, 1
  {
    hide ElementLoop, WellFormed, LegalPairs, Xml.PairsTokens, NormPairs, Blank;
    LoopReadsElement(m, k, ts);
    SetAppends(kids, k, NormPair(k, Map(m))[0].value);
    LoopStepsIn(k, PairsTokens(m.pairs, More(End(k), ts)), text, has, kids);
  }

  lemma ListIsItems(items: seq<OrdMap>)
    ensures WellFormedValue(List(items)) == AllWell(items) && LegalValue(List(items)) == LegalItems(items)
  {
    hide WellFormed, LegalPairs;
  }

  lemma {:induction false} LoopReadsList(k: string, items: seq<OrdMap>, ts: Tokens, text: string, has: bool,
                                         kids: seq<Pair>)
    requires AllWell(items) && !HasKey(kids, k)
    ensures ElementLoop(ItemsTokens(k, items, ts), text, has, kids)
         == if LegalItems(items)
            then ElementLoop(ts, text, has || items != [], kids + NormPair(k, List(items)))
            else Fail
    decreases items, 1
  {
    hide ElementLoop, AllWell, LegalItems, Xml.ItemsTokens, NonBlank, HasKey;
    LoopReadsItems(k, items, [], false, ts, text, has, kids);
    assert kids + [] == kids;
    assert [] + NonBlank(items) == NonBlank(items);
  }

  lemma LoopReadsEnd(k: string, text: string, ts: Tokens)
    ensures ElementLoop(More(End(k), ts), text, false, []) == Done(Str(TrimSpace(text)), ts)
  {
  }

  lemma LoopReadsText(t: string, ts: Tokens)
    ensures ElementLoop(More(CharData(t), ts), "", false, []) == ElementLoop(ts, t, false, [])
  {
    hide MergeChild, TrimSpace, Count;
    assert "" + t == t;
  }

  lemma LoopReadsLeaf(k: string, s: string, ts: Tokens)
    ensures LegalText(s) ==>
              ValueTokens(k, Str(s), ts).More?
              && ElementLoop(ValueTokens(k, Str(s), ts).rest, "", false, []) == Done(Str(Wire(s)), ts)
    ensures !LegalText(s) ==> ValueTokens(k, Str(s), ts) == More(Start(k), Broken)
  {
    hide ElementLoop;
    if LegalText(s) {
      LoopReadsEnd(k, Normalize(s), ts);
      LoopReadsText(Normalize(s), More(End(k), ts));
    }
  }

  lemma {:induction false} LoopReadsElement(m: OrdMap, k: string, ts: Tokens)
    requires WellFormed(m.pairs)
    ensures ElementLoop(PairsTokens(m.pairs, More(End(k), ts)), "", false, [])
         == if LegalPairs(m.pairs)
            then Done(if Blank(m.pairs) then Str("") else Map(OrdMap(NormPairs(m.pairs))), ts)
            else Fail
    decreases m, 0
  {
    LoopReadsPairs(m.pairs, More(End(k), ts), "", false, []);
    assert [] + NormPairs(m.pairs) == NormPairs(m.pairs);
  }

  ghost predicate AllWell(items: seq<OrdMap>) {
    forall i :: 0 <= i < |items| ==> WellFormed(items[i].pairs)
  }

  ghost predicate LegalItems(items: seq<OrdMap>) {
    forall i :: 0 <= i < |items| ==> LegalPairs(items[i].pairs)
  }

  /** `seen` are the non-blank items merged so far under `k`, if any item was read at all. */
  function SoFar(k: string, seen: seq<OrdMap>, any: bool): seq<Pair> {
    if any then [Pair(k, Collapse(seen))] else []
  }

  lemma MergeItem(kids: seq<Pair>, k: string, seen: seq<OrdMap>, any: bool, v: Value)
    requires !HasKey(kids, k) && (seen != [] ==> any) && (v.Map? || v == Str(""))
    ensures MergeChild(kids + SoFar(k, seen, any), k, v)
         == kids + SoFar(k, if v.Map? then seen + [v.m] else seen, true)
  {
    if any {
      SetReplacesLast(kids, k, Collapse(seen), v);
      if v.Map? {
        SetReplacesLast(kids, k, Collapse(seen), Collapse(seen + [v.m]));
        if |seen| == 1 { assert seen + [v.m] == [seen[0], v.m]; }
      }
    } else {
      assert kids + SoFar(k, seen, any) == kids;
      SetAppends(kids, k, v);
    }
  }

  lemma {:induction false} LoopReadsItems(k: string, items: seq<OrdMap>, seen: seq<OrdMap>, any: bool,
                                          ts: Tokens, text: string, has: bool, kids: seq<Pair>)
    requires AllWell(items) && !HasKey(kids, k) && (seen != [] ==> any)
    ensures ElementLoop(ItemsTokens(k, items, ts), text, has, kids + SoFar(k, seen, any))
         == if LegalItems(items)
            then ElementLoop(ts, text, has || items != [],
                             kids + SoFar(k, seen + NonBlank(items), any || items != []))
            else Fail
    decreases items, 0
  {
    if items == [] {
      assert seen + NonBlank(items) == seen;
    } else {
      var m := items[0];
      ItemsSplit(items);
      SeenThen(seen, items);
      hide ElementLoop, WellFormed, AllWell, LegalPairs, LegalItems, Xml.PairsTokens, NormPairs, HasKey, Blank,
           SeenAfter, NonBlank, SoFar;
      LoopReadsItem(k, m, seen, any, ItemsTokens(k, items[1..], ts), text, has, kids);
      if LegalPairs(m.pairs) {
        LoopReadsItems(k, items[1..], SeenAfter(seen, m), true, ts, text, true, kids);
      }
    }
  }

  lemma SeenThen(seen: seq<OrdMap>, items: seq<OrdMap>)
    requires items != []
    ensures SeenAfter(seen, items[0]) + NonBlank(items[1..]) == seen + NonBlank(items)
  {
    hide Blank, NormPairs;
    var m := items[0];
    var head := if Blank(m.pairs) then [] else [OrdMap(NormPairs(m.pairs))];
    assert SeenAfter(seen, m) == seen + head;
    Assoc(seen, head, NonBlank(items[1..]));
  }

  function SeenAfter(seen: seq<OrdMap>, m: OrdMap): seq<OrdMap> {
    if Blank(m.pairs) then seen else seen + [OrdMap(NormPairs(m.pairs))]
  }

  lemma {:induction false} LoopReadsItem(k: string, m: OrdMap, seen: seq<OrdMap>, any: bool,
                                         ts: Tokens, text: string, has: bool, kids: seq<Pair>)
    requires WellFormed(m.pairs) && !HasKey(kids, k) && (seen != [] ==> any)
    ensures ElementLoop(More(Start(k), PairsTokens(m.pairs, More(End(k), ts))), text, has, kids + SoFar(k, seen, any))
         == if LegalPairs(m.pairs)
            then ElementLoop(ts, text, true, kids + SoFar(k, SeenAfter(seen, m), true))
            else Fail
    decreases m, 1
  {
    LoopReadsElement(m, k, ts);
    LoopStepsIn(k, PairsTokens(m.pairs, More(End(k), ts)), text, has, kids + SoFar(k, seen, any));
    hide ElementLoop, WellFormed, LegalPairs, Xml.PairsTokens, NormPairs, Blank, MergeChild, SoFar, HasKey;
    if LegalPairs(m.pairs) {
      MergeItem(kids, k, seen, any, if Blank(m.pairs) then Str("") else Map(OrdMap(NormPairs(m.pairs))));
    }
  }

  lemma ItemsSplit(items: seq<OrdMap>)
    requires items != []
    ensures LegalItems(items) <==> LegalPairs(items[0].pairs) && LegalItems(items[1..])
    ensures AllWell(items) ==> WellFormed(items[0].pairs) && AllWell(items[1..])
  {
    hide LegalPairs, WellFormed;
    forall i | 0 < i < |items| ensures items[i] == items[1..][i - 1] {}
    assert forall i :: 0 <= i < |items[1..]| ==> items[1..][i] == items[i + 1];
  }

  lemma {:induction false} SetAllAppends(out: seq<Pair>, ps: seq<Pair>)
    requires UniqueKeys(ps) && DisjointKeys(out, ps)
    ensures SetAll(out, ps) == out + ps
    decreases |ps|
  {
    if ps != [] {
      SetAppends(out, ps[0].key, ps[0].value);
      DisjointTail(out, ps[0].value, ps);
      SetAllAppends(out + [Pair(ps[0].key, ps[0].value)], ps[1..]);
      assert ps == [ps[0]] + ps[1..];
    }
  }

  lemma {:induction false} NormKeepsKeysUnique(ps: seq<Pair>, k: string)
    ensures HasKey(NormPairs(ps), k) ==> HasKey(ps, k)
    ensures UniqueKeys(ps) ==> UniqueKeys(NormPairs(ps))
    decreases |ps|
  {
    if ps != [] {
      NormKeepsKeysUnique(ps[1..], k);
      NormKeepsKeysUnique(ps[1..], ps[0].key);
      var head := NormPair(ps[0].key, ps[0].value);
      HasKeyAppend(head, NormPairs(ps[1..]), k);
      if head != [] {
        assert NormPairs(ps)[1..] == NormPairs(ps[1..]);
      } else {
        assert NormPairs(ps) == NormPairs(ps[1..]);
      }
    }
  }

  lemma PrintIsTrimmed(root: string, m: OrdMap)
    ensures RenderResponse(root, m) != "" && TrimSpace(RenderResponse(root, m)) == RenderResponse(root, m)
  {
    var body := RenderResponse(root, m);
    hide Xml.RenderPairs;
    assert body[0] == '<' && body[|body| - 1] == '>';
    TrimSpaceFixes(body);
  }

  lemma RootReadsPairs(root: string, ps: seq<Pair>)
    requires WellFormed(ps)
    ensures ChildrenLoop(PairsTokens(ps, More(End(root), Eof)), [])
         == if LegalPairs(ps) then Done(NormPairs(ps), Eof) else Fail
  {
    LoopReadsPairs(ps, More(End(root), Eof), "", true, []);
    LoopsAgree(PairsTokens(ps, More(End(root), Eof)), "", []);
    assert [] + NormPairs(ps) == NormPairs(ps);
    hide LegalPairs, NormPairs, PairsTokens, WellFormed, Blank;
  }

  lemma RootBehindDeclaration(root: string, ts: Tokens)
    ensures DecodeRoot(More(ProcInst, More(Start(root), ts))) == DecodeRoot(More(Start(root), ts))
  {
    hide ChildrenLoop;
  }

  /** Parsing a printed map gives its normal form; it fails exactly when some leaf holds an illegal character. */
  lemma ParsePrinted(root: string, m: OrdMap)
    requires IsName(root) && WellFormed(m.pairs)
    ensures ParseText(RenderResponse(root, m))
         == if LegalPairs(m.pairs) then Ok(OrdMap(NormPairs(m.pairs))) else Err(SyntaxError)
  {
    hide ChildrenLoop, PairsTokens, NormPairs, LegalPairs, Xml.Tokenize, Xml.RenderResponse, TrimSpace, SetAll;
    PrintIsTrimmed(root, m);
    TokenizeResponse(root, m);
    RootReadsPairs(root, m.pairs);
    RootBehindDeclaration(root, PairsTokens(m.pairs, More(End(root), Eof)));
    NormKeepsKeysUnique(m.pairs, "");
    SetAllAppends([], NormPairs(m.pairs));
    assert [] + NormPairs(m.pairs) == NormPairs(m.pairs);
  }
}
