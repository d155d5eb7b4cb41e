/** The parser's normal form, and why printing and parsing are inverse on it. */
module Canonical {
  import opened Text
  import opened OrdMaps
  import opened Xml
  import opened XmlParser

  /** Unique names for keys, trimmed legal leaves without CR, no empty nested map,
      lists of at least two non-empty maps: at every level. */
  ghost predicate CanonicalPairs(ps: seq<Pair>)
    decreases ps
  {
    && UniqueKeys(ps)
    && forall i :: 0 <= i < |ps| ==> IsName(ps[i].key) && CanonicalValue(ps[i].value)
  }

  ghost predicate CanonicalValue(v: Value)
    decreases v
  {
    match v
    case Str(s) => CleanText(s) && Trimmed(s)
    case Map(m) => m.pairs != [] && CanonicalPairs(m.pairs)
    case List(items) =>
      |items| >= 2 && forall i :: 0 <= i < |items| ==> items[i].pairs != [] && CanonicalPairs(items[i].pairs)
  }

  predicate CleanText(s: string) {
    LegalText(s) && '\r' !in s
  }

  // ------------------------------------------------ every parse is canonical

  predicate CleanTokens(ts: Tokens) {
    ts.More? ==>
      && (ts.token.CharData? ==> CleanText(ts.token.text))
      && (ts.token.Start? ==> IsName(ts.token.name))
      && CleanTokens(ts.rest)
  }

  lemma {:induction false} DecodeIsClean(raw: string)
    ensures var t := Decode(raw); t.Some? ==> CleanText(t.value)
    decreases |raw|
  {
    if raw == "" {
    } else if raw[0] == '&' {
      if "&amp;" <= raw { DecodeIsClean(raw[5..]); }
      else if "&lt;" <= raw { DecodeIsClean(raw[4..]); }
      else if "&gt;" <= raw { DecodeIsClean(raw[4..]); }
      else if "&quot;" <= raw { DecodeIsClean(raw[6..]); }
      else if "&apos;" <= raw { DecodeIsClean(raw[6..]); }
    } else if "\r\n" <= raw {
      DecodeIsClean(raw[2..]);
    } else {
      DecodeIsClean(raw[1..]);
    }
  }

  lemma {:induction false} TokenizeIsClean(s: string, open: seq<string>)
    ensures CleanTokens(Tokenize(s, open))
    decreases |s|
  {
    hide Decode, CleanText, IsName, NameLen, Index;
    if s == "" {
    } else if s[0] != '<' {
      var n := TextLen(s);
      DecodeIsClean(s[..n]);
      TokenizeIsClean(s[n..], open);
    } else if "<?" <= s {
      var i := Index(s[2..], "?>");
      if i >= 0 { TokenizeIsClean(s[2..][i + 2..], open); }
    } else if "</" <= s {
      var n := NameLen(s[2..]);
      if ">" <= s[2 + n..] && open != [] { TokenizeIsClean(s[3 + n..], open[1..]); }
    } else {
      var n := NameLen(s[1..]);
      if ">" <= s[1 + n..] { TokenizeIsClean(s[2 + n..], [s[1..][..n]] + open); }
    }
  }

  lemma CanonicalSet(ps: seq<Pair>, k: string, v: Value)
    requires CanonicalPairs(ps) && IsName(k) && CanonicalValue(v)
    ensures CanonicalPairs(SetKey(ps, k, v)) && SetKey(ps, k, v) != []
  {
    GetAfterSet(ps, k, v, k);
    SetElements(ps, k, v);
  }

  lemma CanonicalMerge(out: seq<Pair>, name: string, v: Value)
    requires CanonicalPairs(out) && IsName(name) && CanonicalValue(v) && !v.List?
    ensures CanonicalPairs(MergeChild(out, name, v)) && MergeChild(out, name, v) != []
  {
    match Get(out, name)
    case None => CanonicalSet(out, name, v);
    case Some(Str(_)) => CanonicalSet(out, name, v);
    case Some(Map(first)) =>
      if v.Map? {
        assert CanonicalValue(Map(first));
        CanonicalSet(out, name, List([first, v.m]));
      }
    case Some(List(items)) =>
      if v.Map? {
        assert CanonicalValue(List(items));
        CanonicalSet(out, name, List(items + [v.m]));
      }
  }

  /** The parser yields normal forms on every token stream, not only on printed ones. */
  lemma {:induction false} ElementIsCanonical(ts: Tokens, text: string, has: bool, kids: seq<Pair>)
    requires CleanTokens(ts) && CleanText(text) && CanonicalPairs(kids) && (has ==> kids != [])
    ensures var r := ElementLoop(ts, text, has, kids);
            r.Done? ==> CanonicalValue(r.value) && !r.value.List? && CleanTokens(r.rest)
    decreases Count(ts)
  {
    TrimSpaceFixes(text);
    match ts
    case Eof =>
    case Broken =>
    case More(CharData(t), rest) => ElementIsCanonical(rest, if has then text else text + t, has, kids);
    case More(ProcInst, rest) => ElementIsCanonical(rest, text, has, kids);
    case More(End(_), rest) =>
    case More(Start(name), rest) =>
      ElementIsCanonical(rest, "", false, []);
      var child := ElementLoop(rest, "", false, []);
      if child.Done? {
        CanonicalMerge(kids, name, child.value);
        ElementIsCanonical(child.rest, text, true, MergeChild(kids, name, child.value));
      }
  }

  lemma {:induction false} ChildrenAreCanonical(ts: Tokens, out: seq<Pair>)
    requires CleanTokens(ts) && CanonicalPairs(out)
    ensures var r := ChildrenLoop(ts, out); r.Done? ==> CanonicalPairs(r.value)
    decreases Count(ts)
  {
    match ts
    case Eof =>
    case Broken =>
    case More(CharData(_), rest) => ChildrenAreCanonical(rest, out);
    case More(ProcInst, rest) => ChildrenAreCanonical(rest, out);
    case More(End(_), rest) =>
    case More(Start(name), rest) =>
      ElementIsCanonical(rest, "", false, []);
      var child := ElementLoop(rest, "", false, []);
      if child.Done? {
        CanonicalMerge(out, name, child.value);
        ChildrenAreCanonical(child.rest, MergeChild(out, name, child.value));
      }
  }

  lemma {:induction false} RootIsCanonical(ts: Tokens)
    requires CleanTokens(ts)
    ensures var r := DecodeRoot(ts); r.Ok? && r.value.Some? ==> CanonicalPairs(r.value.value)
  {
    if ts.More? {
      if ts.token.Start? { ChildrenAreCanonical(ts.rest, []); } else { RootIsCanonical(ts.rest); }
    }
  }

  /** Whatever text comes in, what the parser accepts is in normal form. */
  lemma ParseIsCanonical(xml: string)
    ensures var r := ParseText(xml); r.Ok? ==> CanonicalPairs(r.value.pairs)
  {
    var ts := Tokenize(TrimSpace(xml), []);
    TokenizeIsClean(TrimSpace(xml), []);
    RootIsCanonical(ts);
    var root := DecodeRoot(ts);
    if root.Ok? && root.value.Some? {
      SetAllAppends([], root.value.value);
      assert [] + root.value.value == root.value.value;
    }
  }

  // --------------------------------------- normal forms are the fixed points

  lemma {:induction false} NormalizeFixes(s: string)
    ensures '\r' !in Normalize(s)
    ensures Normalize(s) == s <==> '\r' !in s
    ensures |Normalize(s)| == |s| && '\r' in s ==> Normalize(s) != s
    decreases |s|
  {
    if s != "" {
      assert s == [s[0]] + s[1..];
      if "\r\n" <= s {
        NormalizeFixes(s[2..]);
        assert s[0] == '\r' && Normalize(s)[0] == '\n';
      } else {
        NormalizeFixes(s[1..]);
      }
    }
  }

  /** The leaves that survive the wire unchanged. */
  lemma WireFixes(s: string)
    ensures Wire(s) == s <==> Trimmed(s) && '\r' !in s
  {
    NormalizeFixes(s);
    TrimSpaceFixes(Normalize(s));
    TrimSpaceFixes(s);
  }

  lemma {:induction false} CanonicalParts(ps: seq<Pair>)
    requires CanonicalPairs(ps)
    ensures WellFormed(ps) && LegalPairs(ps)
    decreases ps
  {
    forall i | 0 <= i < |ps| ensures WellFormedValue(ps[i].value) && LegalValue(ps[i].value) {
      match ps[i].value
      case Str(_) =>
      case Map(m) => CanonicalParts(m.pairs);
      case List(items) => forall j | 0 <= j < |items| { CanonicalParts(items[j].pairs); }
    }
  }

  lemma {:induction false} CanonicalTail(ps: seq<Pair>)
    requires ps != []
    ensures CanonicalPairs(ps)
       <==> UniqueKeys(ps) && IsName(ps[0].key) && CanonicalValue(ps[0].value) && CanonicalPairs(ps[1..])
  {
    forall i | 0 < i < |ps| ensures ps[i] == ps[1..][i - 1] {}
    assert forall i :: 0 <= i < |ps[1..]| ==> ps[1..][i] == ps[i + 1];
  }

  lemma {:induction false} NormFixes(ps: seq<Pair>)
    requires WellFormed(ps) && LegalPairs(ps)
    ensures |NormPairs(ps)| <= |ps|
    ensures NormPairs(ps) == ps <==> CanonicalPairs(ps)
    decreases ps, 0
  {
    if ps != [] {
      WellFormedParts(ps);
      NormFixes(ps[1..]);
      CanonicalTail(ps);
      NormFixesValue(ps[0].key, ps[0].value);
      NormSplitFixes(ps);
    }
  }

  lemma NormSplitFixes(ps: seq<Pair>)
    requires ps != [] && |NormPairs(ps[1..])| <= |ps[1..]| && |NormPair(ps[0].key, ps[0].value)| <= 1
    ensures |NormPairs(ps)| <= |ps|
    ensures NormPairs(ps) == ps
       <==> NormPair(ps[0].key, ps[0].value) == [ps[0]] && NormPairs(ps[1..]) == ps[1..]
  {
    Splits(NormPair(ps[0].key, ps[0].value), NormPairs(ps[1..]), ps);
  }

  lemma Splits<T>(head: seq<T>, tail: seq<T>, s: seq<T>)
    requires s != [] && |head| <= 1 && |tail| < |s|
    ensures head + tail == s <==> head == [s[0]] && tail == s[1..]
  {
    if head + tail == s {
      assert head == s[..1] && tail == s[1..];
    }
  }

  lemma {:induction false} NormFixesValue(k: string, v: Value)
    requires WellFormedValue(v) && LegalValue(v)
    ensures |NormPair(k, v)| <= 1
    ensures NormPair(k, v) == [Pair(k, v)] <==> CanonicalValue(v)
    decreases v, 0
  {
    match v
    case Str(s) => WireFixes(s);
    case Map(m) =>
      NormFixes(m.pairs);
      if CanonicalPairs(m.pairs) && m.pairs != [] { CanonicalIsNotBlank(m.pairs); }
    case List(items) =>
      if items != [] {
        assert AllWell(items) && LegalItems(items);
        NormFixesItems(items);
        if CanonicalValue(v) {
          forall i | 0 <= i < |items| ensures Kept(items[i]) { CanonicalIsNotBlank(items[i].pairs); }
        }
      }
  }

  lemma CanonicalIsNotBlank(ps: seq<Pair>)
    requires CanonicalPairs(ps) && ps != []
    ensures !Blank(ps)
  {
    assert CanonicalValue(ps[0].value);
  }

  ghost predicate AllKept(items: seq<OrdMap>) {
    forall i :: 0 <= i < |items| ==> Kept(items[i])
  }

  ghost predicate Kept(m: OrdMap) { !Blank(m.pairs) && CanonicalPairs(m.pairs) }

  lemma ItemsCons(items: seq<OrdMap>)
    requires items != []
    ensures AllKept(items) <==> Kept(items[0]) && AllKept(items[1..])
  {
    hide Kept, WellFormed, LegalPairs;
    assert forall i :: 0 <= i < |items[1..]| ==> items[1..][i] == items[i + 1];
    assert forall i :: 0 < i < |items| ==> items[i] == items[1..][i - 1];
  }

  function Head(m: OrdMap): seq<OrdMap> {
    if Blank(m.pairs) then [] else [OrdMap(NormPairs(m.pairs))]
  }

  lemma NonBlankCons(items: seq<OrdMap>)
    requires items != []
    ensures NonBlank(items) == Head(items[0]) + NonBlank(items[1..])
  {
  }

  lemma {:induction false} NormFixesItems(items: seq<OrdMap>)
    requires AllWell(items) && LegalItems(items)
    ensures |NonBlank(items)| <= |items|
    ensures NonBlank(items) == items <==> AllKept(items)
    decreases items
  {
    if items != [] {
      assert WellFormed(items[0].pairs) && LegalPairs(items[0].pairs);
      ItemsCons(items);
      NonBlankCons(items);
      NormFixes(items[0].pairs);
      NormFixesItems(items[1..]);
      assert items[0] == OrdMap(items[0].pairs);
      hide AllWell, LegalItems, AllKept, NonBlank;
      Splits(Head(items[0]), NonBlank(items[1..]), items);
    }
  }

  // ------------------------------------------------------------ main results

  /** Printing then parsing is the identity exactly on the normal forms. */
  lemma RoundTripExactlyOnCanonical(root: string, m: OrdMap)
    requires IsName(root) && WellFormed(m.pairs)
    ensures ParseText(RenderResponse(root, m)) == Ok(m) <==> CanonicalPairs(m.pairs)
  {
    ParsePrinted(root, m);
    if CanonicalPairs(m.pairs) { CanonicalParts(m.pairs); }
    if LegalPairs(m.pairs) { NormFixes(m.pairs); }
  }

  /** Parsing then printing loses nothing: a second parse gives the same map back. */
  lemma ReparseIsStable(root: string, xml: string)
    requires IsName(root)
    ensures var r := ParseText(xml); r.Ok? ==> ParseText(RenderResponse(root, r.value)) == r
  {
    ParseIsCanonical(xml);
    var r := ParseText(xml);
    if r.Ok? {
      CanonicalParts(r.value.pairs);
      RoundTripExactlyOnCanonical(root, r.value);
    }
  }
}
