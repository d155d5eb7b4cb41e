/** Printing an ordered map as XML, and the part of XML tokenizing that prints need. */
module Xml {
  import opened Text
  import opened OrdMaps

  // ----------------------------------------------------------------- printing

  const XML_DECL := "xml version=\"1.0\" encoding=\"utf-8\""
  const XML_PREFIX := "<?" + XML_DECL + "?>"

  function EscapeChar(c: char): string {
    if c == '&' then "&amp;"
    else if c == '<' then "&lt;"
    else if c == '>' then "&gt;"
    else if c == '\"' then "&quot;"
    else if c == '\'' then "&apos;"
    else [c]
  }

  function Escape(s: string): (r: string)
    ensures '<' !in r && '>' !in r
    ensures |r| >= |s|
  {
    if s == "" then "" else EscapeChar(s[0]) + Escape(s[1..])
  }

  function OpenTag(k: string): string { "<" + k + ">" }

  function CloseTag(k: string): string { "</" + k + ">" }

  function RenderPairs(ps: seq<Pair>): string
    decreases ps
  {
    if ps == [] then "" else RenderValue(ps[0].key, ps[0].value) + RenderPairs(ps[1..])
  }

  function RenderValue(k: string, v: Value): string
    decreases v
  {
    match v
    case Str(s) => OpenTag(k) + Escape(s) + CloseTag(k)
    case Map(m) => OpenTag(k) + RenderPairs(m.pairs) + CloseTag(k)
    case List(items) => RenderItems(k, items)
  }

  function RenderItems(k: string, items: seq<OrdMap>): string
    decreases items
  {
    if items == [] then ""
    else OpenTag(k) + RenderPairs(items[0].pairs) + CloseTag(k) + RenderItems(k, items[1..])
  }

  function RenderResponse(root: string, m: OrdMap): string {
    XML_PREFIX + (OpenTag(root) + RenderPairs(m.pairs) + CloseTag(root))
  }

  /** `strings.Builder`. */
  class Builder {
    var text: string

    constructor ()
      ensures text == ""
    {
      text := "";
    }

    method Write(s: string)
      modifies this
      ensures text == old(text) + s
    {
      text := text + s;
    }
  }

  method RenderFields(b: Builder, fields: OrdMap)
    modifies b
    ensures b.text == old(b.text) + RenderPairs(fields.pairs)
    decreases fields, 1
  {
    var ps := fields.pairs;
    for i := 0 to |ps|
      invariant old(b.text) + RenderPairs(ps) == b.text + RenderPairs(ps[i..])
    {
      assert ps[i..][0] == ps[i] && ps[i..][1..] == ps[i + 1..];
      Assoc(b.text, RenderValue(ps[i].key, ps[i].value), RenderPairs(ps[i + 1..]));
      RenderField(b, ps[i].key, ps[i].value);
    }
  }

  /** The type switch in the body of the loop above. */
  method RenderField(b: Builder, key: string, value: Value)
    modifies b
    ensures b.text == old(b.text) + RenderValue(key, value)
    decreases value, 3
  {
    match value {
      case Str(s) =>
        b.Write(OpenTag(key) + Escape(s) + CloseTag(key));
      case Map(m) =>
        RenderElement(b, key, m);
      case List(items) =>
        for j := 0 to |items|
          invariant old(b.text) + RenderItems(key, items) == b.text + RenderItems(key, items[j..])
        {
          assert items[j..][0] == items[j] && items[j..][1..] == items[j + 1..];
          Assoc(b.text, OpenTag(key) + RenderPairs(items[j].pairs) + CloseTag(key), RenderItems(key, items[j + 1..]));
          RenderElement(b, key, items[j]);
        }
    }
  }

  method RenderElement(b: Builder, key: string, m: OrdMap)
    modifies b
    ensures b.text == old(b.text) + (OpenTag(key) + RenderPairs(m.pairs) + CloseTag(key))
    decreases m, 2
  {
    b.Write(OpenTag(key));
    RenderFields(b, m);
    b.Write(CloseTag(key));
  }

  method Render(root: string, fields: OrdMap) returns (body: string)
    ensures body == RenderResponse(root, fields)
  {
    var b := new Builder();
    b.Write(XML_PREFIX);
    RenderElement(b, root, fields);
    body := b.text;
  }

  // ------------------------------------------------------------------- tokens

  datatype Token = Start(name: string) | End(name: string) | CharData(text: string) | ProcInst

  /** What successive calls of `xml.Decoder.Token` return: tokens, then io.EOF or an error. */
  datatype Tokens = Eof | Broken | More(token: Token, rest: Tokens)

  function Count(ts: Tokens): nat {
    if ts.More? then 1 + Count(ts.rest) else 0
  }

  predicate NameStart(c: char) {
    'a' <= c <= 'z' || 'A' <= c <= 'Z' || c == '_'
  }

  predicate NameChar(c: char) {
    NameStart(c) || '0' <= c <= '9' || c == '-' || c == '.'
  }

  /** An ASCII XML name without a colon, so that Go reports it whole as `Name.Local`. */
  predicate IsName(s: string) {
    s != "" && NameStart(s[0]) && forall c :: c in s ==> NameChar(c)
  }

  function NameLen(s: string): (n: nat)
    ensures n <= |s|
  {
    if s != "" && NameChar(s[0]) then 1 + NameLen(s[1..]) else 0
  }

  function TextLen(s: string): (n: nat)
    ensures n <= |s|
  {
    if s == "" || s[0] == '<' then 0 else 1 + TextLen(s[1..])
  }

  /** XML 1.0 (Fifth Edition), production [2]. */
  predicate LegalChar(c: char) {
    || c == '\t' || c == '\n' || c == '\r'
    || ' ' <= c <= '\U{D7FF}'
    || '\U{E000}' <= c <= '\U{FFFD}'
    || c >= '\U{10000}'
  }

  predicate LegalText(s: string) {
    forall c :: c in s ==> LegalChar(c)
  }

  function Push(c: char, r: Option<string>): Option<string> {
    if r.Some? then Some([c] + r.value) else None
  }

  /** Character data: the five predefined entities (sections 2.4 and 4.6 of XML 1.0, Fifth Edition)
      are undone, CR and CRLF become LF (section 2.11), `]]>` and illegal characters are errors. */
  function Decode(raw: string): Option<string>
    decreases |raw|
  {
    if raw == "" then Some("")
    else if raw[0] == '&' then
      if "&amp;" <= raw then Push('&', Decode(raw[5..]))
      else if "&lt;" <= raw then Push('<', Decode(raw[4..]))
      else if "&gt;" <= raw then Push('>', Decode(raw[4..]))
      else if "&quot;" <= raw then Push('\"', Decode(raw[6..]))
      else if "&apos;" <= raw then Push('\'', Decode(raw[6..]))
      else None
    else if "]]>" <= raw then None
    else if "\r\n" <= raw then Push('\n', Decode(raw[2..]))
    else if raw[0] == '\r' then Push('\n', Decode(raw[1..]))
    else if !LegalChar(raw[0]) then None
    else Push(raw[0], Decode(raw[1..]))
  }

  /** `open` holds the names of the elements still open, innermost first: Go's decoder is strict about them. */
  function Tokenize(s: string, open: seq<string>): Tokens
    decreases |s|
  {
    if s == "" then
      if open == [] then Eof else Broken
    else if s[0] != '<' then
      var n := TextLen(s);
      var text := Decode(s[..n]);
      if text.None? then Broken else More(CharData(text.value), Tokenize(s[n..], open))
    else if "<?" <= s then
      var i := Index(s[2..], "?>");
      if i < 0 then Broken else More(ProcInst, Tokenize(s[2..][i + 2..], open))
    else if "</" <= s then
      var n := NameLen(s[2..]);
      var name := s[2..][..n];
      if IsName(name) && ">" <= s[2 + n..] && [name] <= open then
        More(End(name), Tokenize(s[3 + n..], open[1..]))
      else
        Broken
    else
      var n := NameLen(s[1..]);
      var name := s[1..][..n];
      if IsName(name) && ">" <= s[1 + n..] then
        More(Start(name), Tokenize(s[2 + n..], [name] + open))
      else
        Broken
  }

  // ------------------------------------------------- the tokens of a printed map

  /** Line ends as section 2.11 of XML 1.0 rewrites them. */
  function Normalize(s: string): (r: string)
    ensures |r| <= |s|
    decreases |s|
  {
    if s == "" then ""
    else if "\r\n" <= s then "\n" + Normalize(s[2..])
    else if s[0] == '\r' then "\n" + Normalize(s[1..])
    else [s[0]] + Normalize(s[1..])
  }

  function PairsTokens(ps: seq<Pair>, then_: Tokens): Tokens
    decreases ps
  {
    if ps == [] then then_ else ValueTokens(ps[0].key, ps[0].value, PairsTokens(ps[1..], then_))
  }

  function ValueTokens(k: string, v: Value, then_: Tokens): Tokens
    decreases v
  {
    match v
    case Str(s) =>
      var close := More(End(k), then_);
      More(Start(k), if s == "" then close else if LegalText(s) then More(CharData(Normalize(s)), close) else Broken)
    case Map(m) => More(Start(k), PairsTokens(m.pairs, More(End(k), then_)))
    case List(items) => ItemsTokens(k, items, then_)
  }

  function ItemsTokens(k: string, items: seq<OrdMap>, then_: Tokens): Tokens
    decreases items
  {
    if items == [] then then_
    else More(Start(k), PairsTokens(items[0].pairs, More(End(k), ItemsTokens(k, items[1..], then_))))
  }

  /** Every key is a name and keys are unique, at every level of nesting. */
  ghost predicate WellFormed(ps: seq<Pair>)
    decreases ps
  {
    && UniqueKeys(ps)
    && forall i :: 0 <= i < |ps| ==> IsName(ps[i].key) && WellFormedValue(ps[i].value)
  }

  ghost predicate WellFormedValue(v: Value)
    decreases v
  {
    match v
    case Str(_) => true
    case Map(m) => WellFormed(m.pairs)
    case List(items) => forall i :: 0 <= i < |items| ==> WellFormed(items[i].pairs)
  }

  lemma {:induction false} NameEnds(k: string, rest: string)
    requires forall c :: c in k ==> NameChar(c)
    requires rest == "" || !NameChar(rest[0])
    ensures NameLen(k + rest) == |k|
  {
    if k == "" {
      assert k + rest == rest;
    } else {
      assert (k + rest)[1..] == k[1..] + rest;
      NameEnds(k[1..], rest);
    }
  }

  lemma TokenizeOpen(k: string, rest: string, open: seq<string>)
    requires IsName(k)
    ensures Tokenize(OpenTag(k) + rest, open) == More(Start(k), Tokenize(rest, [k] + open))
  {
    var s := OpenTag(k) + rest;
    assert s[1..] == k + (">" + rest);
    NameEnds(k, ">" + rest);
    assert s[1] == k[0];
    assert s[1..][..|k|] == k && s[1 + |k|..] == ">" + rest && s[2 + |k|..] == rest;
  }

  lemma TokenizeClose(k: string, rest: string, open: seq<string>)
    requires IsName(k)
    ensures Tokenize(CloseTag(k) + rest, [k] + open) == More(End(k), Tokenize(rest, open))
  {
    var s := CloseTag(k) + rest;
    assert s[2..] == k + (">" + rest);
    NameEnds(k, ">" + rest);
    assert s[2..][..|k|] == k && s[2 + |k|..] == ">" + rest && s[3 + |k|..] == rest;
    var inner := [k] + open;
    assert inner[1..] == open && [k] <= inner;
    assert !("<?" <= s) by { assert s[1] == '/'; }
    assert "</" <= s;
  }

  lemma DecodeEntity(c: char, rest: string)
    requires |EscapeChar(c)| > 1
    ensures Decode(EscapeChar(c) + rest) == Push(c, Decode(rest)) && LegalChar(c) && c != '\r' && c != '\n'
  {
    var e := EscapeChar(c) + rest;
    assert EscapeChar(c) <= e && e[|EscapeChar(c)|..] == rest;
    assert e[1] == EscapeChar(c)[1] && e[2] == EscapeChar(c)[2];
  }

  lemma DecodePlain(c: char, rest: string)
    requires EscapeChar(c) == [c] && '>' !in rest
    requires c == '\r' ==> !("\n" <= rest)
    ensures Decode([c] + rest)
         == if c == '\r' then Push('\n', Decode(rest)) else if LegalChar(c) then Push(c, Decode(rest)) else None
  {
    var e := [c] + rest;
    assert e[1..] == rest;
    assert forall i :: 0 <= i < |rest| ==> e[i + 1] == rest[i] && rest[i] != '>';
    assert |rest| >= 2 ==> e[2] == rest[1];
  }

  lemma LegalHead(s: string)
    requires s != ""
    ensures LegalText(s) <==> LegalChar(s[0]) && LegalText(s[1..])
  {
    assert s == [s[0]] + s[1..];
  }

  lemma DecodeCrLf(rest: string)
    ensures Decode("\r\n" + rest) == Push('\n', Decode(rest))
  {
    var e := "\r\n" + rest;
    assert e[0] == '\r' && "\r\n" <= e && e[2..] == rest;
  }

  lemma EscapePlain(c: char, t: string)
    requires EscapeChar(c) == [c]
    ensures Escape([c] + t) == [c] + Escape(t)
  {
    assert ([c] + t)[1..] == t;
  }

  lemma CrLfSplits(s: string)
    requires "\r\n" <= s
    ensures s == ['\r'] + (['\n'] + s[2..])
  {
  }

  lemma CrLfJoins(t: string)
    ensures ['\r'] + (['\n'] + t) == "\r\n" + t
  {
  }

  lemma LegalCons(c: char, t: string)
    ensures LegalText([c] + t) <==> LegalChar(c) && LegalText(t)
  {
    LegalHead([c] + t);
    assert ([c] + t)[1..] == t;
  }

  lemma LegalCrLf(s: string)
    requires "\r\n" <= s
    ensures LegalText(s) <==> LegalText(s[2..])
  {
    CrLfSplits(s);
    hide LegalText;
    LegalCons('\n', s[2..]);
    LegalCons('\r', ['\n'] + s[2..]);
  }

  lemma EscapeCrLf(s: string)
    requires "\r\n" <= s
    ensures Escape(s) == "\r\n" + Escape(s[2..])
  {
    hide Escape;
    CrLfSplits(s);
    EscapePlain('\n', s[2..]);
    EscapePlain('\r', ['\n'] + s[2..]);
    CrLfJoins(Escape(s[2..]));
  }

  lemma EscapeStartsLf(s: string)
    ensures "\n" <= Escape(s) ==> s != "" && s[0] == '\n'
  {
    if s != "" {
      assert Escape(s)[0] == EscapeChar(s[0])[0];
    }
  }

  /** Decoding undoes escaping, up to line ends; illegal characters are the only failure. */
  lemma {:induction false} DecodeEscaped(s: string)
    ensures Decode(Escape(s)) == if LegalText(s) then Some(Normalize(s)) else None
    decreases |s|
  {
    if "\r\n" <= s {
      EscapeCrLf(s);
      LegalCrLf(s);
      DecodeEscaped(s[2..]);
      DecodeCrLf(Escape(s[2..]));
    } else if s != "" {
      LegalHead(s);
      DecodeEscaped(s[1..]);
      EscapeStartsLf(s[1..]);
      if |EscapeChar(s[0])| > 1 {
        DecodeEntity(s[0], Escape(s[1..]));
      } else {
        DecodePlain(s[0], Escape(s[1..]));
      }
    }
  }

  lemma {:induction false} TextEnds(t: string, rest: string)
    requires '<' !in t
    requires "<" <= rest
    ensures TextLen(t + rest) == |t|
  {
    if t == "" {
      assert t + rest == rest;
    } else {
      assert (t + rest)[1..] == t[1..] + rest;
      TextEnds(t[1..], rest);
    }
  }

  lemma TokenizeText(s: string, rest: string, open: seq<string>)
    requires s != "" && "<" <= rest
    ensures Tokenize(Escape(s) + rest, open)
         == if LegalText(s) then More(CharData(Normalize(s)), Tokenize(rest, open)) else Broken
  {
    var t := Escape(s);
    TextEnds(t, rest);
    assert (t + rest)[0] == t[0] && t[0] in t;
    assert (t + rest)[..|t|] == t && (t + rest)[|t|..] == rest;
    DecodeEscaped(s);
  }

  lemma ElementThen(a: string, b: string, c: string, d: string)
    ensures a + b + c + d == a + (b + (c + d))
  {
  }

  lemma TokenizeLeaf(k: string, s: string, rest: string, open: seq<string>)
    requires IsName(k)
    ensures Tokenize(RenderValue(k, Str(s)) + rest, open) == ValueTokens(k, Str(s), Tokenize(rest, open))
  {
    var more := CloseTag(k) + rest;
    ElementThen(OpenTag(k), Escape(s), CloseTag(k), rest);
    TokenizeOpen(k, Escape(s) + more, open);
    TokenizeClose(k, rest, open);
    if s == "" {
      assert Escape(s) + more == more;
    } else {
      assert more[0] == '<';
      TokenizeText(s, more, [k] + open);
    }
  }

  lemma {:induction false} TokenizePairs(ps: seq<Pair>, rest: string, open: seq<string>)
    requires WellFormed(ps)
    ensures Tokenize(RenderPairs(ps) + rest, open) == PairsTokens(ps, Tokenize(rest, open))
    decreases ps
  {
    if ps == [] {
      assert RenderPairs(ps) + rest == rest;
    } else {
      assert WellFormed(ps[1..]) by {
        forall i | 0 <= i < |ps[1..]| ensures ps[1..][i] == ps[i + 1] {}
      }
      var more := RenderPairs(ps[1..]) + rest;
      assert RenderPairs(ps) + rest == RenderValue(ps[0].key, ps[0].value) + more;
      TokenizeValue(ps[0].key, ps[0].value, more, open);
      TokenizePairs(ps[1..], rest, open);
    }
  }

  lemma {:induction false} TokenizeValue(k: string, v: Value, rest: string, open: seq<string>)
    requires IsName(k) && WellFormedValue(v)
    ensures Tokenize(RenderValue(k, v) + rest, open) == ValueTokens(k, v, Tokenize(rest, open))
    decreases v
  {
    match v
    case Str(s) => TokenizeLeaf(k, s, rest, open);
    case Map(m) =>
      TokenizeElement(k, m, rest, open);
      ElementThen(OpenTag(k), RenderPairs(m.pairs), CloseTag(k), rest);
    case List(items) => TokenizeItems(k, items, rest, open);
  }

  lemma {:induction false} TokenizeElement(k: string, m: OrdMap, rest: string, open: seq<string>)
    requires IsName(k) && WellFormed(m.pairs)
    ensures Tokenize(OpenTag(k) + (RenderPairs(m.pairs) + (CloseTag(k) + rest)), open)
         == More(Start(k), PairsTokens(m.pairs, More(End(k), Tokenize(rest, open))))
    decreases m, 0
  {
    TokenizeOpen(k, RenderPairs(m.pairs) + (CloseTag(k) + rest), open);
    TokenizePairs(m.pairs, CloseTag(k) + rest, [k] + open);
    TokenizeClose(k, rest, open);
  }

  lemma {:induction false} TokenizeItems(k: string, items: seq<OrdMap>, rest: string, open: seq<string>)
    requires IsName(k) && forall i :: 0 <= i < |items| ==> WellFormed(items[i].pairs)
    ensures Tokenize(RenderItems(k, items) + rest, open) == ItemsTokens(k, items, Tokenize(rest, open))
    decreases items
  {
    if items == [] {
      assert RenderItems(k, items) + rest == rest;
    } else {
      var more := RenderItems(k, items[1..]) + rest;
      TokenizeElement(k, items[0], more, open);
      Assoc(OpenTag(k) + RenderPairs(items[0].pairs) + CloseTag(k), RenderItems(k, items[1..]), rest);
      ElementThen(OpenTag(k), RenderPairs(items[0].pairs), CloseTag(k), more);
      TokenizeItems(k, items[1..], rest, open);
    }
  }

  /** A printed map tokenizes to its own token stream, whatever its leaves hold. */
  lemma TokenizeResponse(root: string, m: OrdMap)
    requires IsName(root) && WellFormed(m.pairs)
    ensures Tokenize(RenderResponse(root, m), [])
         == More(ProcInst, More(Start(root), PairsTokens(m.pairs, More(End(root), Eof))))
  {
    TokenizeDeclaration(OpenTag(root) + RenderPairs(m.pairs) + CloseTag(root));
    TokenizeRoot(root, m);
  }

  lemma NothingBehind(a: string, b: string, c: string)
    ensures a + b + c == a + (b + (c + ""))
  {
  }

  lemma TokenizeRoot(root: string, m: OrdMap)
    requires IsName(root) && WellFormed(m.pairs)
    ensures Tokenize(OpenTag(root) + RenderPairs(m.pairs) + CloseTag(root), [])
         == More(Start(root), PairsTokens(m.pairs, More(End(root), Eof)))
  {
    assert Tokenize("", []) == Eof;
    hide Tokenize, RenderPairs, PairsTokens, OpenTag, CloseTag;
    TokenizeElement(root, m, "", []);
    NothingBehind(OpenTag(root), RenderPairs(m.pairs), CloseTag(root));
  }

  lemma TokenizeDeclaration(rest: string)
    ensures Tokenize(XML_PREFIX + rest, []) == More(ProcInst, Tokenize(rest, []))
  {
    var s := XML_PREFIX + rest;
    assert s[2..] == XML_DECL + ("?>" + rest);
    IndexSkips(XML_DECL, "?>" + rest, "?>");
    assert "?>" <= "?>" + rest;
    assert s[2..][|XML_DECL| + 2..] == rest;
    assert "<?" <= s;
  }

  // ------------------------------------------------------ what the tokenizer refuses

  /** Closing tags match the innermost open element, and the text does not end inside one. */
  predicate Nested(ts: Tokens, open: seq<string>) {
    match ts
    case Eof => open == []
    case Broken => true
    case More(Start(name), rest) => Nested(rest, [name] + open)
    case More(End(name), rest) => open != [] && open[0] == name && Nested(rest, open[1..])
    case More(_, rest) => Nested(rest, open)
  }

  lemma {:induction false} TokensAreNested(s: string, open: seq<string>)
    ensures Nested(Tokenize(s, open), open)
    decreases |s|
  {
    hide Decode, IsName, NameLen, Index;
    if s == "" {
    } else if s[0] != '<' {
      TokensAreNested(s[TextLen(s)..], open);
    } else if "<?" <= s {
      var i := Index(s[2..], "?>");
      if i >= 0 { TokensAreNested(s[2..][i + 2..], open); }
    } else if "</" <= s {
      var n := NameLen(s[2..]);
      if ">" <= s[2 + n..] && open != [] { TokensAreNested(s[3 + n..], open[1..]); }
    } else {
      var n := NameLen(s[1..]);
      if ">" <= s[1 + n..] { TokensAreNested(s[2 + n..], [s[1..][..n]] + open); }
    }
  }

  predicate StartsEntity(raw: string) {
    "&amp;" <= raw || "&lt;" <= raw || "&gt;" <= raw || "&quot;" <= raw || "&apos;" <= raw
  }

  /** Every `&` starts one of the five entities, `]]>` is nowhere, and all characters are legal. */
  predicate IsCharData(raw: string) {
    raw != "" ==>
      && (raw[0] == '&' ==> StartsEntity(raw)) && !("]]>" <= raw) && LegalChar(raw[0]) && IsCharData(raw[1..])
  }

  /** Characters that are never refused. */
  predicate Harmless(c: char) { LegalChar(c) && c != '&' && c != ']' }

  lemma {:induction false} HarmlessSkips(raw: string, n: nat)
    requires n <= |raw| && forall i :: 0 <= i < n ==> Harmless(raw[i])
    ensures IsCharData(raw) <==> IsCharData(raw[n..])
    decreases n
  {
    if n > 0 {
      assert Harmless(raw[0]);
      forall i | 0 <= i < n - 1 ensures Harmless(raw[1..][i]) { assert Harmless(raw[i + 1]); }
      HarmlessSkips(raw[1..], n - 1);
      assert raw[1..][n - 1..] == raw[n..];
    }
  }

  lemma EntitySkips(raw: string, e: string)
    requires e <= raw && e in {"&amp;", "&lt;", "&gt;", "&quot;", "&apos;"}
    ensures IsCharData(raw) <==> IsCharData(raw[|e|..])
  {
    assert e[0] == '&' && raw[0] == '&';
    forall i | 0 <= i < |e| - 1 ensures Harmless(raw[1..][i]) { assert raw[1..][i] == e[i + 1]; }
    HarmlessSkips(raw[1..], |e| - 1);
    assert raw[1..][|e| - 1..] == raw[|e|..];
  }

  /** Character data is refused exactly when it is none. */
  lemma {:induction false} DecodeRefuses(raw: string)
    ensures Decode(raw).Some? <==> IsCharData(raw)
    decreases |raw|
  {
    if raw == "" {
    } else if raw[0] == '&' {
      if "&amp;" <= raw { EntitySkips(raw, "&amp;"); DecodeRefuses(raw[5..]); }
      else if "&lt;" <= raw { EntitySkips(raw, "&lt;"); DecodeRefuses(raw[4..]); }
      else if "&gt;" <= raw { EntitySkips(raw, "&gt;"); DecodeRefuses(raw[4..]); }
      else if "&quot;" <= raw { EntitySkips(raw, "&quot;"); DecodeRefuses(raw[6..]); }
      else if "&apos;" <= raw { EntitySkips(raw, "&apos;"); DecodeRefuses(raw[6..]); }
    } else if "\r\n" <= raw {
      HarmlessSkips(raw, 2);
      DecodeRefuses(raw[2..]);
    } else {
      DecodeRefuses(raw[1..]);
    }
  }
}
