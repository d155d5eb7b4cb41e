/** Editing a printed body as a string, and when that equals editing the map it was printed from. */
module TagSurgery {
  import opened Text
  import opened OrdMaps
  import opened Xml

  function ReplaceTagValue(body: string, tag: string, value: string): string {
    ReplaceBetween(body, OpenTag(tag), CloseTag(tag), value)
  }

  function ReplaceBetween(body: string, open: string, close: string, value: string): string {
    var start := Index(body, open);
    var end := Index(body, close);
    if start == -1 || end == -1 || end < start then body
    else Spliced(body, start + |open|, value, end)
  }

  /** `body[:i] + value + body[j:]` */
  function Spliced(body: string, i: nat, value: string, j: nat): string
    requires i <= |body| && j <= |body|
  {
    body[..i] + value + body[j..]
  }

  function RemoveTag(body: string, tag: string): string {
    RemoveBetween(body, OpenTag(tag), CloseTag(tag))
  }

  function RemoveBetween(body: string, open: string, close: string): string {
    var start := Index(body, open);
    if start == -1 then body
    else
      var end := Index(body[start..], close);
      if end == -1 then body else Spliced(body, start, "", start + end + |close|)
  }

  // -------------------------------------------------- where a tag can be found

  /** `k` names no printed element below; an empty list prints nothing. */
  ghost predicate TagFree(ps: seq<Pair>, k: string)
    decreases ps
  {
    forall i :: 0 <= i < |ps| ==> TagFreeValue(ps[i].key, ps[i].value, k)
  }

  ghost predicate TagFreeValue(key: string, v: Value, k: string)
    decreases v
  {
    match v
    case Str(_) => key != k
    case Map(m) => key != k && TagFree(m.pairs, k)
    case List(items) => items == [] || (key != k && forall i :: 0 <= i < |items| ==> TagFree(items[i].pairs, k))
  }

  predicate SkipsAt(part: string, rest: string, j: nat, pat: string) {
    At(part + rest, j, pat) <==> j >= |part| && At(rest, j - |part|, pat)
  }

  /** A part of a body in which the pattern does not begin, whatever follows the part. */
  ghost predicate Skips(part: string, pat: string) {
    forall rest: string, j: nat :: SkipsAt(part, rest, j, pat)
  }

  lemma SkipsBoth(a: string, b: string, pat: string)
    requires Skips(a, pat) && Skips(b, pat)
    ensures Skips(a + b, pat)
  {
    forall rest: string, j: nat ensures SkipsAt(a + b, rest, j, pat) {
      assert a + b + rest == a + (b + rest);
      assert SkipsAt(a, b + rest, j, pat);
      if j >= |a| { assert SkipsAt(b, rest, j - |a|, pat); }
    }
  }

  lemma AtShift(part: string, rest: string, j: nat, pat: string)
    requires j >= |part|
    ensures SkipsAt(part, rest, j, pat)
  {
    if j + |pat| <= |part + rest| {
      assert (part + rest)[j..j + |pat|] == rest[j - |part|..j - |part| + |pat|];
    }
  }

  lemma SkipsText(t: string, pat: string)
    requires pat != "" && pat[0] !in t
    ensures Skips(t, pat)
  {
    forall rest: string, j: nat ensures SkipsAt(t, rest, j, pat) {
      if j >= |t| {
        AtShift(t, rest, j, pat);
      } else {
        assert (t + rest)[j] == t[j] && t[j] in t;
      }
    }
  }

  lemma {:induction false} FirstIs(s: string, i: nat, pat: string)
    requires At(s, i, pat) && forall j: nat :: j < i ==> !At(s, j, pat)
    ensures Index(s, pat) == i
  {
    IndexIsFirst(s, pat);
  }

  /** No character that a tag is delimited by. */
  predicate Plain(t: string) {
    '<' !in t && '>' !in t
  }

  lemma NamesArePlain(k: string)
    requires IsName(k)
    ensures Plain(k) && Plain("/" + k) && k[0] != '/' && k[0] != '?'
  {
    assert forall c :: c in k ==> NameChar(c);
  }

  function Tag(t: string): string { "<" + t + ">" }

  /** The search for one tag skips every other tag. */
  lemma SkipsOtherTag(t: string, q: string)
    requires Plain(t) && Plain(q) && t != q
    ensures Skips(Tag(t), Tag(q))
  {
    forall rest: string, j: nat ensures SkipsAt(Tag(t), rest, j, Tag(q)) {
      if j >= |Tag(t)| {
        AtShift(Tag(t), rest, j, Tag(q));
      } else {
        assert At(Tag(t) + rest, j, Tag(q)) ==> (Tag(t) + rest)[j..j + |Tag(q)|][0] == Tag(t)[j];
        assert j > 0 ==> Tag(t)[j] == (t + ">")[j - 1] && (t + ">")[j - 1] != '<';
        if Tag(q) <= Tag(t) + rest { PrefixTag(t, q, rest); }
        assert At(Tag(t) + rest, 0, Tag(q)) ==> Tag(q) <= Tag(t) + rest;
      }
    }
  }

  lemma PrefixTag(t: string, q: string, rest: string)
    requires Plain(t) && Plain(q) && Tag(q) <= Tag(t) + rest
    ensures t == q
  {
    var s := Tag(t) + rest;
    assert forall i :: 0 <= i < |q| ==> q[i] == Tag(q)[i + 1] == s[i + 1] && q[i] in q;
    assert forall i :: 0 <= i < |t| ==> t[i] == s[i + 1] && t[i] in t;
    assert s[|t| + 1] == '>' && s[|q| + 1] == '>';
    assert |t| == |q|;
  }

  /** The two patterns that are searched for: `<k>` and `</k>`. */
  predicate Pattern(q: string, k: string) {
    q == k || q == "/" + k
  }

  lemma NamesDiffer(t: string, q: string, k: string)
    requires IsName(t) && IsName(k) && Pattern(q, k) && t != k
    ensures Plain(t) && Plain("/" + t) && Plain(q) && t != q && "/" + t != q
    ensures Skips(OpenTag(t), Tag(q)) && Skips(CloseTag(t), Tag(q))
  {
    NamesArePlain(t);
    NamesArePlain(k);
    assert ("/" + t)[1..] == t && ("/" + k)[1..] == k;
    SkipsOtherTag(t, q);
    SkipsOtherTag("/" + t, q);
    assert Tag("/" + t) == CloseTag(t) && Tag(t) == OpenTag(t);
  }

  lemma {:induction false} SkipsPairs(ps: seq<Pair>, q: string, k: string)
    requires WellFormed(ps) && TagFree(ps, k) && IsName(k) && Pattern(q, k)
    ensures Skips(RenderPairs(ps), Tag(q))
    decreases ps, 1
  {
    if ps == [] {
      SkipsText("", Tag(q));
    } else {
      PartsOf(ps, k);
      SkipsValue(ps[0].key, ps[0].value, q, k);
      SkipsPairs(ps[1..], q, k);
      SkipsBoth(RenderValue(ps[0].key, ps[0].value), RenderPairs(ps[1..]), Tag(q));
    }
  }

  lemma PartsOf(ps: seq<Pair>, k: string)
    requires WellFormed(ps) && TagFree(ps, k) && ps != []
    ensures IsName(ps[0].key) && WellFormedValue(ps[0].value) && TagFreeValue(ps[0].key, ps[0].value, k)
    ensures WellFormed(ps[1..]) && TagFree(ps[1..], k)
  {
    assert forall i :: 0 <= i < |ps[1..]| ==> ps[1..][i] == ps[i + 1];
  }

  lemma SkipsElement(t: string, content: string, q: string, k: string)
    requires IsName(t) && IsName(k) && Pattern(q, k) && t != k && Skips(content, Tag(q))
    ensures Skips(OpenTag(t) + content + CloseTag(t), Tag(q))
  {
    NamesDiffer(t, q, k);
    SkipsBoth(OpenTag(t), content, Tag(q));
    SkipsBoth(OpenTag(t) + content, CloseTag(t), Tag(q));
  }

  lemma {:induction false} SkipsValue(t: string, v: Value, q: string, k: string)
    requires IsName(t) && WellFormedValue(v) && TagFreeValue(t, v, k) && IsName(k) && Pattern(q, k)
    ensures Skips(RenderValue(t, v), Tag(q))
    decreases v, 1
  {
    match v
    case Str(s) =>
      SkipsText(Escape(s), Tag(q));
      SkipsElement(t, Escape(s), q, k);
    case Map(m) =>
      SkipsPairs(m.pairs, q, k);
      SkipsElement(t, RenderPairs(m.pairs), q, k);
    case List(items) =>
      SkipsItems(t, items, q, k);
  }

  lemma {:induction false} SkipsItems(t: string, items: seq<OrdMap>, q: string, k: string)
    requires IsName(t) && IsName(k) && Pattern(q, k) && (items != [] ==> t != k)
    requires forall i :: 0 <= i < |items| ==> WellFormed(items[i].pairs) && TagFree(items[i].pairs, k)
    ensures Skips(RenderItems(t, items), Tag(q))
    decreases items, 0
  {
    if items == [] {
      SkipsText("", Tag(q));
    } else {
      SkipsPairs(items[0].pairs, q, k);
      SkipsElement(t, RenderPairs(items[0].pairs), q, k);
      SkipsItems(t, items[1..], q, k);
      SkipsBoth(OpenTag(t) + RenderPairs(items[0].pairs) + CloseTag(t), RenderItems(t, items[1..]), Tag(q));
    }
  }

  // --------------------------------------------------- surgery on cut strings

  /** The body is cut around the first element named `k`. */
  ghost predicate Cut(pre: string, k: string, inner: string) {
    && IsName(k)
    && Skips(pre, OpenTag(k)) && Skips(pre, CloseTag(k)) && Skips(inner, CloseTag(k))
  }

  function Body(pre: string, k: string, inner: string, tail: string): string {
    pre + (OpenTag(k) + (inner + (CloseTag(k) + tail)))
  }

  lemma {:induction false} FirstAfter(pre: string, rest: string, i: nat, pat: string)
    requires Skips(pre, pat) && At(rest, i, pat) && forall j: nat :: j < i ==> !At(rest, j, pat)
    ensures At(pre + rest, |pre| + i, pat) && forall j: nat :: j < |pre| + i ==> !At(pre + rest, j, pat)
  {
    assert SkipsAt(pre, rest, |pre| + i, pat);
    forall j: nat | j < |pre| + i ensures !At(pre + rest, j, pat) {
      assert SkipsAt(pre, rest, j, pat);
    }
  }

  lemma Locate(pre: string, open: string, inner: string, close: string, tail: string)
    requires Skips(pre, open) && Skips(pre, close) && Skips(open, close) && Skips(inner, close)
    ensures Index(pre + (open + (inner + (close + tail))), open) == |pre|
    ensures Index(pre + (open + (inner + (close + tail))), close) == |pre| + |open| + |inner|
    ensures Index(open + (inner + (close + tail)), close) == |open| + |inner|
  {
    var end := close + tail;
    var elem := open + (inner + end);
    assert elem[0..0 + |open|] == open && end[0..0 + |close|] == close;
    FirstAfter(pre, elem, 0, open);
    FirstIs(pre + elem, |pre|, open);
    FirstAfter(inner, end, 0, close);
    FirstAfter(open, inner + end, |inner|, close);
    FirstIs(elem, |open| + |inner|, close);
    FirstAfter(pre, elem, |open| + |inner|, close);
    FirstIs(pre + elem, |pre| + |open| + |inner|, close);
  }

  lemma OpenSkipsClose(k: string)
    requires IsName(k)
    ensures Skips(OpenTag(k), CloseTag(k))
  {
    NamesArePlain(k);
    assert k != "/" + k by { assert ("/" + k)[0] == '/'; }
    SkipsOtherTag(k, "/" + k);
    assert Tag("/" + k) == CloseTag(k) && Tag(k) == OpenTag(k);
  }

  lemma Slices(pre: string, a: string, inner: string, b: string, tail: string)
    ensures var body := pre + (a + (inner + (b + tail)));
            && body[..|pre|] == pre
            && body[|pre|..] == a + (inner + (b + tail))
            && body[..|pre| + |a|] == pre + a
            && body[|pre| + |a| + |inner|..] == b + tail
            && body[|pre| + |a| + |inner| + |b|..] == tail
  {
  }

  lemma EditBetween(pre: string, open: string, inner: string, close: string, tail: string, value: string)
    requires Skips(pre, open) && Skips(pre, close) && Skips(open, close) && Skips(inner, close)
    ensures var body := pre + (open + (inner + (close + tail)));
            && RemoveBetween(body, open, close) == pre + tail
            && ReplaceBetween(body, open, close, value) == pre + open + value + (close + tail)
  {
    var elem := open + (inner + (close + tail));
    Locate(pre, open, inner, close, tail);
    Slices(pre, open, inner, close, tail);
    hide Skips, RemoveBetween, ReplaceBetween, Index;
    RemoveFound(pre + elem, open, close, |pre|, |open| + |inner|);
    ReplaceFound(pre + elem, open, close, |pre|, |pre| + |open| + |inner|, value);
    assert pre + "" + tail == pre + tail;
  }

  lemma RemoveFound(body: string, open: string, close: string, start: nat, end: nat)
    requires Index(body, open) == start && Index(body[start..], close) == end
    ensures RemoveBetween(body, open, close) == Spliced(body, start, "", start + end + |close|)
  {
    hide Index;
    hide Spliced;
  }

  lemma ReplaceFound(body: string, open: string, close: string, start: nat, end: nat, value: string)
    requires Index(body, open) == start && Index(body, close) == end && start <= end
    ensures ReplaceBetween(body, open, close, value) == Spliced(body, start + |open|, value, end)
  {
    hide Index;
    hide Spliced;
  }

  lemma EditCut(pre: string, k: string, inner: string, tail: string, value: string)
    requires Cut(pre, k, inner)
    ensures RemoveTag(Body(pre, k, inner, tail), k) == pre + tail
    ensures ReplaceTagValue(Body(pre, k, inner, tail), k, value) == Body(pre, k, value, tail)
  {
    OpenSkipsClose(k);
    EditBetween(pre, OpenTag(k), inner, CloseTag(k), tail, value);
    Regroup(pre, OpenTag(k), value, CloseTag(k) + tail);
  }

  lemma Regroup(a: string, b: string, c: string, d: string)
    ensures a + b + c + d == a + (b + (c + d))
  {
  }

  // ------------------------------------------------------ printed maps, cut

  /** What stands between the tags when the value prints as exactly one element. */
  function Inner(v: Value): Option<string> {
    match v
    case Str(s) => Some(Escape(s))
    case Map(m) => Some(RenderPairs(m.pairs))
    case List(items) => if |items| == 1 then Some(RenderPairs(items[0].pairs)) else None
  }

  ghost predicate InnerTagFree(v: Value, k: string) {
    match v
    case Str(_) => true
    case Map(m) => TagFree(m.pairs, k)
    case List(items) => forall i :: 0 <= i < |items| ==> TagFree(items[i].pairs, k)
  }

  /** Nothing named `k` is printed before the pair (k, v) of the top level or inside it. */
  ghost predicate FirstAndAlone(root: string, before: seq<Pair>, k: string, v: Value) {
    && IsName(root) && IsName(k) && k != root
    && WellFormed(before) && TagFree(before, k) && !HasKey(before, k)
    && WellFormedValue(v) && Inner(v).Some? && InnerTagFree(v, k)
  }

  lemma RenderIsInner(k: string, v: Value)
    requires Inner(v).Some?
    ensures RenderValue(k, v) == OpenTag(k) + Inner(v).value + CloseTag(k)
  {
    if v.List? {
      assert RenderItems(k, v.items[1..]) == "";
    }
  }

  lemma SkipsInner(v: Value, q: string, k: string)
    requires WellFormedValue(v) && Inner(v).Some? && InnerTagFree(v, k) && IsName(k) && Pattern(q, k)
    ensures Skips(Inner(v).value, Tag(q))
  {
    match v
    case Str(s) => SkipsText(Escape(s), Tag(q));
    case Map(m) => SkipsPairs(m.pairs, q, k);
    case List(items) => SkipsPairs(items[0].pairs, q, k);
  }

  lemma {:induction false} RenderAppend(ps: seq<Pair>, qs: seq<Pair>)
    ensures RenderPairs(ps + qs) == RenderPairs(ps) + RenderPairs(qs)
    decreases |ps|
  {
    if ps == [] {
      assert ps + qs == qs;
    } else {
      assert (ps + qs)[1..] == ps[1..] + qs;
      RenderAppend(ps[1..], qs);
    }
  }

  lemma RenderOne(p: Pair)
    ensures RenderPairs([p]) == RenderValue(p.key, p.value)
  {
    assert [p][1..] == [];
    assert RenderPairs([p]) == RenderValue(p.key, p.value) + RenderPairs([p][1..]);
  }

  lemma RenderPairsCut(before: seq<Pair>, k: string, v: Value, after: seq<Pair>)
    requires Inner(v).Some?
    ensures RenderPairs(before + [Pair(k, v)] + after)
         == Body(RenderPairs(before), k, Inner(v).value, RenderPairs(after))
  {
    RenderAppend(before + [Pair(k, v)], after);
    RenderAppend(before, [Pair(k, v)]);
    RenderOne(Pair(k, v));
    RenderIsInner(k, v);
    RegroupFive(RenderPairs(before), OpenTag(k), Inner(v).value, CloseTag(k), RenderPairs(after));
  }

  lemma RegroupFive(a: string, b: string, c: string, d: string, e: string)
    ensures a + (b + c + d) + e == a + (b + (c + (d + e)))
  {
    Regroup(b, c, d, e);
    Assoc(a, b + c + d, e);
  }

  lemma Surround(head: string, pre: string, k: string, inner: string, tail: string, end: string)
    ensures head + Body(pre, k, inner, tail) + end == Body(head + pre, k, inner, tail + end)
  {
    var o, c := OpenTag(k), CloseTag(k);
    Assoc(head, pre, o + (inner + (c + tail)));
    Assoc(head + pre, o + (inner + (c + tail)), end);
    Assoc(o, inner + (c + tail), end);
    Assoc(inner, c + tail, end);
    Assoc(c, tail, end);
  }

  /** A printed response is a head, the printed fields and an end, and no tag `k` begins in head or end. */
  ghost predicate Frames(head: string, end: string, root: string, k: string) {
    && (forall n: OrdMap :: RenderResponse(root, n) == head + RenderPairs(n.pairs) + end)
    && Skips(head, OpenTag(k)) && Skips(head, CloseTag(k)) && Skips(end, OpenTag(k))
  }

  lemma FrameOf(root: string, k: string) returns (head: string, end: string)
    requires IsName(root) && IsName(k) && root != k
    ensures Frames(head, end, root, k)
  {
    head, end := XML_PREFIX + OpenTag(root), CloseTag(root);
    assert Tag("/" + k) == CloseTag(k) && Tag(k) == OpenTag(k);
    SkipsDeclaration(k, k);
    SkipsDeclaration("/" + k, k);
    NamesDiffer(root, k, k);
    NamesDiffer(root, "/" + k, k);
    hide Skips, IsName, Pattern, Tag;
    SkipsBoth(XML_PREFIX, OpenTag(root), OpenTag(k));
    SkipsBoth(XML_PREFIX, OpenTag(root), CloseTag(k));
  }

  lemma SkipsDeclaration(q: string, k: string)
    requires IsName(k) && Pattern(q, k)
    ensures Skips(XML_PREFIX, Tag(q))
  {
    NamesArePlain(k);
    DeclarationIsPlain();
    assert q[0] != '?';
    hide Skips;
    SkipsOtherTag(DECLARATION, q);
    DeclarationTag();
  }

  const DECLARATION := "?" + XML_DECL + "?"

  lemma DeclarationIsPlain()
    ensures Plain(DECLARATION) && DECLARATION[0] == '?'
  {
  }

  lemma DeclarationTag()
    ensures Tag(DECLARATION) == XML_PREFIX
  {
  }

  lemma CutMap(head: string, root: string, before: seq<Pair>, k: string, v: Value)
    requires FirstAndAlone(root, before, k, v) && Skips(head, OpenTag(k)) && Skips(head, CloseTag(k))
    ensures Cut(head + RenderPairs(before), k, Inner(v).value)
  {
    assert Tag("/" + k) == CloseTag(k) && Tag(k) == OpenTag(k);
    SkipsPairs(before, k, k);
    SkipsPairs(before, "/" + k, k);
    SkipsInner(v, "/" + k, k);
    SkipsBoth(head, RenderPairs(before), OpenTag(k));
    SkipsBoth(head, RenderPairs(before), CloseTag(k));
  }

  lemma TailOf<T>(a: seq<T>, b: seq<T>, c: seq<T>)
    requires a != []
    ensures (a + b + c)[0] == a[0] && (a + b + c)[1..] == a[1..] + b + c
    ensures [a[0]] + (a[1..] + b + c) == a + b + c
    ensures [a[0]] + (a[1..] + c) == a + c
  {
  }

  lemma {:induction false} EditAt(before: seq<Pair>, k: string, v: Value, w: Value, after: seq<Pair>)
    requires !HasKey(before, k)
    ensures DeleteKey(before + [Pair(k, v)] + after, k) == before + after
    ensures SetKey(before + [Pair(k, v)] + after, k, w) == before + [Pair(k, w)] + after
  {
    if before == [] {
      assert before + [Pair(k, v)] + after == [Pair(k, v)] + after;
      assert ([Pair(k, v)] + after)[1..] == after;
      assert before + after == after;
    } else {
      TailOf(before, [Pair(k, v)], after);
      TailOf(before, [Pair(k, w)], after);
      EditAt(before[1..], k, v, w, after);
    }
  }

  // ------------------------------------------------------------ main results

  /** Removing the tag from the print is deleting the key from the map. What comes after is arbitrary. */
  lemma RemoveTagIsDelete(root: string, before: seq<Pair>, k: string, v: Value, after: seq<Pair>)
    requires FirstAndAlone(root, before, k, v)
    ensures var ps := before + [Pair(k, v)] + after;
            RemoveTag(RenderResponse(root, OrdMap(ps)), k) == RenderResponse(root, OrdMap(DeleteKey(ps, k)))
  {
    var head, end := FrameOf(root, k);
    EditFramed(head, end, root, before, k, v, after, "");
    EditAt(before, k, v, v, after);
    RenderAppend(before, after);
    Associate(head, RenderPairs(before), RenderPairs(after), end);
  }

  lemma Associate(a: string, b: string, c: string, d: string)
    ensures a + (b + c) + d == a + b + (c + d)
  {
  }

  lemma EditFramed(head: string, end: string, root: string, before: seq<Pair>, k: string, v: Value,
                   after: seq<Pair>, value: string)
    requires FirstAndAlone(root, before, k, v) && Skips(head, OpenTag(k)) && Skips(head, CloseTag(k))
    ensures var body := head + RenderPairs(before + [Pair(k, v)] + after) + end;
            && RemoveTag(body, k) == head + RenderPairs(before) + (RenderPairs(after) + end)
            && ReplaceTagValue(body, k, value) == Body(head + RenderPairs(before), k, value, RenderPairs(after) + end)
  {
    var pre, inner, tail := RenderPairs(before), Inner(v).value, RenderPairs(after);
    CutMap(head, root, before, k, v);
    FramedCut(head, end, before, k, v, after);
    EditCut(head + pre, k, inner, tail + end, value);
  }

  lemma Framed(head: string, end: string, root: string, ps: seq<Pair>, k: string)
    requires Frames(head, end, root, k)
    ensures RenderResponse(root, OrdMap(ps)) == head + RenderPairs(ps) + end
    ensures Skips(head, OpenTag(k)) && Skips(head, CloseTag(k))
  {
  }

  /** Replacing the tag's content by an escaped text is setting the key to that text. */
  lemma ReplaceTagIsSet(root: string, before: seq<Pair>, k: string, v: Value, after: seq<Pair>, s: string)
    requires FirstAndAlone(root, before, k, v)
    ensures var ps := before + [Pair(k, v)] + after;
            ReplaceTagValue(RenderResponse(root, OrdMap(ps)), k, Escape(s))
              == RenderResponse(root, OrdMap(SetKey(ps, k, Str(s))))
  {
    hide ReplaceTagValue, RemoveTag, OpenTag, CloseTag, Escape, Skips, Xml.RenderResponse;
    var head, end := FrameOf(root, k);
    EditAt(before, k, v, Str(s), after);
    hide FirstAndAlone, SetKey, DeleteKey;
    Framed(head, end, root, before + [Pair(k, v)] + after, k);
    Framed(head, end, root, before + [Pair(k, Str(s))] + after, k);
    hide Frames;
    EditFramed(head, end, root, before, k, v, after, Escape(s));
    FramedCut(head, end, before, k, Str(s), after);
  }

  lemma FramedCut(head: string, end: string, before: seq<Pair>, k: string, v: Value, after: seq<Pair>)
    requires Inner(v).Some?
    ensures head + RenderPairs(before + [Pair(k, v)] + after) + end
         == Body(head + RenderPairs(before), k, Inner(v).value, RenderPairs(after) + end)
  {
    RenderPairsCut(before, k, v, after);
    Surround(head, RenderPairs(before), k, Inner(v).value, RenderPairs(after), end);
  }

  // -------------------------------- a key that the top level does not hold

  function Wrap(a: string, k: string, x: string, y: string, z: string, b: string): string {
    a + (x + OpenTag(k) + y + CloseTag(k) + z) + b
  }

  lemma Widen(a: string, k: string, x: string, y: string, z: string, b: string)
    ensures Wrap(a, k, x, y, z, b) == (a + x) + OpenTag(k) + y + CloseTag(k) + (z + b)
  {
  }

  lemma {:induction false} FindElement(ps: seq<Pair>, k: string) returns (x: string, y: string, z: string)
    requires !TagFree(ps, k)
    ensures RenderPairs(ps) == x + OpenTag(k) + y + CloseTag(k) + z
    decreases ps, 1
  {
    var u, w;
    if TagFreeValue(ps[0].key, ps[0].value, k) {
      assert forall i :: 0 <= i < |ps[1..]| ==> ps[1..][i] == ps[i + 1];
      assert !TagFree(ps[1..], k) by {
        var i :| 0 <= i < |ps| && !TagFreeValue(ps[i].key, ps[i].value, k);
        assert ps[i] == ps[1..][i - 1];
      }
      u, y, z := FindElement(ps[1..], k);
      x := RenderValue(ps[0].key, ps[0].value) + u;
      Widen(RenderValue(ps[0].key, ps[0].value), k, u, y, z, "");
      assert z + "" == z;
    } else {
      x, y, w := FindInValue(ps[0].key, ps[0].value, k);
      z := w + RenderPairs(ps[1..]);
    }
  }

  lemma {:induction false} FindInValue(t: string, v: Value, k: string) returns (x: string, y: string, z: string)
    requires !TagFreeValue(t, v, k)
    ensures RenderValue(t, v) == x + OpenTag(k) + y + CloseTag(k) + z
    decreases v, 1
  {
    match v
    case Str(s) =>
      x, y, z := "", Escape(s), "";
    case Map(m) =>
      x, y, z := FindInElement(t, m, k);
    case List(items) =>
      assert t == k || !ItemsFree(items, k);
      x, y, z := FindInItems(t, items, k);
  }

  lemma {:induction false} FindInElement(t: string, m: OrdMap, k: string) returns (x: string, y: string, z: string)
    requires t == k || !TagFree(m.pairs, k)
    ensures OpenTag(t) + RenderPairs(m.pairs) + CloseTag(t) == x + OpenTag(k) + y + CloseTag(k) + z
    decreases m, 0
  {
    if t == k {
      x, y, z := "", RenderPairs(m.pairs), "";
    } else {
      var u, w;
      u, y, w := FindElement(m.pairs, k);
      x, z := OpenTag(t) + u, w + CloseTag(t);
      Widen(OpenTag(t), k, u, y, w, CloseTag(t));
    }
  }

  lemma {:induction false} FindInItems(t: string, items: seq<OrdMap>, k: string)
    returns (x: string, y: string, z: string)
    requires items != [] && (t == k || !ItemsFree(items, k))
    ensures RenderItems(t, items) == x + OpenTag(k) + y + CloseTag(k) + z
    decreases items, 1
  {
    var first, rest := OpenTag(t) + RenderPairs(items[0].pairs) + CloseTag(t), RenderItems(t, items[1..]);
    assert RenderItems(t, items) == first + rest;
    ItemsFreeCons(items, k);
    hide TagFree, ItemsFree, RenderPairs, RenderItems, OpenTag, CloseTag;
    if t == k || !TagFree(items[0].pairs, k) {
      var w;
      x, y, w := FindInElement(t, items[0], k);
      z := w + rest;
      Widen("", k, x, y, w, rest);
    } else {
      var u;
      u, y, z := FindInItems(t, items[1..], k);
      x := first + u;
      Widen(first, k, u, y, z, "");
    }
  }

  ghost predicate ItemsFree(items: seq<OrdMap>, k: string) {
    forall i :: 0 <= i < |items| ==> TagFree(items[i].pairs, k)
  }

  lemma ItemsFreeCons(items: seq<OrdMap>, k: string)
    requires items != []
    ensures !ItemsFree(items, k) && TagFree(items[0].pairs, k) ==> items[1..] != [] && !ItemsFree(items[1..], k)
  {
    hide TagFree;
    forall i | 0 < i < |items| ensures items[i] == items[1..][i - 1] {}
  }

  /** Removing a tag that stands somewhere in the body always shortens the body. */
  lemma RemoveTagShortens(body: string, x: string, k: string, y: string, z: string)
    requires body == x + OpenTag(k) + y + CloseTag(k) + z
    ensures |RemoveTag(body, k)| < |body|
  {
    assert At(body, |x|, OpenTag(k));
    IndexIsFirst(body, OpenTag(k));
    var start := Index(body, OpenTag(k));
    var close := |x| + |OpenTag(k)| + |y|;
    assert At(body, close, CloseTag(k));
    assert body[start..][close - start..close - start + |CloseTag(k)|] == body[close..close + |CloseTag(k)|];
    assert At(body[start..], close - start, CloseTag(k));
    IndexIsFirst(body[start..], CloseTag(k));
  }

  /** For a key the top level does not hold, deleting does nothing; removing the tag does nothing
      exactly when no nested element has that name either. */
  lemma RemoveAbsentTag(root: string, m: OrdMap, k: string)
    requires IsName(root) && IsName(k) && k != root && WellFormed(m.pairs) && !HasKey(m.pairs, k)
    ensures RemoveTag(RenderResponse(root, m), k) == RenderResponse(root, OrdMap(DeleteKey(m.pairs, k)))
       <==> TagFree(m.pairs, k)
  {
    DeleteIsWithout(m.pairs, k);
    assert OrdMap(m.pairs) == m;
    if TagFree(m.pairs, k) {
      TagNotFound(root, m, k);
    } else {
      var head, end := FrameOf(root, k);
      var x, y, z := FindElement(m.pairs, k);
      Widen(head, k, x, y, z, end);
      RemoveTagShortens(RenderResponse(root, m), head + x, k, y, z + end);
    }
  }

  lemma TagNotFound(root: string, m: OrdMap, k: string)
    requires IsName(root) && IsName(k) && k != root && WellFormed(m.pairs) && TagFree(m.pairs, k)
    ensures Index(RenderResponse(root, m), OpenTag(k)) == -1
  {
    var head, end := FrameOf(root, k);
    var body := head + RenderPairs(m.pairs) + end;
    assert Tag(k) == OpenTag(k);
    SkipsPairs(m.pairs, k, k);
    SkipsBoth(head, RenderPairs(m.pairs), OpenTag(k));
    SkipsBoth(head + RenderPairs(m.pairs), end, OpenTag(k));
    assert body + "" == body;
    forall j: nat ensures !At(body, j, OpenTag(k)) {
      assert SkipsAt(body, "", j, OpenTag(k));
    }
    IndexIsFirst(body, OpenTag(k));
  }
}
