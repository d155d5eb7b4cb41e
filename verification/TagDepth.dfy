/** Nesting depth of printed text, and why no nested element can stand in for one of the top level. */
module TagDepth {
  import opened Text
  import opened OrdMaps
  import opened Xml
  import opened TagSurgery

  /** Opening tags less closing tags, told apart by the character after `<`. */
  function Depth(s: string): int {
    if s == "" then 0
    else (if s[0] != '<' then 0 else if |s| > 1 && s[1] == '/' then -1 else 1) + Depth(s[1..])
  }

  /** Not cut between `<` and the character that tells what tag it is. */
  predicate Whole(s: string) {
    s != "" ==> s[|s| - 1] != '<'
  }

  /** No beginning of `s` goes deeper than `n` levels below the ground it starts on. */
  ghost predicate Above(s: string, n: int) {
    forall i :: 0 <= i <= |s| && Whole(s[..i]) ==> Depth(s[..i]) >= -n
  }

  lemma {:induction false} DepthAdds(a: string, b: string)
    requires Whole(a)
    ensures Depth(a + b) == Depth(a) + Depth(b)
    decreases |a|
  {
    if a == "" {
      assert a + b == b;
    } else {
      assert (a + b)[1..] == a[1..] + b;
      DepthAdds(a[1..], b);
    }
  }

  lemma AboveAdds(a: string, b: string, n: int)
    requires Whole(a) && Above(a, n) && Above(b, n + Depth(a))
    ensures Above(a + b, n)
  {
    hide Depth;
    var s := a + b;
    forall i | 0 <= i <= |s| && Whole(s[..i]) ensures Depth(s[..i]) >= -n {
      PrefixOf(a, b, i);
      if i > |a| { DepthAdds(a, b[..i - |a|]); }
    }
  }

  lemma PrefixOf(a: string, b: string, i: nat)
    requires i <= |a| + |b|
    ensures i <= |a| ==> (a + b)[..i] == a[..i]
    ensures i > |a| ==> (a + b)[..i] == a + b[..i - |a|] && (Whole((a + b)[..i]) ==> Whole(b[..i - |a|]))
  {
    if i > |a| {
      assert (a + b)[..i] == a + b[..i - |a|];
      assert (a + b[..i - |a|])[i - 1] == b[..i - |a|][i - |a| - 1];
    }
  }

  lemma WholeAdds(a: string, b: string)
    requires Whole(a) && Whole(b)
    ensures Whole(a + b)
  {
    assert b != "" ==> (a + b)[|a + b| - 1] == b[|b| - 1];
    assert b == "" ==> a + b == a;
  }

  lemma FullDepth(s: string, n: int)
    requires Whole(s) && Above(s, n)
    ensures Depth(s) >= -n
  {
    assert s[..|s|] == s;
  }

  lemma {:induction false} TextDepth(t: string)
    requires '<' !in t
    ensures Depth(t) == 0 && Whole(t)
    decreases |t|
  {
    if t != "" { TextDepth(t[1..]); }
  }

  lemma TextAbove(t: string)
    requires '<' !in t
    ensures Depth(t) == 0 && Whole(t) && Above(t, 0)
  {
    TextDepth(t);
    forall i | 0 <= i <= |t| ensures Depth(t[..i]) == 0 {
      TextDepth(t[..i]);
    }
  }

  /** A tag is `<`, a character that is a slash or not, and text. */
  lemma TagAbove(t: string)
    requires t != "" && '<' !in t
    ensures Whole("<" + t) && Depth("<" + t) == (if t[0] == '/' then -1 else 1)
    ensures Above("<" + t, if t[0] == '/' then 1 else 0)
  {
    var s := "<" + t;
    TextDepth(t);
    assert s[1..] == t && s[|s| - 1] == t[|t| - 1];
    forall i | 0 <= i <= |s| && Whole(s[..i]) ensures Depth(s[..i]) == (if i == 0 then 0 else Depth(s)) {
      if i > 0 {
        assert s[..i][1..] == t[..i - 1] && s[..i][0] == '<';
        assert i > 1 ==> s[..i][1] == t[0];
        TextDepth(t[..i - 1]);
      }
    }
  }

  lemma NameTags(k: string)
    requires IsName(k)
    ensures Whole(OpenTag(k)) && Depth(OpenTag(k)) == 1 && Above(OpenTag(k), 0)
    ensures Whole(CloseTag(k)) && Depth(CloseTag(k)) == -1 && Above(CloseTag(k), 1)
  {
    NamesArePlain(k);
    TagAbove(k + ">");
    TagAbove("/" + k + ">");
    assert "<" + (k + ">") == OpenTag(k);
    assert "<" + ("/" + k + ">") == CloseTag(k);
  }

  /** Ends on the ground it starts on and never goes below it. */
  ghost predicate Level(s: string) {
    Whole(s) && Depth(s) == 0 && Above(s, 0)
  }

  lemma LevelAdds(a: string, b: string)
    requires Level(a) && Level(b)
    ensures Level(a + b)
  {
    WholeAdds(a, b);
    DepthAdds(a, b);
    AboveAdds(a, b, 0);
  }

  lemma ElementIsLevel(t: string, content: string)
    requires IsName(t) && Level(content)
    ensures Level(OpenTag(t) + content + CloseTag(t))
  {
    hide Depth, Above, Whole, OpenTag, CloseTag;
    var open, close := OpenTag(t), CloseTag(t);
    NameTags(t);
    WholeAdds(open, content);
    WholeAdds(open + content, close);
    DepthAdds(open, content);
    DepthAdds(open + content, close);
    AboveWeakens(content, 0, 1);
    AboveAdds(open, content, 0);
    AboveAdds(open + content, close, 0);
  }

  lemma AboveWeakens(s: string, m: int, n: int)
    requires Above(s, m) && m <= n
    ensures Above(s, n)
  {
  }

  lemma {:induction false} PairsAreLevel(ps: seq<Pair>)
    requires WellFormed(ps)
    ensures Level(RenderPairs(ps))
    decreases ps, 1
  {
    hide Level;
    if ps == [] {
      NothingIsLevel();
    } else {
      assert WellFormed(ps[1..]) by { WellFormedParts(ps); }
      WellFormedParts(ps);
      ValueIsLevel(ps[0].key, ps[0].value);
      PairsAreLevel(ps[1..]);
      LevelAdds(RenderValue(ps[0].key, ps[0].value), RenderPairs(ps[1..]));
    }
  }

  lemma NothingIsLevel()
    ensures Level("")
  {
  }

  lemma WellFormedParts(ps: seq<Pair>)
    requires WellFormed(ps) && ps != []
    ensures IsName(ps[0].key) && WellFormedValue(ps[0].value) && WellFormed(ps[1..])
  {
    assert forall i :: 0 <= i < |ps[1..]| ==> ps[1..][i] == ps[i + 1];
  }

  lemma {:induction false} ValueIsLevel(t: string, v: Value)
    requires IsName(t) && WellFormedValue(v)
    ensures Level(RenderValue(t, v))
    decreases v, 1
  {
    match v
    case Str(s) =>
      TextAbove(Escape(s));
      ElementIsLevel(t, Escape(s));
    case Map(m) =>
      PairsAreLevel(m.pairs);
      ElementIsLevel(t, RenderPairs(m.pairs));
    case List(items) =>
      ItemsAreLevel(t, items);
  }

  lemma {:induction false} ItemsAreLevel(t: string, items: seq<OrdMap>)
    requires IsName(t) && forall i :: 0 <= i < |items| ==> WellFormed(items[i].pairs)
    ensures Level(RenderItems(t, items))
    decreases items, 0
  {
    hide Level;
    if items == [] {
      NothingIsLevel();
    } else {
      PairsAreLevel(items[0].pairs);
      ElementIsLevel(t, RenderPairs(items[0].pairs));
      ItemsAreLevel(t, items[1..]);
      LevelAdds(OpenTag(t) + RenderPairs(items[0].pairs) + CloseTag(t), RenderItems(t, items[1..]));
    }
  }

  /**
   * If `cut + rest == rest + moved`, then `rest` repeats `cut` over and over; so when `cut` never goes below
   * its ground, neither does `rest`.
   */
  lemma {:induction false} RestStaysAbove(cut: string, rest: string, moved: string, i: nat)
    requires cut != "" && Whole(cut) && Above(cut, 0) && cut + rest == rest + moved
    requires i <= |rest| && Whole(rest[..i])
    ensures Depth(rest[..i]) >= 0
    decreases |rest|
  {
    var all := cut + rest;
    assert all == rest + moved;
    assert all[..i] == rest[..i];
    if i <= |cut| {
      assert all[..i] == cut[..i];
    } else {
      var left := rest[|cut|..];
      assert rest[..|cut|] == all[..|cut|] == cut;
      assert rest == cut + left;
      assert all == cut + (cut + left) && all == cut + (left + moved);
      assert cut + left == all[|cut|..] == left + moved;
      var j := i - |cut|;
      assert rest[..i] == cut + left[..j];
      assert left[..j][j - 1] == rest[..i][i - 1];
      RestStaysAbove(cut, left, moved, j);
      DepthAdds(cut, left[..j]);
      FullDepth(cut, 0);
    }
  }
}
