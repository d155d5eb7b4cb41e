/** Signed responses, and when the signature still verifies at the receiver. */
module SignedResponse {
  import Canonical
  import opened Text
  import opened OrdMaps
  import opened Signature
  import opened Xml
  import opened XmlParser
  import opened SignedValues

  // ---------------------------------------------------------------- pipeline

  predicate IsDigest(d: string) {
    |d| == 32 && forall c :: c in d ==> '0' <= c <= '9' || 'a' <= c <= 'f'
  }

  /** All that is known of MD5 here: its output is 32 lower-case hex digits. */
  ghost predicate IsHash(md5: Hash) {
    forall t :: IsDigest(md5(t))
  }

  /** What `GenerateSalt` can return: letters. */
  predicate IsSalt(salt: string) {
    salt != "" && forall c :: c in salt ==> 'a' <= c <= 'z' || 'A' <= c <= 'Z'
  }

  function Salted(fields: OrdMap, salt: string): OrdMap {
    OrdMap(SetKey(fields.pairs, "pg_salt", Str(salt)))
  }

  function SignedFields(md5: Hash, script: string, fields: OrdMap, secret: string, salt: string): OrdMap {
    var salted := Salted(fields, salt);
    OrdMap(SetKey(salted.pairs, "pg_sig", Str(Sign(md5, script, salted, secret))))
  }

  /** `signedXML`. */
  method SignedXml(md5: Hash, root: string, script: string, fields: OrdMap, secret: string, salt: string)
    returns (body: string)
    ensures body == RenderResponse(root, SignedFields(md5, script, fields, secret, salt))
  {
    var f := new Fields(fields.pairs);
    f.Set("pg_salt", Str(salt));
    var sig := Sign(md5, script, OrdMap(f.pairs), secret);
    f.Set("pg_sig", Str(sig));
    body := Render(root, OrdMap(f.pairs));
  }

  /** What the receiver does: parse, take `pg_sig` as text, verify with the same script name and secret. */
  predicate Accepts(md5: Hash, script: string, body: string, secret: string) {
    var parsed := ParseText(body);
    parsed.Ok? &&
    var sig := Get(parsed.value.pairs, "pg_sig");
    Verify(md5, script, parsed.value, secret, if sig.Some? && sig.value.Str? then sig.value.s else "")
  }

  // ---------------------------------------- the signed text decides the values

  function Cat(xs: seq<string>): string {
    if xs == [] then "" else xs[0] + ";" + Cat(xs[1..])
  }

  lemma {:induction false} JoinIsCat(xs: seq<string>, last: string)
    ensures Join(xs + [last], ";") == Cat(xs) + last
  {
    if xs != [] {
      assert (xs + [last])[1..] == xs[1..] + [last];
      JoinIsCat(xs[1..], last);
    }
  }

  lemma {:induction false} CatAppend(xs: seq<string>, ys: seq<string>)
    ensures Cat(xs + ys) == Cat(xs) + Cat(ys)
  {
    if xs == [] {
      assert xs + ys == ys;
    } else {
      assert (xs + ys)[1..] == xs[1..] + ys;
      CatAppend(xs[1..], ys);
    }
  }

  ghost predicate AllStable(xs: seq<string>) {
    forall x :: x in xs ==> Wire(x) == x
  }

  lemma ShorterHeads(w: string, u: string, x: string, v: string)
    requires |w| <= |x| && |u| <= |v|
    ensures w + ";" + u == x + ";" + v <==> w == x && u == v
  {
    var a, b := w + ";" + u, x + ";" + v;
    if a == b {
      assert |w| == |x|;
      assert w == a[..|w|] && x == b[..|x|] && u == a[|w| + 1..] && v == b[|x| + 1..];
    }
  }

  lemma WireCons(x: string, rest: seq<string>)
    ensures WireValues([x] + rest) == if Wire(x) == "" then WireValues(rest) else [Wire(x)] + WireValues(rest)
    ensures AllStable([x] + rest) <==> Wire(x) == x && AllStable(rest)
  {
    hide Wire;
    assert ([x] + rest)[1..] == rest;
    assert [] + WireValues(rest) == WireValues(rest);
  }

  lemma CatCons(x: string, rest: seq<string>)
    ensures Cat([x] + rest) == x + ";" + Cat(rest)
  {
    assert ([x] + rest)[1..] == rest;
  }

  /** The text that is hashed is left unchanged by the wire exactly when every value is. */
  lemma {:induction false} CatStable(xs: seq<string>)
    requires "" !in xs
    ensures |Cat(WireValues(xs))| <= |Cat(xs)|
    ensures Cat(WireValues(xs)) == Cat(xs) <==> AllStable(xs)
    ensures AllStable(xs) ==> WireValues(xs) == xs
  {
    if xs != [] {
      var x, rest := xs[0], xs[1..];
      assert xs == [x] + rest && x in xs;
      CatStable(rest);
      WireShortens(x);
      hide Wire, WireValues, Cat, AllStable;
      var w, kept := Wire(x), WireValues(rest);
      WireCons(x, rest);
      CatCons(x, rest);
      if w != "" {
        CatCons(w, kept);
        ShorterHeads(w, Cat(kept), x, Cat(rest));
      }
    }
  }

  lemma WireShortens(x: string)
    ensures |Wire(x)| <= |x|
  {
  }

  lemma SignedTextIsCat(script: string, m: OrdMap, secret: string)
    ensures var pre := if script != "" then [script] else [];
            SignedText(script, m, secret) == Cat(pre) + Cat(CollectValues(Map(m))) + secret
  {
    var pre := if script != "" then [script] else [];
    JoinIsCat(pre + CollectValues(Map(m)), secret);
    CatAppend(pre, CollectValues(Map(m)));
  }

  ghost predicate Contributes(ps: seq<Pair>, k: string, x: string) {
    HasKey(ps, k) && x in CollectValues(ps[Find(ps, k)].value)
  }

  lemma {:induction false} CollectMembers(ps: seq<Pair>, keys: seq<string>, x: string)
    requires forall k :: k in keys ==> HasKey(ps, k)
    ensures x in CollectKeys(ps, keys) <==> exists k :: k in keys && Contributes(ps, k, x)
  {
    if keys != [] {
      CollectMembers(ps, keys[1..], x);
      assert forall k :: k in keys <==> k == keys[0] || k in keys[1..];
      assert Contributes(ps, keys[0], x) <==> x in CollectValues(ps[Find(ps, keys[0])].value);
    }
  }

  lemma {:induction false} NoEmptyValue(v: Value)
    ensures "" !in CollectValues(v)
    decreases v, 1
  {
    match v
    case Str(_) =>
    case Map(m) =>
      KeysAreKeys(m.pairs);
      NoEmptyAmongKeys(m.pairs, SortedKeys(m.pairs));
    case List(items) => NoEmptyItems(items);
  }

  lemma {:induction false} NoEmptyAmongKeys(ps: seq<Pair>, keys: seq<string>)
    requires forall k :: k in keys ==> HasKey(ps, k)
    ensures "" !in CollectKeys(ps, keys)
    decreases ps, |keys|
  {
    if keys != [] {
      NoEmptyValue(ps[Find(ps, keys[0])].value);
      NoEmptyAmongKeys(ps, keys[1..]);
    }
  }

  lemma {:induction false} NoEmptyItems(items: seq<OrdMap>)
    ensures "" !in CollectItems(items)
    decreases items
  {
    if items != [] {
      KeysAreKeys(items[0].pairs);
      NoEmptyAmongKeys(items[0].pairs, SortedKeys(items[0].pairs));
      NoEmptyItems(items[1..]);
    }
  }

  // --------------------------------------------------- what the receiver reads

  lemma {:induction false} NormAppend(ps: seq<Pair>, qs: seq<Pair>)
    ensures NormPairs(ps + qs) == NormPairs(ps) + NormPairs(qs)
    decreases |ps|
  {
    if ps == [] {
      assert ps + qs == qs;
    } else {
      assert (ps + qs)[1..] == ps[1..] + qs;
      NormAppend(ps[1..], qs);
    }
  }

  lemma {:induction false} WithoutLast(ps: seq<Pair>, k: string, v: Value)
    requires !HasKey(ps, k)
    ensures WithoutKey(ps + [Pair(k, v)], k) == ps
  {
    if ps != [] {
      assert (ps + [Pair(k, v)])[1..] == ps[1..] + [Pair(k, v)];
      WithoutLast(ps[1..], k, v);
    }
  }

  lemma {:induction false} WellFormedAfterSet(ps: seq<Pair>, k: string, s: string)
    requires WellFormed(ps) && IsName(k)
    ensures WellFormed(SetKey(ps, k, Str(s)))
    ensures LegalPairs(SetKey(ps, k, Str(s))) ==> LegalText(s)
    ensures !HasKey(ps, k) && LegalText(s) ==> (LegalPairs(SetKey(ps, k, Str(s))) <==> LegalPairs(ps))
  {
    var r := SetKey(ps, k, Str(s));
    GetAfterSet(ps, k, Str(s), k);
    SetElements(ps, k, Str(s));
    if LegalPairs(r) {
      assert LegalValue(r[Find(r, k)].value);
    }
    if !HasKey(ps, k) {
      SetAppends(ps, k, Str(s));
      forall i | 0 <= i < |ps| ensures r[i] == ps[i] {}
    }
  }

  lemma DigestIsStable(d: string)
    requires IsDigest(d)
    ensures Wire(d) == d && LegalText(d)
  {
    hide Wire;
    assert d[0] in d && d[|d| - 1] in d;
    assert Trimmed(d) && '\r' !in d;
    Canonical.WireFixes(d);
  }

  lemma NormOne(k: string, s: string)
    ensures NormPairs([Pair(k, Str(s))]) == [Pair(k, Str(Wire(s)))]
  {
    var ps := [Pair(k, Str(s))];
    assert ps[1..] == [];
    assert NormPairs(ps) == NormPair(k, Str(s)) + NormPairs(ps[1..]);
  }

  lemma NormSigned(salted: seq<Pair>, k: string, sig: string)
    requires WellFormed(salted) && !HasKey(salted, k) && IsName(k) && Wire(sig) == sig && LegalText(sig)
    ensures var signed := SetKey(salted, k, Str(sig));
            && WellFormed(signed)
            && (LegalPairs(signed) <==> LegalPairs(salted))
            && NormPairs(signed) == NormPairs(salted) + [Pair(k, Str(sig))]
  {
    WellFormedAfterSet(salted, k, sig);
    NormAfterSet(salted, k, sig);
  }

  lemma NormAfterSet(ps: seq<Pair>, k: string, s: string)
    requires !HasKey(ps, k)
    ensures NormPairs(SetKey(ps, k, Str(s))) == NormPairs(ps) + [Pair(k, Str(Wire(s)))]
  {
    SetAppends(ps, k, Str(s));
    NormAppend(ps, [Pair(k, Str(s))]);
    NormOne(k, s);
  }

  lemma SaltedParts(fields: OrdMap, salt: string)
    requires WellFormed(fields.pairs) && !HasKey(fields.pairs, "pg_sig")
    ensures WellFormed(Salted(fields, salt).pairs) && !HasKey(Salted(fields, salt).pairs, "pg_sig")
  {
    GetAfterSet(fields.pairs, "pg_salt", Str(salt), "pg_sig");
    WellFormedAfterSet(fields.pairs, "pg_salt", salt);
  }

  /** The signature that the sender computed, as the receiver recomputes it. */
  ghost predicate TextsHashAlike(md5: Hash, script: string, salted: OrdMap, secret: string) {
    md5(SignedText(script, OrdMap(NormPairs(salted.pairs)), secret)) == md5(SignedText(script, salted, secret))
  }

  lemma VerifyParsed(md5: Hash, script: string, norm: seq<Pair>, secret: string, sig: string)
    requires !HasKey(norm, "pg_sig")
    ensures var m := OrdMap(norm + [Pair("pg_sig", Str(sig))]);
            && Get(m.pairs, "pg_sig") == Some(Str(sig))
            && (Verify(md5, script, m, secret, sig) <==> md5(SignedText(script, OrdMap(norm), secret)) == sig)
  {
    SetReplacesLast(norm, "pg_sig", Str(sig), Str(sig));
    WithoutLast(norm, "pg_sig", Str(sig));
  }

  lemma ParseSigned(root: string, salted: seq<Pair>, k: string, sig: string)
    requires IsName(root) && WellFormed(salted) && !HasKey(salted, k) && IsName(k) && Wire(sig) == sig && LegalText(sig)
    ensures ParseText(RenderResponse(root, OrdMap(SetKey(salted, k, Str(sig)))))
         == if LegalPairs(salted) then Ok(OrdMap(NormPairs(salted) + [Pair(k, Str(sig))])) else Err(SyntaxError)
    ensures !HasKey(NormPairs(salted), k)
  {
    NormSigned(salted, k, sig);
    ParsePrinted(root, OrdMap(SetKey(salted, k, Str(sig))));
    NormKeepsKeysUnique(salted, k);
  }

  /** The receiver accepts exactly when parsing succeeds and the two texts have the same hash. */
  lemma AcceptsComparesTexts(md5: Hash, root: string, script: string, fields: OrdMap, secret: string, salt: string)
    requires IsHash(md5) && IsName(root) && WellFormed(fields.pairs) && !HasKey(fields.pairs, "pg_sig")
    ensures Accepts(md5, script, RenderResponse(root, SignedFields(md5, script, fields, secret, salt)), secret)
       <==> LegalPairs(Salted(fields, salt).pairs) && TextsHashAlike(md5, script, Salted(fields, salt), secret)
  {
    var salted := Salted(fields, salt);
    var sig := Sign(md5, script, salted, secret);
    hide Accepts, Salted, Verify, ParseText, WellFormed, LegalPairs, NormPairs, SignedText, RenderResponse, HasKey,
         IsName, Wire, SetKey, Xml.LegalText, IsDigest, Get;
    assert IsDigest(sig);
    assert SignedFields(md5, script, fields, secret, salt).pairs == SetKey(salted.pairs, "pg_sig", Str(sig));
    hide IsHash, SignedFields;
    SaltedParts(fields, salt);
    DigestIsStable(sig);
    FieldNames();
    ParseSigned(root, salted.pairs, "pg_sig", sig);
    VerifyParsed(md5, script, NormPairs(salted.pairs), secret, sig);
    AcceptsParsed(md5, script, RenderResponse(root, SignedFields(md5, script, fields, secret, salt)), secret);
  }

  lemma FieldNames()
    ensures IsName("pg_sig") && IsName("pg_salt")
  {
  }

  lemma AcceptsParsed(md5: Hash, script: string, body: string, secret: string)
    ensures ParseText(body).Err? ==> !Accepts(md5, script, body, secret)
    ensures var r := ParseText(body);
            r.Ok? ==>
              var sig := Get(r.value.pairs, "pg_sig");
              sig.Some? && sig.value.Str? ==>
                (Accepts(md5, script, body, secret) <==> Verify(md5, script, r.value, secret, sig.value.s))
  {
  }

  lemma TextsAgree(script: string, m: OrdMap, secret: string)
    requires WellFormed(m.pairs)
    ensures SignedText(script, OrdMap(NormPairs(m.pairs)), secret) == SignedText(script, m, secret)
       <==> AllStable(CollectValues(Map(m)))
  {
    var vals := CollectValues(Map(m));
    assert OrdMap(m.pairs) == m;
    ValuesSurviveWire(m.pairs);
    SignedTextIsCat(script, m, secret);
    SignedTextIsCat(script, OrdMap(NormPairs(m.pairs)), secret);
    NoEmptyValue(Map(m));
    CatStable(vals);
    var pre := Cat(if script != "" then [script] else []);
    var a, b := pre + Cat(WireValues(vals)) + secret, pre + Cat(vals) + secret;
    if a == b {
      assert |Cat(WireValues(vals))| == |Cat(vals)|;
      assert Cat(WireValues(vals)) == a[|pre|..|pre| + |Cat(vals)|];
      assert Cat(vals) == b[|pre|..|pre| + |Cat(vals)|];
    }
  }

  // ------------------------------------------------------------- main results

  /** Every response the mock signs verifies after the wire, provided its leaves hold legal characters
      and each signed value is one that the wire leaves alone (trimmed, without CR). */
  lemma SignedResponseVerifies(md5: Hash, root: string, script: string, fields: OrdMap, secret: string, salt: string)
    requires IsHash(md5) && IsName(root) && WellFormed(fields.pairs) && !HasKey(fields.pairs, "pg_sig")
    requires LegalPairs(Salted(fields, salt).pairs) && AllStable(CollectValues(Map(Salted(fields, salt))))
    ensures Accepts(md5, script, RenderResponse(root, SignedFields(md5, script, fields, secret, salt)), secret)
  {
    AcceptsComparesTexts(md5, root, script, fields, secret, salt);
    SaltedParts(fields, salt);
    TextsAgree(script, Salted(fields, salt), secret);
  }

  ghost predicate AlwaysVerifies(root: string, script: string, fields: OrdMap, secret: string, salt: string) {
    forall md5: Hash :: IsHash(md5) ==>
      Accepts(md5, script, RenderResponse(root, SignedFields(md5, script, fields, secret, salt)), secret)
  }

  /** A hash that tells one text from all others. */
  lemma {:induction false} SeparatingHash(text: string) returns (md5: Hash)
    ensures IsHash(md5) && forall t :: t != text ==> md5(t) != md5(text)
  {
    var zeros := seq(32, _ => '0');
    var ones := seq(32, _ => '1');
    md5 := (t: string) => if t == text then zeros else ones;
    assert zeros[0] != ones[0];
    assert IsDigest(zeros) && IsDigest(ones);
  }

  /** That condition is exact: without it there is a hash under which the receiver rejects. */
  lemma VerifiesExactlyWhenStable(root: string, script: string, fields: OrdMap, secret: string, salt: string)
    requires IsName(root) && WellFormed(fields.pairs) && !HasKey(fields.pairs, "pg_sig")
    ensures AlwaysVerifies(root, script, fields, secret, salt)
       <==> LegalPairs(Salted(fields, salt).pairs) && AllStable(CollectValues(Map(Salted(fields, salt))))
  {
    var salted := Salted(fields, salt);
    SaltedParts(fields, salt);
    TextsAgree(script, salted, secret);
    var split := SeparatingHash(SignedText(script, salted, secret));
    AcceptsComparesTexts(split, root, script, fields, secret, salt);
    if LegalPairs(salted.pairs) && AllStable(CollectValues(Map(salted))) {
      forall md5: Hash | IsHash(md5)
        ensures Accepts(md5, script, RenderResponse(root, SignedFields(md5, script, fields, secret, salt)), secret)
      {
        SignedResponseVerifies(md5, root, script, fields, secret, salt);
      }
    }
  }
}
