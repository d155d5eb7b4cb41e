/** The last part of the XML endpoint: scenario edits, signing, and the passes over the printed body. */
module ScenarioReplies {
  import opened Text
  import opened Decimal
  import opened OrdMaps
  import opened Signature
  import opened Xml
  import opened XmlParser
  import opened SignedValues
  import opened SignedResponse
  import opened TagSurgery
  import Canonical

  /** The scenario actions that edit a reply, with their parameter looked up. */
  datatype Action =
    | ForceStatus(status: string)
    | OverrideAmount(amount: string)    // partial_amount and wrong_amount
    | WrongPaymentID(id: string)
    | MissingField(field: string)
    | ExtraGarbage(count: int)
    | InvalidSignature
    | NoEdit

  // ------------------------------------------------------- edits of the fields

  const TERMINAL_FIELDS: seq<string> :=
    ["pg_order_id", "pg_auth_code", "pg_reference", "pg_card_pan", "pg_card_token", "pg_captured", "pg_payment_date"]

  function DeleteAll(ps: seq<Pair>, keys: seq<string>): seq<Pair>
    decreases |keys|
  {
    if keys == [] then ps else DeleteAll(DeleteKey(ps, keys[0]), keys[1..])
  }

  function StripTerminal(ps: seq<Pair>, status: string): seq<Pair> {
    if status == "waiting" || status == "process" || status == "new" then
      DeleteAll(SetKey(ps, "pg_payment_method", Str("none")), TERMINAL_FIELDS)
    else ps
  }

  function AddGarbage(ps: seq<Pair>, i: nat, n: int): seq<Pair>
    decreases n - i
  {
    if i >= n then ps
    else AddGarbage(SetKey(ps, "pg_garbage_" + FormatUint(i), Str("noise-" + FormatUint(i))), i + 1, n)
  }

  /** `applyScenarioAfter`. */
  function AfterScenario(a: Action, ps: seq<Pair>): seq<Pair> {
    match a
    case ForceStatus(v) => if v == "" then ps else StripTerminal(SetKey(ps, "pg_payment_status", Str(v)), v)
    case OverrideAmount(v) =>
      if v == "" then ps else SetKey(SetKey(ps, "pg_amount", Str(v)), "pg_clearing_amount", Str(v))
    case WrongPaymentID(v) => SetKey(ps, "pg_payment_id", Str(v))
    case MissingField(f) => if f == "" then ps else DeleteKey(ps, f)
    case ExtraGarbage(n) => AddGarbage(ps, 0, n)
    case InvalidSignature => ps
    case NoEdit => ps
  }

  method StripTerminalFieldsIfNonTerminal(fields: Fields, status: string)
    modifies fields
    ensures fields.pairs == StripTerminal(old(fields.pairs), status)
  {
    if status == "waiting" || status == "process" || status == "new" {
      fields.Set("pg_payment_method", Str("none"));
      ghost var set0 := fields.pairs;
      for i := 0 to |TERMINAL_FIELDS|
        invariant DeleteAll(set0, TERMINAL_FIELDS) == DeleteAll(fields.pairs, TERMINAL_FIELDS[i..])
      {
        assert TERMINAL_FIELDS[i..][1..] == TERMINAL_FIELDS[i + 1..];
        fields.Delete(TERMINAL_FIELDS[i]);
      }
    }
  }

  method ApplyScenarioAfter(a: Action, fields: Fields)
    modifies fields
    ensures fields.pairs == AfterScenario(a, old(fields.pairs))
  {
    match a {
      case ForceStatus(v) =>
        if v != "" {
          fields.Set("pg_payment_status", Str(v));
          StripTerminalFieldsIfNonTerminal(fields, v);
        }
      case OverrideAmount(v) =>
        if v != "" {
          fields.Set("pg_amount", Str(v));
          fields.Set("pg_clearing_amount", Str(v));
        }
      case WrongPaymentID(v) => fields.Set("pg_payment_id", Str(v));
      case MissingField(f) => if f != "" { fields.Delete(f); }
      case ExtraGarbage(n) =>
        var i := 0;
        while i < n
          invariant 0 <= i
          invariant AddGarbage(old(fields.pairs), 0, n) == AddGarbage(fields.pairs, i, n)
        {
          fields.Set("pg_garbage_" + FormatUint(i), Str("noise-" + FormatUint(i)));
          i := i + 1;
        }
      case InvalidSignature =>
      case NoEdit =>
    }
  }

  // ------------------------------------------------------- passes over the body

  /** 32 zeros. */
  const ZERO_DIGEST := Zeros(32)

  function Signed(md5: Hash, root: string, script: string, ps: seq<Pair>, secret: string, salt: string): string {
    RenderResponse(root, SignedFields(md5, script, OrdMap(ps), secret, salt))
  }

  function PostPass(a: Action, body: string): string {
    match a
    case InvalidSignature => ReplaceTagValue(body, "pg_sig", ZERO_DIGEST)
    case MissingField(f) => if f == "" then body else RemoveTag(body, f)
    case _ => body
  }

  function FinalBody(md5: Hash, root: string, script: string, a: Action, ps: seq<Pair>, secret: string,
                     salt: string): string
  {
    PostPass(a, Signed(md5, root, script, AfterScenario(a, ps), secret, salt))
  }

  /** `xmlEndpoint` from the handler's result to the body that is sent. */
  method Reply(md5: Hash, root: string, script: string, a: Action, handled: seq<Pair>, secret: string, salt: string)
    returns (body: string)
    ensures body == FinalBody(md5, root, script, a, handled, secret, salt)
  {
    var fields := new Fields(handled);
    ApplyScenarioAfter(a, fields);
    body := SignedXml(md5, root, script, OrdMap(fields.pairs), secret, salt);
    if a == InvalidSignature {
      body := ReplaceTagValue(body, "pg_sig", ZERO_DIGEST);
    }
    if a.MissingField? && a.field != "" {
      body := RemoveTag(body, a.field);
    }
  }

  // --------------------------------------------- the edits keep replies printable

  /** What a handler returns: printable fields, not yet signed. */
  ghost predicate Unsigned(ps: seq<Pair>) {
    WellFormed(ps) && !HasKey(ps, "pg_sig")
  }

  lemma UnsignedAfterSet(ps: seq<Pair>, k: string, s: string)
    requires Unsigned(ps) && IsName(k) && k != "pg_sig"
    ensures Unsigned(SetKey(ps, k, Str(s)))
  {
    WellFormedAfterSet(ps, k, s);
    GetAfterSet(ps, k, Str(s), "pg_sig");
  }

  lemma {:induction false} DeleteElements(ps: seq<Pair>, k: string)
    ensures var r := DeleteKey(ps, k); forall i :: 0 <= i < |r| ==> r[i] in ps
  {
    if ps != [] && ps[0].key != k {
      DeleteElements(ps[1..], k);
      var r := DeleteKey(ps, k);
      forall i | 0 < i < |r| ensures r[i] in ps { assert r[i] == DeleteKey(ps[1..], k)[i - 1]; }
    }
  }

  lemma UnsignedAfterDelete(ps: seq<Pair>, k: string)
    requires Unsigned(ps)
    ensures Unsigned(DeleteKey(ps, k)) && !HasKey(DeleteKey(ps, k), k)
  {
    DeleteElements(ps, k);
    GetAfterDelete(ps, k, "pg_sig");
    GetAfterDelete(ps, k, k);
  }

  lemma {:induction false} UnsignedAfterDeleteAll(ps: seq<Pair>, keys: seq<string>)
    requires Unsigned(ps)
    ensures Unsigned(DeleteAll(ps, keys))
    decreases |keys|
  {
    if keys != [] {
      UnsignedAfterDelete(ps, keys[0]);
      UnsignedAfterDeleteAll(DeleteKey(ps, keys[0]), keys[1..]);
    }
  }

  lemma GarbageName(i: nat)
    ensures IsName("pg_garbage_" + FormatUint(i)) && "pg_garbage_" + FormatUint(i) != "pg_sig"
  {
    var k := "pg_garbage_" + FormatUint(i);
    assert forall c :: c in FormatUint(i) ==> IsDigit(c);
    assert k[3] == 'g' && "pg_sig"[3] == 's';
  }

  lemma {:induction false} UnsignedAfterGarbage(ps: seq<Pair>, i: nat, n: int)
    requires Unsigned(ps)
    ensures Unsigned(AddGarbage(ps, i, n))
    decreases n - i
  {
    if i < n {
      var k, s := "pg_garbage_" + FormatUint(i), "noise-" + FormatUint(i);
      GarbageName(i);
      UnsignedAfterSet(ps, k, s);
      UnsignedAfterGarbage(SetKey(ps, k, Str(s)), i + 1, n);
    }
  }

  lemma EditedNames()
    ensures IsName("pg_payment_status") && IsName("pg_payment_method") && IsName("pg_payment_id")
    ensures IsName("pg_amount") && IsName("pg_clearing_amount")
  {
  }

  lemma StripKeepsUnsigned(ps: seq<Pair>, status: string)
    requires Unsigned(ps)
    ensures Unsigned(StripTerminal(ps, status))
  {
    EditedNames();
    hide Unsigned, IsName, DeleteAll, SetKey;
    UnsignedAfterSet(ps, "pg_payment_method", "none");
    UnsignedAfterDeleteAll(SetKey(ps, "pg_payment_method", Str("none")), TERMINAL_FIELDS);
  }

  /** Every edit turns a printable unsigned reply into one. */
  lemma ScenarioKeepsUnsigned(a: Action, ps: seq<Pair>)
    requires Unsigned(ps)
    ensures Unsigned(AfterScenario(a, ps))
  {
    EditedNames();
    hide Unsigned, IsName, DeleteAll, StripTerminal, AddGarbage, SetKey, DeleteKey;
    match a
    case ForceStatus(v) =>
      if v != "" {
        UnsignedAfterSet(ps, "pg_payment_status", v);
        StripKeepsUnsigned(SetKey(ps, "pg_payment_status", Str(v)), v);
      }
    case OverrideAmount(v) =>
      if v != "" {
        UnsignedAfterSet(ps, "pg_amount", v);
        UnsignedAfterSet(SetKey(ps, "pg_amount", Str(v)), "pg_clearing_amount", v);
      }
    case WrongPaymentID(v) => UnsignedAfterSet(ps, "pg_payment_id", v);
    case MissingField(f) => UnsignedAfterDelete(ps, f);
    case ExtraGarbage(n) => UnsignedAfterGarbage(ps, 0, n);
    case InvalidSignature =>
    case NoEdit =>
  }

  ghost predicate LeavesSurvive(ps: seq<Pair>, salt: string) {
    LegalPairs(Salted(OrdMap(ps), salt).pairs) && AllStable(CollectValues(Map(Salted(OrdMap(ps), salt))))
  }

  /** A scenario that only edits fields leaves a reply that still verifies, exactly as for any other reply. */
  lemma {:induction false} EditedReplyVerifies(root: string, script: string, a: Action, ps: seq<Pair>, secret: string,
                                               salt: string)
    requires IsName(root) && Unsigned(ps) && !a.MissingField? && a != InvalidSignature
    ensures (forall md5: Hash :: IsHash(md5) ==>
               Accepts(md5, script, FinalBody(md5, root, script, a, ps, secret, salt), secret))
       <==> LeavesSurvive(AfterScenario(a, ps), salt)
  {
    ScenarioKeepsUnsigned(a, ps);
    VerifiesExactlyWhenStable(root, script, OrdMap(AfterScenario(a, ps)), secret, salt);
  }

  // ------------------------------------------------------- the replaced signature

  lemma TagFreeAfterSet(ps: seq<Pair>, j: string, s: string, k: string)
    requires TagFree(ps, k) && j != k
    ensures TagFree(SetKey(ps, j, Str(s)), k)
  {
    SetElements(ps, j, Str(s));
  }

  lemma ZeroDigestIsPlain()
    ensures Escape(ZERO_DIGEST) == ZERO_DIGEST && IsDigest(ZERO_DIGEST)
  {
    EscapeNothing(ZERO_DIGEST);
  }

  lemma {:induction false} EscapeNothing(s: string)
    requires forall c :: c in s ==> EscapeChar(c) == [c]
    ensures Escape(s) == s
  {
    if s != "" { assert s == [s[0]] + s[1..]; EscapeNothing(s[1..]); }
  }

  lemma TagFreeLacksKey(ps: seq<Pair>, k: string, root: string)
    requires Unsigned(ps) && TagFree(ps, "pg_sig") && IsName(root) && root != "pg_sig"
    ensures FirstAndAlone(root, ps, "pg_sig", Str(k))
  {
    FieldNames();
  }

  lemma ReplacedLast(root: string, ps: seq<Pair>, k: string, u: string, w: string)
    requires FirstAndAlone(root, ps, k, Str(u)) && Escape(w) == w
    ensures ReplaceTagValue(RenderResponse(root, OrdMap(SetKey(ps, k, Str(u)))), k, w)
         == RenderResponse(root, OrdMap(SetKey(ps, k, Str(w))))
  {
    ReplaceTagIsSet(root, ps, k, Str(u), [], w);
    EditAt(ps, k, Str(u), Str(w), []);
    SetAppends(ps, k, Str(u));
    SetAppends(ps, k, Str(w));
    NothingAfter(ps, Pair(k, Str(u)));
    NothingAfter(ps, Pair(k, Str(w)));
  }

  lemma ForgedBody(md5: Hash, root: string, script: string, ps: seq<Pair>, secret: string, salt: string)
    requires IsName(root) && root != "pg_sig" && Unsigned(ps) && TagFree(ps, "pg_sig")
    ensures FinalBody(md5, root, script, InvalidSignature, ps, secret, salt)
         == RenderResponse(root, OrdMap(SetKey(Salted(OrdMap(ps), salt).pairs, "pg_sig", Str(ZERO_DIGEST))))
  {
    hide ReplaceTagValue;
    hide RenderResponse;
    hide Escape;
    var salted := Salted(OrdMap(ps), salt);
    var sig := Sign(md5, script, salted, secret);
    FieldNames();
    ZeroDigestIsPlain();
    UnsignedAfterSet(ps, "pg_salt", salt);
    TagFreeAfterSet(ps, "pg_salt", salt, "pg_sig");
    TagFreeLacksKey(salted.pairs, sig, root);
    ReplacedLast(root, salted.pairs, "pg_sig", sig, ZERO_DIGEST);
  }

  /** The replaced signature is rejected, unless the true digest happens to be all zeros. */
  lemma ForgedReplyIsRejected(md5: Hash, root: string, script: string, ps: seq<Pair>, secret: string, salt: string)
    requires IsHash(md5) && IsName(root) && root != "pg_sig"
    requires Unsigned(ps) && TagFree(ps, "pg_sig") && LeavesSurvive(ps, salt)
    ensures Accepts(md5, script, FinalBody(md5, root, script, InvalidSignature, ps, secret, salt), secret)
       <==> md5(SignedText(script, Salted(OrdMap(ps), salt), secret)) == ZERO_DIGEST
  {
    var salted := Salted(OrdMap(ps), salt);
    ForgedBody(md5, root, script, ps, secret, salt);
    ZeroDigestIsPlain();
    UnsignedAfterSet(ps, "pg_salt", salt) by { FieldNames(); }
    ReceivedWith(md5, root, script, salted, secret, ZERO_DIGEST);
  }

  lemma NothingAfter(ps: seq<Pair>, p: Pair)
    ensures ps + [p] + [] == ps + [p]
  {
  }

  /** What a receiver does with fields that carry some digest as their signature. */
  lemma ReceivedWith(md5: Hash, root: string, script: string, m: OrdMap, secret: string, sig: string)
    requires IsName(root) && Unsigned(m.pairs) && IsDigest(sig) && LegalPairs(m.pairs)
    ensures Accepts(md5, script, RenderResponse(root, OrdMap(SetKey(m.pairs, "pg_sig", Str(sig)))), secret)
       <==> md5(SignedText(script, OrdMap(NormPairs(m.pairs)), secret)) == sig
    ensures AllStable(CollectValues(Map(m))) ==>
              SignedText(script, OrdMap(NormPairs(m.pairs)), secret) == SignedText(script, m, secret)
  {
    FieldNames();
    DigestIsStable(sig);
    ParseSigned(root, m.pairs, "pg_sig", sig);
    VerifyParsed(md5, script, NormPairs(m.pairs), secret, sig);
    AcceptsParsed(md5, script, RenderResponse(root, OrdMap(SetKey(m.pairs, "pg_sig", Str(sig)))), secret);
    TextsAgree(script, m, secret);
  }

  // ------------------------------------------------------- the missing field

  /** Removing a field that is neither nested nor added by signing: no such tag is left, and the body is
      what signing the other fields gives, so it verifies as any reply does. */
  lemma MissingFieldIsGone(md5: Hash, root: string, script: string, f: string, ps: seq<Pair>, secret: string,
                           salt: string)
    requires IsName(root) && IsName(f) && f != root && f != "pg_salt" && f != "pg_sig"
    requires Unsigned(ps) && TagFree(DeleteKey(ps, f), f)
    ensures var body := FinalBody(md5, root, script, MissingField(f), ps, secret, salt);
            && Index(body, OpenTag(f)) == -1
            && body == Signed(md5, root, script, DeleteKey(ps, f), secret, salt)
  {
    var rest := DeleteKey(ps, f);
    var salted := Salted(OrdMap(rest), salt);
    var sig := Sign(md5, script, salted, secret);
    FieldNames();
    UnsignedAfterDelete(ps, f);
    UnsignedAfterSet(rest, "pg_salt", salt);
    WellFormedAfterSet(salted.pairs, "pg_sig", sig);
    TagFreeAfterSet(rest, "pg_salt", salt, f);
    TagFreeAfterSet(salted.pairs, "pg_sig", sig, f);
    TagNotFound(root, SignedFields(md5, script, OrdMap(rest), secret, salt), f);
  }

  /** Without its signature a reply is rejected under every hash. */
  lemma MissingSignatureIsRejected(md5: Hash, root: string, script: string, ps: seq<Pair>, secret: string, salt: string)
    requires IsHash(md5) && IsName(root) && root != "pg_sig" && Unsigned(ps) && TagFree(ps, "pg_sig")
    ensures !Accepts(md5, script, FinalBody(md5, root, script, MissingField("pg_sig"), ps, secret, salt), secret)
  {
    var salted := Salted(OrdMap(ps), salt);
    var sig := Sign(md5, script, salted, secret);
    FieldNames();
    DeleteIsWithout(ps, "pg_sig");
    UnsignedAfterSet(ps, "pg_salt", salt);
    TagFreeAfterSet(ps, "pg_salt", salt, "pg_sig");
    TagFreeLacksKey(salted.pairs, sig, root);
    RemoveTagIsDelete(root, salted.pairs, "pg_sig", Str(sig), []);
    EditAt(salted.pairs, "pg_sig", Str(sig), Str(sig), []);
    SetAppends(salted.pairs, "pg_sig", Str(sig));
    NothingAfter(salted.pairs, Pair("pg_sig", Str(sig)));
    assert salted.pairs + [] == salted.pairs;
    UnsignedReply(md5, root, script, salted, secret);
  }

  lemma UnsignedReply(md5: Hash, root: string, script: string, m: OrdMap, secret: string)
    requires IsHash(md5) && IsName(root) && Unsigned(m.pairs)
    ensures !Accepts(md5, script, RenderResponse(root, m), secret)
  {
    ParsePrinted(root, m);
    NormKeepsKeysUnique(m.pairs, "pg_sig");
    assert IsDigest(md5(SignedText(script, OrdMap(WithoutKey(NormPairs(m.pairs), "pg_sig")), secret)));
  }

  /**
   * Without its salt the receiver hashes another, shorter text than was signed: under every hash the reply is
   * accepted only if its leaves are legal and the hash collides on the two.
   */
  lemma MissingSaltIsRejected(md5: Hash, root: string, script: string, ps: seq<Pair>, secret: string, salt: string)
    requires IsHash(md5) && IsName(root) && root != "pg_salt" && Unsigned(ps) && IsSalt(salt)
    requires TagFree(DeleteKey(ps, "pg_salt"), "pg_salt")
    ensures var rest := DeleteKey(ps, "pg_salt");
            var received := SignedText(script, OrdMap(NormPairs(rest)), secret);
            var signed := SignedText(script, Salted(OrdMap(rest), salt), secret);
            && |received| < |signed|
            && (Accepts(md5, script, FinalBody(md5, root, script, MissingField("pg_salt"), ps, secret, salt), secret)
                <==> LegalPairs(rest) && md5(received) == md5(signed))
  {
    var rest := DeleteKey(ps, "pg_salt");
    var sig := Sign(md5, script, Salted(OrdMap(rest), salt), secret);
    UnsignedAfterDelete(ps, "pg_salt");
    SaltLengthensText(script, rest, secret, salt);
    SaltlessBody(md5, root, script, ps, secret, salt);
    hide FinalBody, Salted, SignedText, DeleteKey, Accepts, RenderResponse, LegalPairs, TagFree, SetKey;
    if LegalPairs(rest) {
      ReceivedWith(md5, root, script, OrdMap(rest), secret, sig);
    } else {
      IllegalIsRejected(md5, root, script, rest, secret, sig);
    }
  }

  lemma IllegalIsRejected(md5: Hash, root: string, script: string, rest: seq<Pair>, secret: string, sig: string)
    requires IsName(root) && Unsigned(rest) && IsDigest(sig) && !LegalPairs(rest)
    ensures !Accepts(md5, script, RenderResponse(root, OrdMap(SetKey(rest, "pg_sig", Str(sig)))), secret)
  {
    FieldNames();
    DigestIsStable(sig);
    ParseSigned(root, rest, "pg_sig", sig);
  }

  /** What is sent once the salt has been cut out: the other fields under a signature that was made with it. */
  lemma SaltlessBody(md5: Hash, root: string, script: string, ps: seq<Pair>, secret: string, salt: string)
    requires IsHash(md5) && IsName(root) && root != "pg_salt" && Unsigned(ps)
    requires TagFree(DeleteKey(ps, "pg_salt"), "pg_salt")
    ensures var rest := DeleteKey(ps, "pg_salt");
            var sig := Sign(md5, script, Salted(OrdMap(rest), salt), secret);
            && FinalBody(md5, root, script, MissingField("pg_salt"), ps, secret, salt)
               == RenderResponse(root, OrdMap(SetKey(rest, "pg_sig", Str(sig))))
            && IsDigest(sig)
  {
    var rest := DeleteKey(ps, "pg_salt");
    var salted := Salted(OrdMap(rest), salt);
    var sig := Sign(md5, script, salted, secret);
    FieldNames();
    UnsignedAfterDelete(ps, "pg_salt");
    UnsignedAfterSet(rest, "pg_salt", salt);
    SetAppends(rest, "pg_salt", Str(salt));
    SetAppends(salted.pairs, "pg_sig", Str(sig));
    RemoveTagIsDelete(root, rest, "pg_salt", Str(salt), [Pair("pg_sig", Str(sig))]);
    EditAt(rest, "pg_salt", Str(salt), Str(salt), [Pair("pg_sig", Str(sig))]);
    SetAppends(rest, "pg_sig", Str(sig));
  }

  function TotalLength(es: seq<Entry>): nat {
    if es == [] then 0 else |Cat(es[0].vals)| + TotalLength(es[1..])
  }

  lemma {:induction false} FlatLength(es: seq<Entry>)
    ensures |Cat(Flat(es))| == TotalLength(es)
  {
    if es != [] {
      FlatLength(es[1..]);
      CatAppend(es[0].vals, Flat(es[1..]));
    }
  }

  lemma {:induction false} InsertLength(e: Entry, es: seq<Entry>)
    ensures TotalLength(InsertEntry(e, es)) == |Cat(e.vals)| + TotalLength(es)
  {
    if es != [] {
      if Leq(e.key, es[0].key) {
        assert ([e] + es)[1..] == es;
      } else {
        InsertLength(e, es[1..]);
        assert InsertEntry(e, es)[1..] == InsertEntry(e, es[1..]);
      }
    }
  }

  lemma {:induction false} SortLength(es: seq<Entry>)
    ensures TotalLength(SortEntries(es)) == TotalLength(es)
  {
    if es != [] {
      SortLength(es[1..]);
      InsertLength(es[0], SortEntries(es[1..]));
    }
  }

  lemma {:induction false} AppendedLength(ps: seq<Pair>, k: string, s: string)
    requires s != ""
    ensures TotalLength(Entries(ps + [Pair(k, Str(s))])) == TotalLength(Entries(ps)) + |s| + 1
  {
    var qs := ps + [Pair(k, Str(s))];
    if ps == [] {
      assert qs[1..] == [];
      assert Entries(qs) == [Entry(k, [s])] + Entries(qs[1..]);
      assert [s][1..] == [];
      assert Cat([s]) == s + ";" + Cat([s][1..]);
      assert TotalLength(Entries(qs)[1..]) == 0;
    } else {
      assert qs[1..] == ps[1..] + [Pair(k, Str(s))];
      AppendedLength(ps[1..], k, s);
      assert Entries(qs)[1..] == Entries(qs[1..]) && Entries(ps)[1..] == Entries(ps[1..]);
    }
  }

  lemma SignedLength(ps: seq<Pair>)
    requires UniqueKeys(ps)
    ensures |Cat(CollectValues(Map(OrdMap(ps))))| == TotalLength(Entries(ps))
  {
    CollectIsSortedFlat(ps);
    FlatLength(SortEntries(Entries(ps)));
    SortLength(Entries(ps));
  }

  lemma SaltLengthensText(script: string, ps: seq<Pair>, secret: string, salt: string)
    requires WellFormed(ps) && !HasKey(ps, "pg_salt") && salt != ""
    ensures |SignedText(script, OrdMap(NormPairs(ps)), secret)| < |SignedText(script, Salted(OrdMap(ps), salt), secret)|
  {
    SetAppends(ps, "pg_salt", Str(salt));
    GetAfterSet(ps, "pg_salt", Str(salt), "pg_salt");
    AppendedLength(ps, "pg_salt", salt);
    SignedLength(ps);
    SignedLength(ps + [Pair("pg_salt", Str(salt))]);
    ValuesSurviveWire(ps);
    NoEmptyValue(Map(OrdMap(ps)));
    CatStable(CollectValues(Map(OrdMap(ps))));
    SignedTextIsCat(script, OrdMap(NormPairs(ps)), secret);
    SignedTextIsCat(script, Salted(OrdMap(ps), salt), secret);
  }

  // ------------------------------------------- the reply to an invalid signature

  function FailureFields(code: string, description: string): seq<Pair> {
    var f0 := SetKey([], "pg_status", Str("error"));
    var f1 := if code != "" then SetKey(f0, "pg_error_code", Str(code)) else f0;
    if description != "" then SetKey(f1, "pg_error_description", Str(description)) else f1
  }

  /** `respondFailure`. */
  method RespondFailure(md5: Hash, script: string, secret: string, code: string, description: string, salt: string)
    returns (body: string)
    ensures body == Signed(md5, "response", script, FailureFields(code, description), secret, salt)
  {
    var fields := new Fields([]);
    fields.Set("pg_status", Str("error"));
    if code != "" { fields.Set("pg_error_code", Str(code)); }
    if description != "" { fields.Set("pg_error_description", Str(description)); }
    body := SignedXml(md5, "response", script, OrdMap(fields.pairs), secret, salt);
  }

  ghost predicate FlatStable(ps: seq<Pair>) {
    forall i :: 0 <= i < |ps| ==> ps[i].value.Str? && Wire(ps[i].value.s) == ps[i].value.s
  }

  lemma FlatStableValues(ps: seq<Pair>, x: string)
    requires UniqueKeys(ps) && FlatStable(ps) && x in CollectValues(Map(OrdMap(ps)))
    ensures Wire(x) == x
  {
    hide Wire;
    KeysAreKeys(ps);
    CollectMembers(ps, SortedKeys(ps), x);
    var k :| k in SortedKeys(ps) && Contributes(ps, k, x);
    assert ps[Find(ps, k)].value.Str?;
  }

  lemma FlatFieldIsSigned(ps: seq<Pair>, i: nat)
    requires UniqueKeys(ps) && i < |ps| && ps[i].value.Str? && ps[i].value.s != ""
    ensures ps[i].value.s in CollectValues(Map(OrdMap(ps)))
  {
    KeysAreKeys(ps);
    UniquePosition(ps, i);
    KeysMembership(ps, ps[i].key);
    assert ps[i].key in multiset(SortedKeys(ps));
    assert Contributes(ps, ps[i].key, ps[i].value.s);
    CollectMembers(ps, SortedKeys(ps), ps[i].value.s);
  }

  /** For fields without nesting, every signed value is stable exactly when every field's text is. */
  lemma {:induction false} FlatValuesStable(ps: seq<Pair>)
    requires UniqueKeys(ps) && forall i :: 0 <= i < |ps| ==> ps[i].value.Str?
    ensures AllStable(CollectValues(Map(OrdMap(ps)))) <==> FlatStable(ps)
  {
    hide CollectValues, Wire;
    var vals := CollectValues(Map(OrdMap(ps)));
    if FlatStable(ps) {
      forall x | x in vals ensures Wire(x) == x { FlatStableValues(ps, x); }
    }
    if AllStable(vals) {
      forall i | 0 <= i < |ps| ensures Wire(ps[i].value.s) == ps[i].value.s {
        if ps[i].value.s != "" { FlatFieldIsSigned(ps, i); } else { EmptyIsStable(ps[i].value.s); }
      }
    }
  }

  lemma EmptyIsStable(s: string)
    requires s == ""
    ensures Wire(s) == s
  {
  }

  const GOT := "invalid signature: got "

  lemma PrefixStable(got: string, sig: string)
    requires |got| > 0 && !IsSpace(got[0]) && IsSpace(got[|got| - 1]) && LegalText(got) && '\r' !in got
    requires Wire(sig) == sig && LegalText(sig)
    ensures LegalText(got + sig)
    ensures Wire(got + sig) == got + sig <==> sig != ""
  {
    hide Wire;
    Canonical.WireFixes(sig);
    Canonical.WireFixes(got + sig);
    var d := got + sig;
    assert d[0] == got[0];
    assert d[|d| - 1] == if sig == "" then got[|got| - 1] else sig[|sig| - 1];
  }

  lemma GotShape()
    ensures |GOT| > 0 && !IsSpace(GOT[0]) && IsSpace(GOT[|GOT| - 1]) && LegalText(GOT) && '\r' !in GOT
  {
    assert GOT[0] == 'i' && GOT[|GOT| - 1] == ' ';
  }

  lemma FieldsDiffer()
    ensures "pg_status" != "pg_error_code" && "pg_status" != "pg_error_description"
    ensures "pg_error_code" != "pg_error_description"
    ensures "pg_status" != "pg_salt" && "pg_error_code" != "pg_salt" && "pg_error_description" != "pg_salt"
    ensures IsName("pg_status") && IsName("pg_error_code") && IsName("pg_error_description") && IsName("response")
  {
    assert |"pg_error_code"| != |"pg_error_description"| && |"pg_status"| != |"pg_error_description"|;
    assert |"pg_salt"| != |"pg_error_description"| && |"pg_salt"| != |"pg_status"|;
  }

  lemma AppendThird(a: Pair, b: Pair, k: string, v: Value)
    requires a.key != k && b.key != k
    ensures SetKey([a, b], k, v) == [a, b, Pair(k, v)]
  {
    assert [a, b][1..] == [b] && [b][1..] == [];
    assert !HasKey([b], k);
    SetAppends([a, b], k, v);
    assert [a, b] + [Pair(k, v)] == [a, b, Pair(k, v)];
  }

  lemma AppendFourth(a: Pair, b: Pair, c: Pair, k: string, v: Value)
    requires a.key != k && b.key != k && c.key != k
    ensures SetKey([a, b, c], k, v) == [a, b, c, Pair(k, v)]
  {
    assert [a, b, c][1..] == [b, c] && [b, c][1..] == [c] && [c][1..] == [];
    assert !HasKey([c], k) && !HasKey([b, c], k);
    SetAppends([a, b, c], k, v);
    assert [a, b, c] + [Pair(k, v)] == [a, b, c, Pair(k, v)];
  }

  lemma FailureShape(desc: string, salt: string)
    requires desc != ""
    ensures Salted(OrdMap(FailureFields("2000", desc)), salt).pairs
         == [Pair("pg_status", Str("error")), Pair("pg_error_code", Str("2000")),
             Pair("pg_error_description", Str(desc)), Pair("pg_salt", Str(salt))]
    ensures Unsigned(FailureFields("2000", desc))
  {
    var p0, p1 := Pair("pg_status", Str("error")), Pair("pg_error_code", Str("2000"));
    var p2 := Pair("pg_error_description", Str(desc));
    FieldsDiffer();
    SetAppends([p0], "pg_error_code", Str("2000"));
    assert [p0] + [p1] == [p0, p1];
    AppendThird(p0, p1, "pg_error_description", Str(desc));
    AppendFourth(p0, p1, p2, "pg_salt", Str(salt));
    UnsignedAfterSet([], "pg_status", "error");
    UnsignedAfterSet([p0], "pg_error_code", "2000");
    UnsignedAfterSet([p0, p1], "pg_error_description", desc);
  }

  lemma FixedTextStable(s: string)
    requires s == "error" || s == "2000"
    ensures Wire(s) == s && LegalText(s)
  {
    hide Wire;
    assert Trimmed(s) && '\r' !in s;
    Canonical.WireFixes(s);
  }

  lemma SaltStable(salt: string)
    requires IsSalt(salt)
    ensures Wire(salt) == salt && LegalText(salt)
  {
    hide Wire;
    assert salt[0] in salt && salt[|salt| - 1] in salt;
    assert Trimmed(salt) && '\r' !in salt;
    Canonical.WireFixes(salt);
  }

  lemma FourFieldsStable(ps: seq<Pair>, desc: string, salt: string)
    requires |ps| == 4 && ps[2].value == Str(desc) && ps[3].value == Str(salt) && IsSalt(salt) && LegalText(desc)
    requires ps[0].value == Str("error") && ps[1].value == Str("2000")
    ensures FlatStable(ps) <==> Wire(desc) == desc
    ensures LegalPairs(ps)
  {
    hide Wire;
    FixedTextStable(ps[0].value.s);
    FixedTextStable(ps[1].value.s);
    SaltStable(salt);
  }

  /** The reply to a request whose signature is wrong verifies exactly when that request carried a signature at
      all: without one the description ends in a space, which the wire cuts off. The signature received is a
      parsed leaf, so it is stable and legal itself. */
  lemma InvalidSignatureReply(script: string, secret: string, salt: string, sig: string)
    requires IsSalt(salt) && Wire(sig) == sig && LegalText(sig)
    ensures AlwaysVerifies("response", script, OrdMap(FailureFields("2000", GOT + sig)), secret, salt) <==> sig != ""
  {
    hide Wire;
    var desc := GOT + sig;
    var fields := OrdMap(FailureFields("2000", desc));
    var salted := Salted(fields, salt).pairs;
    GotShape();
    PrefixStable(GOT, sig);
    FailureShape(desc, salt);
    FieldsDiffer();
    FourFieldsStable(salted, desc, salt);
    UnsignedAfterSet(fields.pairs, "pg_salt", salt);
    FlatValuesStable(salted);
    VerifiesExactlyWhenStable("response", script, fields, secret, salt);
  }
}
