/** What a reply shows after a scenario has edited it, and what stays as it was. */
module ReplyEdits {
  import opened Text
  import opened Decimal
  import opened OrdMaps
  import opened ScenarioReplies

  /** The statuses of a payment that is not settled, and the fields that such a reply cannot have. */
  predicate Unsettled(status: string) { status in {"waiting", "process", "new"} }

  predicate OnlySettled(k: string) {
    k in {"pg_order_id", "pg_auth_code", "pg_reference", "pg_card_pan", "pg_card_token", "pg_captured",
          "pg_payment_date"}
  }

  function Noise(i: nat): string { "pg_garbage_" + FormatUint(i) }

  /** What field `k` shows after the edit. */
  ghost function Edited(a: Action, ps: seq<Pair>, k: string): Option<Value> {
    match a
    case ForceStatus(v) =>
      if v == "" then Get(ps, k)
      else if Unsettled(v) && OnlySettled(k) then None
      else if Unsettled(v) && k == "pg_payment_method" then Some(Str("none"))
      else if k == "pg_payment_status" then Some(Str(v))
      else Get(ps, k)
    case OverrideAmount(v) =>
      if v != "" && (k == "pg_amount" || k == "pg_clearing_amount") then Some(Str(v)) else Get(ps, k)
    case WrongPaymentID(v) => if k == "pg_payment_id" then Some(Str(v)) else Get(ps, k)
    case MissingField(f) => if f != "" && k == f then None else Get(ps, k)
    case ExtraGarbage(n) =>
      if i: nat :| i < n && k == Noise(i) then Some(Str("noise-" + FormatUint(i))) else Get(ps, k)
    case _ => Get(ps, k)
  }

  lemma {:induction false} DeletesRead(ps: seq<Pair>, keys: seq<string>, k: string)
    requires UniqueKeys(ps)
    ensures UniqueKeys(DeleteAll(ps, keys))
    ensures Get(DeleteAll(ps, keys), k) == if k in keys then None else Get(ps, k)
    decreases |keys|
  {
    if keys != [] {
      hide Get, UniqueKeys, DeleteKey;
      GetAfterDelete(ps, keys[0], k);
      DeletesRead(DeleteKey(ps, keys[0]), keys[1..], k);
      assert keys == [keys[0]] + keys[1..];
    }
  }

  lemma TerminalFieldsAre(k: string)
    ensures k in TERMINAL_FIELDS <==> OnlySettled(k)
  {
  }

  lemma NoiseDiffers(i: nat, j: nat)
    ensures Noise(i) == Noise(j) ==> i == j
  {
    ValueOfFormat(i);
    ValueOfFormat(j);
    assert Noise(i)[11..] == FormatUint(i) && Noise(j)[11..] == FormatUint(j);
  }

  lemma {:induction false} GarbageReads(ps: seq<Pair>, from: nat, n: int, k: string)
    requires UniqueKeys(ps)
    ensures UniqueKeys(AddGarbage(ps, from, n))
    ensures forall i :: from <= i < n && k == Noise(i) ==>
              Get(AddGarbage(ps, from, n), k) == Some(Str("noise-" + FormatUint(i)))
    ensures (forall i :: from <= i < n ==> k != Noise(i)) ==> Get(AddGarbage(ps, from, n), k) == Get(ps, k)
    decreases n - from
  {
    if from < n {
      var v := Str("noise-" + FormatUint(from));
      forall i: nat ensures Noise(i) == Noise(from) ==> i == from { NoiseDiffers(i, from); }
      hide Get, SetKey, UniqueKeys, FormatUint;
      assert AddGarbage(ps, from, n) == AddGarbage(SetKey(ps, Noise(from), v), from + 1, n);
      hide AddGarbage, Noise;
      GetAfterSet(ps, Noise(from), v, k);
      GarbageReads(SetKey(ps, Noise(from), v), from + 1, n, k);
    }
  }

  lemma StatusEditReads(ps: seq<Pair>, v: string, k: string)
    requires UniqueKeys(ps)
    ensures var out := AfterScenario(ForceStatus(v), ps);
            UniqueKeys(out) && Get(out, k) == Edited(ForceStatus(v), ps, k)
  {
    if v != "" {
      var set1 := SetKey(ps, "pg_payment_status", Str(v));
      hide Get, SetKey, UniqueKeys, DeleteAll, OnlySettled;
      GetAfterSet(ps, "pg_payment_status", Str(v), k);
      if Unsettled(v) {
        GetAfterSet(set1, "pg_payment_method", Str("none"), k);
        DeletesRead(SetKey(set1, "pg_payment_method", Str("none")), TERMINAL_FIELDS, k);
        TerminalFieldsAre(k);
        StatusIsNotMethod();
        hide TERMINAL_FIELDS;
      }
    }
  }

  lemma StatusIsNotMethod()
    ensures "pg_payment_status" != "pg_payment_method"
  {
    assert "pg_payment_status"[11] == 's' && "pg_payment_method"[11] == 'm';
  }

  /** Every edit shows exactly what it is for, and leaves every other field as it was. */
  lemma EditShows(a: Action, ps: seq<Pair>, k: string)
    requires UniqueKeys(ps)
    ensures UniqueKeys(AfterScenario(a, ps)) && Get(AfterScenario(a, ps), k) == Edited(a, ps, k)
  {
    hide Get, SetKey, UniqueKeys, DeleteKey, AddGarbage, Noise;
    match a
    case ForceStatus(v) => StatusEditReads(ps, v, k);
    case OverrideAmount(v) =>
      GetAfterSet(ps, "pg_amount", Str(v), k);
      GetAfterSet(SetKey(ps, "pg_amount", Str(v)), "pg_clearing_amount", Str(v), k);
    case WrongPaymentID(v) => GetAfterSet(ps, "pg_payment_id", Str(v), k);
    case MissingField(f) => GetAfterDelete(ps, f, k);
    case ExtraGarbage(n) =>
      GarbageReads(ps, 0, n, k);
      forall i: nat, j: nat ensures Noise(i) == Noise(j) ==> i == j { NoiseDiffers(i, j); }
    case _ =>
  }

  /** The error reply: always an error, with the code and the description unless they are empty. */
  lemma FailureShows(code: string, description: string)
    ensures var ps := FailureFields(code, description);
            && Get(ps, "pg_status") == Some(Str("error"))
            && Get(ps, "pg_error_code") == (if code != "" then Some(Str(code)) else None)
            && Get(ps, "pg_error_description") == (if description != "" then Some(Str(description)) else None)
  {
    FieldsDiffer();
    assert forall k :: Get([], k) == None;
    hide Get, SetKey;
    FailureReads(code, description, "pg_status");
    FailureReads(code, description, "pg_error_code");
    FailureReads(code, description, "pg_error_description");
  }

  lemma FailureReads(code: string, description: string, k: string)
    ensures Get(FailureFields(code, description), k)
         == if description != "" && k == "pg_error_description" then Some(Str(description))
            else if code != "" && k == "pg_error_code" then Some(Str(code))
            else if k == "pg_status" then Some(Str("error"))
            else None
  {
    assert Get([], k) == None;
    hide Get, SetKey;
    var f0 := SetKey([], "pg_status", Str("error"));
    var f1 := if code != "" then SetKey(f0, "pg_error_code", Str(code)) else f0;
    GetAfterSet([], "pg_status", Str("error"), k);
    GetAfterSet(f0, "pg_error_code", Str(code), k);
    GetAfterSet(f1, "pg_error_description", Str(description), k);
  }
}
