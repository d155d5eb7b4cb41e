/** A status answer read field by field, whatever order the fields were set in. */
module AnswerFields {
  import opened Text
  import opened Decimal
  import opened OrdMaps
  import opened Pay
  import opened StatusAnswers

  function TextOfValue(v: Option<Value>): Option<string> {
    match v
    case Some(Str(s)) => Some(s)
    case _ => None
  }

  function TextAt(ps: seq<Pair>, k: string): Option<string> { TextOfValue(Get(ps, k)) }

  lemma SetIfReads(ps: seq<Pair>, present: bool, key: string, value: string, k: string)
    ensures Get(SetIf(ps, present, key, value), k) == if present && k == key then Some(Str(value)) else Get(ps, k)
  {
    hide Get, SetKey;
    GetAfterSet(ps, key, Str(value), k);
  }

  // ------------------------------------------------------------ the last setter wins

  function HeadValue(r: Record, fmt: TimeFormat, k: string): Option<Value> {
    if r.captured > 0 && k == "pg_captured" then Some(Str("1"))
    else if r.authorizedAt.Some? && k == "pg_payment_date" then Some(Str(fmt(r.authorizedAt.value)))
    else if k == "pg_create_date" then Some(Str(fmt(r.createdAt)))
    else if k == "pg_clearing_amount" then Some(Str(FormatUint(r.captured)))
    else if k == "pg_amount" then Some(Str(FormatUint(r.amount)))
    else if k == "pg_payment_status" then Some(Str(PayToFreedomStatus(r.status)))
    else if k == "pg_currency" then Some(Str(r.currency))
    else if r.orderID != 0 && k == "pg_order_id" then Some(Str(FormatUint(r.orderID)))
    else if k == "pg_payment_method" then Some(Str("bankcard"))
    else if k == "pg_can_reject" then Some(Str("1"))
    else if k == "pg_payment_id" then Some(Str(FormatUint(r.paymentID)))
    else if k == "pg_status" then Some(Str("ok"))
    else None
  }

  lemma HeadReads(r: Record, fmt: TimeFormat, k: string)
    ensures Get(HeadFields(r, fmt), k) == HeadValue(r, fmt, k)
  {
    assert Get([], k) == None;
    hide Get, SetKey, SetIf, FormatUint, PayToFreedomStatus;
    GetAfterSet([], "pg_status", Str("ok"), k);
    var p1 := SetKey([], "pg_status", Str("ok"));
    GetAfterSet(p1, "pg_payment_id", Str(FormatUint(r.paymentID)), k);
    var p2 := SetKey(p1, "pg_payment_id", Str(FormatUint(r.paymentID)));
    GetAfterSet(p2, "pg_can_reject", Str("1"), k);
    var p3 := SetKey(p2, "pg_can_reject", Str("1"));
    GetAfterSet(p3, "pg_payment_method", Str("bankcard"), k);
    var p4 := SetKey(p3, "pg_payment_method", Str("bankcard"));
    SetIfReads(p4, r.orderID != 0, "pg_order_id", FormatUint(r.orderID), k);
    var p5 := SetIf(p4, r.orderID != 0, "pg_order_id", FormatUint(r.orderID));
    GetAfterSet(p5, "pg_currency", Str(r.currency), k);
    var p6 := SetKey(p5, "pg_currency", Str(r.currency));
    GetAfterSet(p6, "pg_payment_status", Str(PayToFreedomStatus(r.status)), k);
    var p7 := SetKey(p6, "pg_payment_status", Str(PayToFreedomStatus(r.status)));
    GetAfterSet(p7, "pg_amount", Str(FormatUint(r.amount)), k);
    var p8 := SetKey(p7, "pg_amount", Str(FormatUint(r.amount)));
    GetAfterSet(p8, "pg_clearing_amount", Str(FormatUint(r.captured)), k);
    var p9 := SetKey(p8, "pg_clearing_amount", Str(FormatUint(r.captured)));
    GetAfterSet(p9, "pg_create_date", Str(fmt(r.createdAt)), k);
    var p10 := SetKey(p9, "pg_create_date", Str(fmt(r.createdAt)));
    if r.authorizedAt.Some? {
      GetAfterSet(p10, "pg_payment_date", Str(fmt(r.authorizedAt.value)), k);
    }
    var p11 := if r.authorizedAt.Some? then SetKey(p10, "pg_payment_date", Str(fmt(r.authorizedAt.value))) else p10;
    SetIfReads(p11, r.captured > 0, "pg_captured", "1", k);
  }

  function TailValue(r: Record, k: string, before: Option<Value>): Option<Value> {
    var failed := r.status == Failed && r.lastError != "";
    if failed && k == "pg_failure_code" then Some(Str("100"))
    else if failed && k == "pg_failure_description" then Some(Str(r.lastError))
    else if k == "pg_testing_mode" then Some(Str("1"))
    else if r.userPhone != "" && k == "pg_user_phone" then Some(Str(r.userPhone))
    else if r.userEmail != "" && k == "pg_user_email" then Some(Str(r.userEmail))
    else if r.cardToken != "" && k == "pg_card_token" then Some(Str(r.cardToken))
    else if r.cardPAN != "" && k == "pg_card_pan" then Some(Str(r.cardPAN))
    else if r.reference != 0 && (k == "pg_auth_code" || k == "pg_reference") then Some(Str(FormatUint(r.reference)))
    else before
  }

  lemma TailReads(ps: seq<Pair>, r: Record, k: string)
    ensures Get(TailFields(ps, r), k) == TailValue(r, k, Get(ps, k))
  {
    hide Get, SetKey, SetIf, FormatUint;
    var ref := FormatUint(r.reference);
    var failed := r.status == Failed && r.lastError != "";
    SetIfReads(ps, r.reference != 0, "pg_reference", ref, k);
    var p1 := SetIf(ps, r.reference != 0, "pg_reference", ref);
    SetIfReads(p1, r.reference != 0, "pg_auth_code", ref, k);
    var p2 := SetIf(p1, r.reference != 0, "pg_auth_code", ref);
    SetIfReads(p2, r.cardPAN != "", "pg_card_pan", r.cardPAN, k);
    var p3 := SetIf(p2, r.cardPAN != "", "pg_card_pan", r.cardPAN);
    SetIfReads(p3, r.cardToken != "", "pg_card_token", r.cardToken, k);
    var p4 := SetIf(p3, r.cardToken != "", "pg_card_token", r.cardToken);
    SetIfReads(p4, r.userEmail != "", "pg_user_email", r.userEmail, k);
    var p5 := SetIf(p4, r.userEmail != "", "pg_user_email", r.userEmail);
    SetIfReads(p5, r.userPhone != "", "pg_user_phone", r.userPhone, k);
    var p6 := SetIf(p5, r.userPhone != "", "pg_user_phone", r.userPhone);
    GetAfterSet(p6, "pg_testing_mode", Str("1"), k);
    var p7 := SetKey(p6, "pg_testing_mode", Str("1"));
    SetIfReads(p7, failed, "pg_failure_description", r.lastError, k);
    SetIfReads(SetIf(p7, failed, "pg_failure_description", r.lastError), failed, "pg_failure_code", "100", k);
  }

  lemma RefundFieldsKeep(ps: seq<Pair>, r: Record, fmt: TimeFormat, k: string)
    requires !RefundKey(k)
    ensures Get(RefundFields(ps, r, fmt), k) == Get(ps, k)
  {
    hide Get, SetKey, FormatUint, RefundChildren;
    SetIfReads(ps, r.refunded > 0, "pg_revoked_amount", "-" + FormatUint(r.refunded), k);
    var revoked := SetIf(ps, r.refunded > 0, "pg_revoked_amount", "-" + FormatUint(r.refunded));
    GetAfterSet(revoked, "pg_refund_payments",
                Map(OrdMap([Pair("pg_refund_payment", List(RefundChildren(r.refunds, fmt)))])), k);
  }

  lemma AnswerReads(r: Record, hidden: bool, fmt: TimeFormat, k: string)
    requires !RefundKey(k)
    ensures Get(StatusFields(r, hidden, fmt), k)
         == TailValue(if hidden then WithoutRefunds(r) else r, k, HeadValue(r, fmt, k))
  {
    hide Get, HeadFields, TailFields, RefundFields, HeadValue, TailValue, RefundKey;
    var shown := if hidden then WithoutRefunds(r) else r;
    HeadReads(r, fmt, k);
    RefundFieldsKeep(HeadFields(r, fmt), shown, fmt, k);
    TailReads(RefundFields(HeadFields(r, fmt), shown, fmt), shown, k);
  }

  // ------------------------------------------------------------ what the answer says

  lemma AmountIsShown(r: Record, hidden: bool, fmt: TimeFormat)
    ensures TextAt(StatusFields(r, hidden, fmt), "pg_amount")
         == Some(FormatUint(r.amount))
  {
    hide Get, StatusFields, FormatUint, PayToFreedomStatus;
    AnswerReads(r, hidden, fmt, "pg_amount");
  }

  lemma ClearingIsShown(r: Record, hidden: bool, fmt: TimeFormat)
    ensures TextAt(StatusFields(r, hidden, fmt), "pg_clearing_amount")
         == Some(FormatUint(r.captured))
  {
    hide Get, StatusFields, FormatUint, PayToFreedomStatus;
    AnswerReads(r, hidden, fmt, "pg_clearing_amount");
  }

  lemma CapturedIsShown(r: Record, hidden: bool, fmt: TimeFormat)
    ensures TextAt(StatusFields(r, hidden, fmt), "pg_captured")
         == if r.captured > 0 then Some("1") else None
  {
    hide Get, StatusFields, FormatUint, PayToFreedomStatus;
    AnswerReads(r, hidden, fmt, "pg_captured");
  }

  lemma CurrencyIsShown(r: Record, hidden: bool, fmt: TimeFormat)
    ensures TextAt(StatusFields(r, hidden, fmt), "pg_currency")
         == Some(r.currency)
  {
    hide Get, StatusFields, FormatUint, PayToFreedomStatus;
    AnswerReads(r, hidden, fmt, "pg_currency");
  }

  lemma NumberIsShown(r: Record, hidden: bool, fmt: TimeFormat)
    ensures TextAt(StatusFields(r, hidden, fmt), "pg_payment_id")
         == Some(FormatUint(r.paymentID))
  {
    hide Get, StatusFields, FormatUint, PayToFreedomStatus;
    AnswerReads(r, hidden, fmt, "pg_payment_id");
  }

  lemma OrderIsShown(r: Record, hidden: bool, fmt: TimeFormat)
    ensures TextAt(StatusFields(r, hidden, fmt), "pg_order_id")
         == if r.orderID != 0 then Some(FormatUint(r.orderID)) else None
  {
    hide Get, StatusFields, FormatUint, PayToFreedomStatus;
    AnswerReads(r, hidden, fmt, "pg_order_id");
  }

  lemma ReferenceIsShown(r: Record, hidden: bool, fmt: TimeFormat)
    ensures TextAt(StatusFields(r, hidden, fmt), "pg_reference")
         == if r.reference != 0 then Some(FormatUint(r.reference)) else None
  {
    hide Get, StatusFields, FormatUint, PayToFreedomStatus;
    AnswerReads(r, hidden, fmt, "pg_reference");
  }

  lemma CreationIsShown(r: Record, hidden: bool, fmt: TimeFormat)
    ensures TextAt(StatusFields(r, hidden, fmt), "pg_create_date")
         == Some(fmt(r.createdAt))
  {
    hide Get, StatusFields, FormatUint, PayToFreedomStatus;
    AnswerReads(r, hidden, fmt, "pg_create_date");
  }

  lemma AuthorizationIsShown(r: Record, hidden: bool, fmt: TimeFormat)
    ensures TextAt(StatusFields(r, hidden, fmt), "pg_payment_date")
         == if r.authorizedAt.Some? then Some(fmt(r.authorizedAt.value)) else None
  {
    hide Get, StatusFields, FormatUint, PayToFreedomStatus;
    AnswerReads(r, hidden, fmt, "pg_payment_date");
  }

  lemma StatusIsShown(r: Record, hidden: bool, fmt: TimeFormat)
    ensures TextAt(StatusFields(r, hidden, fmt), "pg_payment_status")
         == Some(PayToFreedomStatus(r.status))
  {
    hide Get, StatusFields, FormatUint, PayToFreedomStatus;
    AnswerReads(r, hidden, fmt, "pg_payment_status");
  }

  lemma FailureIsShown(r: Record, hidden: bool, fmt: TimeFormat)
    ensures TextAt(StatusFields(r, hidden, fmt), "pg_failure_description")
         == if r.status == Failed && r.lastError != "" then Some(r.lastError) else None
  {
    hide Get, StatusFields, FormatUint, PayToFreedomStatus;
    AnswerReads(r, hidden, fmt, "pg_failure_description");
  }

  // -------------------------------------------------- an order whose payment was refunded

  function RefundValue(r: Record, op: RefundOp, fmt: TimeFormat, k: string): Option<Value> {
    if k == "pg_testing_mode" then Some(Str("1"))
    else if r.cardPAN != "" && k == "pg_card_pan" then Some(Str(r.cardPAN))
    else if k == "pg_reference" then Some(Str(FormatUint(op.reference)))
    else if k == "pg_create_date" then Some(Str(fmt(op.date)))
    else if k == "pg_clearing_amount" then Some(Str("0"))
    else if k == "pg_amount" then Some(Str(Itoa(op.amount)))
    else if k == "pg_payment_status" then Some(Str(op.status))
    else if k == "pg_currency" then Some(Str(r.currency))
    else if k == "pg_payment_method" then Some(Str("bankcard"))
    else if k == "pg_can_reject" then Some(Str("1"))
    else if k == "pg_payment_id" then Some(Str(FormatUint(op.paymentID)))
    else if k == "pg_status" then Some(Str("ok"))
    else None
  }

  lemma RefundStatusReads(r: Record, op: RefundOp, fmt: TimeFormat, k: string)
    ensures Get(RefundStatusFields(r, op, fmt), k) == RefundValue(r, op, fmt, k)
  {
    assert Get([], k) == None;
    hide Get, SetKey, SetIf, FormatUint, Itoa;
    GetAfterSet([], "pg_status", Str("ok"), k);
    var p1 := SetKey([], "pg_status", Str("ok"));
    GetAfterSet(p1, "pg_payment_id", Str(FormatUint(op.paymentID)), k);
    var p2 := SetKey(p1, "pg_payment_id", Str(FormatUint(op.paymentID)));
    GetAfterSet(p2, "pg_can_reject", Str("1"), k);
    var p3 := SetKey(p2, "pg_can_reject", Str("1"));
    GetAfterSet(p3, "pg_payment_method", Str("bankcard"), k);
    var p4 := SetKey(p3, "pg_payment_method", Str("bankcard"));
    GetAfterSet(p4, "pg_currency", Str(r.currency), k);
    var p5 := SetKey(p4, "pg_currency", Str(r.currency));
    GetAfterSet(p5, "pg_payment_status", Str(op.status), k);
    var p6 := SetKey(p5, "pg_payment_status", Str(op.status));
    GetAfterSet(p6, "pg_amount", Str(Itoa(op.amount)), k);
    var p7 := SetKey(p6, "pg_amount", Str(Itoa(op.amount)));
    GetAfterSet(p7, "pg_clearing_amount", Str("0"), k);
    var p8 := SetKey(p7, "pg_clearing_amount", Str("0"));
    GetAfterSet(p8, "pg_create_date", Str(fmt(op.date)), k);
    var p9 := SetKey(p8, "pg_create_date", Str(fmt(op.date)));
    GetAfterSet(p9, "pg_reference", Str(FormatUint(op.reference)), k);
    var p10 := SetKey(p9, "pg_reference", Str(FormatUint(op.reference)));
    SetIfReads(p10, r.cardPAN != "", "pg_card_pan", r.cardPAN, k);
    GetAfterSet(SetIf(p10, r.cardPAN != "", "pg_card_pan", r.cardPAN), "pg_testing_mode", Str("1"), k);
  }

  lemma RefundNumberIsShown(r: Record, op: RefundOp, fmt: TimeFormat)
    ensures TextAt(RefundStatusFields(r, op, fmt), "pg_payment_id") == Some(FormatUint(op.paymentID))
  {
    hide Get, RefundStatusFields, FormatUint, Itoa;
    RefundStatusReads(r, op, fmt, "pg_payment_id");
  }

  lemma RefundStatusIsShown(r: Record, op: RefundOp, fmt: TimeFormat)
    ensures TextAt(RefundStatusFields(r, op, fmt), "pg_payment_status") == Some(op.status)
  {
    hide Get, RefundStatusFields, FormatUint, Itoa;
    RefundStatusReads(r, op, fmt, "pg_payment_status");
  }

  lemma RefundAmountIsShown(r: Record, op: RefundOp, fmt: TimeFormat)
    ensures TextAt(RefundStatusFields(r, op, fmt), "pg_amount") == Some(Itoa(op.amount))
  {
    hide Get, RefundStatusFields, FormatUint, Itoa;
    RefundStatusReads(r, op, fmt, "pg_amount");
  }

  lemma RefundClearingIsShown(r: Record, op: RefundOp, fmt: TimeFormat)
    ensures TextAt(RefundStatusFields(r, op, fmt), "pg_clearing_amount") == Some("0")
  {
    hide Get, RefundStatusFields, FormatUint, Itoa;
    RefundStatusReads(r, op, fmt, "pg_clearing_amount");
  }

  lemma RefundTimeIsShown(r: Record, op: RefundOp, fmt: TimeFormat)
    ensures TextAt(RefundStatusFields(r, op, fmt), "pg_create_date") == Some(fmt(op.date))
  {
    hide Get, RefundStatusFields, FormatUint, Itoa;
    RefundStatusReads(r, op, fmt, "pg_create_date");
  }

  /** The field holds the decimal of that number. */
  predicate Reads(ps: seq<Pair>, k: string, n: int) {
    TextAt(ps, k).Some? && ParseUint(TextAt(ps, k).value) == Some(n)
  }

  /** Asked by order, the answer is about the last refund: its own number, outcome, time and negated amount. */
  lemma OrderAnswerShowsLastRefund(r: Record, fmt: TimeFormat)
    requires r.refunds != []
    ensures var ps, op := AnswerFor(r, true, false, fmt), r.refunds[|r.refunds| - 1];
            && (op.paymentID < TWO_64 ==> Reads(ps, "pg_payment_id", op.paymentID))
            && TextAt(ps, "pg_payment_status") == Some(op.status)
            && TextAt(ps, "pg_amount").Some? && ItoaValue(TextAt(ps, "pg_amount").value) == op.amount
            && TextAt(ps, "pg_clearing_amount") == Some("0") && TextAt(ps, "pg_create_date") == Some(fmt(op.date))
  {
    var op := r.refunds[|r.refunds| - 1];
    hide TextAt, RefundStatusFields, FormatUint, Itoa, ItoaValue, StatusFields, ParseUint, DigitsValue;
    assert AnswerFor(r, true, false, fmt) == RefundStatusFields(r, op, fmt);
    hide AnswerFor;
    RefundNumberIsShown(r, op, fmt);
    RefundStatusIsShown(r, op, fmt);
    RefundAmountIsShown(r, op, fmt);
    RefundClearingIsShown(r, op, fmt);
    RefundTimeIsShown(r, op, fmt);
    ItoaReadsBack(op.amount);
    if op.paymentID < TWO_64 { ParseFormatUint(op.paymentID); }
  }

  /** The numbers of any other answer read back as those of the payment. */
  lemma AnswerShowsNumbers(r: Record, hidden: bool, fmt: TimeFormat)
    ensures var ps := StatusFields(r, hidden, fmt);
            && Reads(ps, "pg_amount", r.amount) && Reads(ps, "pg_clearing_amount", r.captured)
            && (r.paymentID < TWO_64 ==> Reads(ps, "pg_payment_id", r.paymentID))
            && (0 < r.orderID < TWO_64 ==> Reads(ps, "pg_order_id", r.orderID))
            && (0 < r.reference < TWO_64 ==> Reads(ps, "pg_reference", r.reference))
  {
    hide TextAt, StatusFields, FormatUint, ParseUint, DigitsValue;
    AmountIsShown(r, hidden, fmt);
    ClearingIsShown(r, hidden, fmt);
    NumberIsShown(r, hidden, fmt);
    OrderIsShown(r, hidden, fmt);
    ReferenceIsShown(r, hidden, fmt);
    ParseFormatUint(r.amount);
    ParseFormatUint(r.captured);
    if r.paymentID < TWO_64 { ParseFormatUint(r.paymentID); }
    if r.orderID < TWO_64 { ParseFormatUint(r.orderID); }
    if r.reference < TWO_64 { ParseFormatUint(r.reference); }
  }

  /** Its texts are those of the payment: currency, times, and the error of a declined one. A flag says that money
      was taken. */
  lemma AnswerShowsTexts(r: Record, hidden: bool, fmt: TimeFormat)
    ensures var ps := StatusFields(r, hidden, fmt);
            && TextAt(ps, "pg_currency") == Some(r.currency) && TextAt(ps, "pg_create_date") == Some(fmt(r.createdAt))
            && TextAt(ps, "pg_captured") == (if r.captured > 0 then Some("1") else None)
            && TextAt(ps, "pg_payment_date") == (if r.authorizedAt.Some? then Some(fmt(r.authorizedAt.value)) else None)
            && TextAt(ps, "pg_failure_description")
               == (if r.status == Failed && r.lastError != "" then Some(r.lastError) else None)
  {
    hide TextAt, StatusFields;
    CurrencyIsShown(r, hidden, fmt);
    CreationIsShown(r, hidden, fmt);
    CapturedIsShown(r, hidden, fmt);
    AuthorizationIsShown(r, hidden, fmt);
    FailureIsShown(r, hidden, fmt);
  }

  // ----------------------------------------------------------- one listed refund

  function ChildValue(op: RefundOp, fmt: TimeFormat, k: string): Option<Value> {
    if k == "pg_reference" then Some(Str(FormatUint(op.reference)))
    else if k == "pg_payment_date" then Some(Str(fmt(op.date)))
    else if k == "pg_amount" then Some(Str(Itoa(op.amount)))
    else if k == "pg_payment_status" then Some(Str(op.status))
    else if k == "pg_payment_id" then Some(Str(FormatUint(op.paymentID)))
    else None
  }

  lemma ChildFieldsRead(op: RefundOp, fmt: TimeFormat, k: string)
    ensures Get(RefundChild(op, fmt).pairs, k) == ChildValue(op, fmt, k)
  {
    assert Get([], k) == None;
    hide Get, SetKey, FormatUint, Itoa;
    GetAfterSet([], "pg_payment_id", Str(FormatUint(op.paymentID)), k);
    var p1 := SetKey([], "pg_payment_id", Str(FormatUint(op.paymentID)));
    GetAfterSet(p1, "pg_payment_status", Str(op.status), k);
    var p2 := SetKey(p1, "pg_payment_status", Str(op.status));
    GetAfterSet(p2, "pg_amount", Str(Itoa(op.amount)), k);
    var p3 := SetKey(p2, "pg_amount", Str(Itoa(op.amount)));
    GetAfterSet(p3, "pg_payment_date", Str(fmt(op.date)), k);
    var p4 := SetKey(p3, "pg_payment_date", Str(fmt(op.date)));
    GetAfterSet(p4, "pg_reference", Str(FormatUint(op.reference)), k);
  }

  lemma ChildNumberIsShown(op: RefundOp, fmt: TimeFormat)
    ensures TextAt(RefundChild(op, fmt).pairs, "pg_payment_id") == Some(FormatUint(op.paymentID))
  {
    hide Get, RefundChild, FormatUint, Itoa;
    ChildFieldsRead(op, fmt, "pg_payment_id");
  }

  lemma ChildReferenceIsShown(op: RefundOp, fmt: TimeFormat)
    ensures TextAt(RefundChild(op, fmt).pairs, "pg_reference") == Some(FormatUint(op.reference))
  {
    hide Get, RefundChild, FormatUint, Itoa;
    ChildFieldsRead(op, fmt, "pg_reference");
  }

  lemma ChildTimeIsShown(op: RefundOp, fmt: TimeFormat)
    ensures TextAt(RefundChild(op, fmt).pairs, "pg_payment_date") == Some(fmt(op.date))
  {
    hide Get, RefundChild, FormatUint, Itoa;
    ChildFieldsRead(op, fmt, "pg_payment_date");
  }

  lemma {:induction false} ChildrenAt(ops: seq<RefundOp>, fmt: TimeFormat, i: nat)
    requires i < |ops|
    ensures |RefundChildren(ops, fmt)| == |ops| && RefundChildren(ops, fmt)[i] == RefundChild(ops[i], fmt)
    decreases |ops|
  {
    hide RefundChild;
    var front := ops[..|ops| - 1];
    if front != [] { ChildrenAt(front, fmt, if i < |front| then i else 0); }
  }

  /** The refunds of an answer, one by one in order: each under its own number, reference and time. */
  lemma ListedRefundsRead(r: Record, fmt: TimeFormat, i: nat)
    requires i < |r.refunds|
    ensures var items, op := ListedIn(StatusFields(r, false, fmt)), r.refunds[i];
            && |items| == |r.refunds|
            && (op.paymentID < TWO_64 ==> Reads(items[i].pairs, "pg_payment_id", op.paymentID))
            && (op.reference < TWO_64 ==> Reads(items[i].pairs, "pg_reference", op.reference))
            && TextAt(items[i].pairs, "pg_payment_date") == Some(fmt(op.date))
  {
    hide StatusFields, RefundChild, FormatUint, TextAt, ListedIn, RefundChildren;
    RefundsAreShown(r, fmt);
    ChildrenAt(r.refunds, fmt, i);
    ChildNumberIsShown(r.refunds[i], fmt);
    ChildReferenceIsShown(r.refunds[i], fmt);
    ChildTimeIsShown(r.refunds[i], fmt);
    if r.refunds[i].paymentID < TWO_64 { ParseFormatUint(r.refunds[i].paymentID); }
    if r.refunds[i].reference < TWO_64 { ParseFormatUint(r.refunds[i].reference); }
  }
}
