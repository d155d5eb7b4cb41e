/** `get_status3.php`: what a merchant reads about a payment and its refunds. */
module StatusAnswers {
  import opened Text
  import opened Decimal
  import opened OrdMaps
  import opened Pay
  import opened PayStore
  import opened PayRecords
  import opened PayThreads
  import opened PayRuns

  /** `Time.Format(time.RFC3339)` on the modelled instants. */
  type TimeFormat = int -> string

  // -------------------------------------------------------------- the fields

  /** `withoutRefunds`. */
  function WithoutRefunds(r: Record): Record {
    r.(refunds := [], refunded := 0,
       status := if r.status == Refunded || r.status == PartialRefunded then Captured else r.status)
  }

  function PayToFreedomStatus(s: Status): string {
    match s
    case New => "process"
    case HoldPending => "process"
    case Failed => "failed"
    case Cancelled => "revoked"
    case _ => "success"
  }

  function SetIf(ps: seq<Pair>, present: bool, key: string, value: string): seq<Pair> {
    if present then SetKey(ps, key, Str(value)) else ps
  }

  /** The fields up to `pg_captured`, taken from the payment as it is. */
  function HeadFields(r: Record, fmt: TimeFormat): seq<Pair> {
    var ps := SetKey([], "pg_status", Str("ok"));
    var ps := SetKey(ps, "pg_payment_id", Str(FormatUint(r.paymentID)));
    var ps := SetKey(ps, "pg_can_reject", Str("1"));
    var ps := SetKey(ps, "pg_payment_method", Str("bankcard"));
    var ps := SetIf(ps, r.orderID != 0, "pg_order_id", FormatUint(r.orderID));
    var ps := SetKey(ps, "pg_currency", Str(r.currency));
    var ps := SetKey(ps, "pg_payment_status", Str(PayToFreedomStatus(r.status)));
    var ps := SetKey(ps, "pg_amount", Str(FormatUint(r.amount)));
    var ps := SetKey(ps, "pg_clearing_amount", Str(FormatUint(r.captured)));
    var ps := SetKey(ps, "pg_create_date", Str(fmt(r.createdAt)));
    var ps := if r.authorizedAt.Some? then SetKey(ps, "pg_payment_date", Str(fmt(r.authorizedAt.value))) else ps;
    SetIf(ps, r.captured > 0, "pg_captured", "1")
  }

  function RefundChild(op: RefundOp, fmt: TimeFormat): OrdMap {
    var ps := SetKey([], "pg_payment_id", Str(FormatUint(op.paymentID)));
    var ps := SetKey(ps, "pg_payment_status", Str(op.status));
    var ps := SetKey(ps, "pg_amount", Str(Itoa(op.amount)));
    var ps := SetKey(ps, "pg_payment_date", Str(fmt(op.date)));
    OrdMap(SetKey(ps, "pg_reference", Str(FormatUint(op.reference))))
  }

  function RefundChildren(ops: seq<RefundOp>, fmt: TimeFormat): seq<OrdMap> {
    if ops == [] then [] else RefundChildren(ops[..|ops| - 1], fmt) + [RefundChild(ops[|ops| - 1], fmt)]
  }

  /** `setRefundPayments`, after the `pg_revoked_amount` that goes with it. */
  function RefundFields(ps: seq<Pair>, r: Record, fmt: TimeFormat): seq<Pair> {
    var ps := SetIf(ps, r.refunded > 0, "pg_revoked_amount", "-" + FormatUint(r.refunded));
    if r.refunds == [] then ps
    else
      var children := List(RefundChildren(r.refunds, fmt));
      SetKey(ps, "pg_refund_payments", Map(OrdMap([Pair("pg_refund_payment", children)])))
  }

  function TailFields(ps: seq<Pair>, r: Record): seq<Pair> {
    var ps := SetIf(ps, r.reference != 0, "pg_reference", FormatUint(r.reference));
    var ps := SetIf(ps, r.reference != 0, "pg_auth_code", FormatUint(r.reference));
    var ps := SetIf(ps, r.cardPAN != "", "pg_card_pan", r.cardPAN);
    var ps := SetIf(ps, r.cardToken != "", "pg_card_token", r.cardToken);
    var ps := SetIf(ps, r.userEmail != "", "pg_user_email", r.userEmail);
    var ps := SetIf(ps, r.userPhone != "", "pg_user_phone", r.userPhone);
    var ps := SetKey(ps, "pg_testing_mode", Str("1"));
    var failed := r.status == Failed && r.lastError != "";
    var ps := SetIf(ps, failed, "pg_failure_description", r.lastError);
    SetIf(ps, failed, "pg_failure_code", "100")
  }

  function StatusFields(r: Record, hidden: bool, fmt: TimeFormat): seq<Pair> {
    var shown := if hidden then WithoutRefunds(r) else r;
    TailFields(RefundFields(HeadFields(r, fmt), shown, fmt), shown)
  }

  /** `refundStatusResponse`: the status of the refund itself. */
  function RefundStatusFields(r: Record, op: RefundOp, fmt: TimeFormat): seq<Pair> {
    var ps := SetKey([], "pg_status", Str("ok"));
    var ps := SetKey(ps, "pg_payment_id", Str(FormatUint(op.paymentID)));
    var ps := SetKey(ps, "pg_can_reject", Str("1"));
    var ps := SetKey(ps, "pg_payment_method", Str("bankcard"));
    var ps := SetKey(ps, "pg_currency", Str(r.currency));
    var ps := SetKey(ps, "pg_payment_status", Str(op.status));
    var ps := SetKey(ps, "pg_amount", Str(Itoa(op.amount)));
    var ps := SetKey(ps, "pg_clearing_amount", Str("0"));
    var ps := SetKey(ps, "pg_create_date", Str(fmt(op.date)));
    var ps := SetKey(ps, "pg_reference", Str(FormatUint(op.reference)));
    var ps := SetIf(ps, r.cardPAN != "", "pg_card_pan", r.cardPAN);
    SetKey(ps, "pg_testing_mode", Str("1"))
  }

  /** An order's last payment is its last refund, once there is one that is not hidden. */
  function AnswerFor(r: Record, byOrder: bool, hidden: bool, fmt: TimeFormat): seq<Pair> {
    if byOrder && !hidden && r.refunds != [] then RefundStatusFields(r, r.refunds[|r.refunds| - 1], fmt)
    else StatusFields(r, hidden, fmt)
  }

  // ------------------------------------------------------------- the handler

  /** `PayRepo.List`: every record once, later creations first, equal times in any order. */
  ghost predicate IsListing(list: seq<Record>, st: Store) {
    && (forall r :: r in list <==> exists id :: id in st.byID && st.byID[id] == r)
    && (forall i, j :: 0 <= i < j < |list| ==> list[i].createdAt >= list[j].createdAt)
  }

  /** The record a status request is about: the named payment, or a latest one of the order. */
  ghost predicate Finds(st: Store, paymentID: nat, orderID: nat, r: Record) {
    if paymentID != 0 then paymentID in st.byID && r == st.byID[paymentID]
    else
      && (exists id :: id in st.byID && st.byID[id] == r)
      && r.orderID == orderID
      && forall id :: id in st.byID && st.byID[id].orderID == orderID ==> st.byID[id].createdAt <= r.createdAt
  }

  method FindStatusRecord(repo: PayRepo, list: seq<Record>, paymentID: nat, orderID: nat)
    returns (r: Result<Record, Error>)
    requires IsListing(list, repo.State())
    ensures r.Ok? ==> Finds(repo.State(), paymentID, orderID, r.value)
    ensures r.Err? ==> r.error == NotFound && forall any :: !Finds(repo.State(), paymentID, orderID, any)
  {
    if paymentID != 0 {
      r := repo.Get(paymentID);
      return;
    }
    for i := 0 to |list|
      invariant forall j :: 0 <= j < i ==> list[j].orderID != orderID
    {
      if list[i].orderID == orderID {
        forall id | id in repo.byID && repo.byID[id].orderID == orderID
          ensures repo.byID[id].createdAt <= list[i].createdAt
        {
          assert repo.State().byID[id] in list;
        }
        assert list[i] in list;
        return Ok(list[i]);
      }
    }
    forall any ensures !Finds(repo.State(), paymentID, orderID, any) {
      assert Finds(repo.State(), paymentID, orderID, any) ==> any in list;
    }
    r := Err(NotFound);
  }

  method SetRefundPayments(out: Fields, r: Record, fmt: TimeFormat)
    modifies out
    ensures out.pairs == if r.refunds == [] then old(out.pairs)
                         else SetKey(old(out.pairs), "pg_refund_payments",
                                     Map(OrdMap([Pair("pg_refund_payment", List(RefundChildren(r.refunds, fmt)))])))
  {
    if |r.refunds| == 0 { return; }
    var children: seq<OrdMap> := [];
    for i := 0 to |r.refunds|
      invariant children == RefundChildren(r.refunds[..i], fmt)
      invariant out.pairs == old(out.pairs)
    {
      assert r.refunds[..i + 1][..i] == r.refunds[..i];
      children := children + [RefundChild(r.refunds[i], fmt)];
    }
    assert r.refunds[..|r.refunds|] == r.refunds;
    out.Set("pg_refund_payments", Map(OrdMap([Pair("pg_refund_payment", List(children))])));
  }

  method SetIfPresent(out: Fields, present: bool, key: string, value: string)
    modifies out
    ensures out.pairs == SetIf(old(out.pairs), present, key, value)
  {
    if present { out.Set(key, Str(value)); }
  }

  method SetTail(out: Fields, r: Record)
    modifies out
    ensures out.pairs == TailFields(old(out.pairs), r)
  {
    hide SetKey;
    hide SetIf;
    SetIfPresent(out, r.reference != 0, "pg_reference", FormatUint(r.reference));
    SetIfPresent(out, r.reference != 0, "pg_auth_code", FormatUint(r.reference));
    SetIfPresent(out, r.cardPAN != "", "pg_card_pan", r.cardPAN);
    SetIfPresent(out, r.cardToken != "", "pg_card_token", r.cardToken);
    SetIfPresent(out, r.userEmail != "", "pg_user_email", r.userEmail);
    SetIfPresent(out, r.userPhone != "", "pg_user_phone", r.userPhone);
    out.Set("pg_testing_mode", Str("1"));
    SetIfPresent(out, r.status == Failed && r.lastError != "", "pg_failure_description", r.lastError);
    SetIfPresent(out, r.status == Failed && r.lastError != "", "pg_failure_code", "100");
  }

  method SetHead(out: Fields, r: Record, fmt: TimeFormat)
    requires out.pairs == []
    modifies out
    ensures out.pairs == HeadFields(r, fmt)
  {
    hide SetKey;
    hide SetIf;
    out.Set("pg_status", Str("ok"));
    out.Set("pg_payment_id", Str(FormatUint(r.paymentID)));
    out.Set("pg_can_reject", Str("1"));
    out.Set("pg_payment_method", Str("bankcard"));
    SetIfPresent(out, r.orderID != 0, "pg_order_id", FormatUint(r.orderID));
    out.Set("pg_currency", Str(r.currency));
    out.Set("pg_payment_status", Str(PayToFreedomStatus(r.status)));
    out.Set("pg_amount", Str(FormatUint(r.amount)));
    out.Set("pg_clearing_amount", Str(FormatUint(r.captured)));
    out.Set("pg_create_date", Str(fmt(r.createdAt)));
    if r.authorizedAt.Some? {
      out.Set("pg_payment_date", Str(fmt(r.authorizedAt.value)));
    }
    SetIfPresent(out, r.captured > 0, "pg_captured", "1");
  }

  /** The replies that a status request can get in this state of the store. */
  ghost predicate MayReply(st: Store, paymentID: nat, orderID: nat, hidden: bool, fmt: TimeFormat,
                           reply: Result<seq<Pair>, Error>)
  {
    if paymentID == 0 && orderID == 0 then reply == Err(BadInput)
    else if reply.Ok? then
      exists r :: Finds(st, paymentID, orderID, r) && reply.value == AnswerFor(r, paymentID == 0, hidden, fmt)
    else reply.error == NotFound && forall r :: !Finds(st, paymentID, orderID, r)
  }

  method HandleStatus(repo: PayRepo, list: seq<Record>, paymentID: nat, orderID: nat, hidden: bool, fmt: TimeFormat)
    returns (reply: Result<seq<Pair>, Error>)
    requires IsListing(list, repo.State())
    ensures MayReply(repo.State(), paymentID, orderID, hidden, fmt, reply)
  {
    if paymentID == 0 && orderID == 0 { return Err(BadInput); }
    var found := FindStatusRecord(repo, list, paymentID, orderID);
    if found.Err? { return Err(found.error); }
    var fields := StatusReply(found.value, paymentID == 0, hidden, fmt);
    reply := Ok(fields);
  }

  method StatusReply(r: Record, byOrder: bool, hidden: bool, fmt: TimeFormat) returns (fields: seq<Pair>)
    ensures fields == AnswerFor(r, byOrder, hidden, fmt)
  {
    hide HeadFields;
    hide TailFields;
    hide RefundStatusFields;
    hide SetKey;
    if byOrder && !hidden && |r.refunds| > 0 {
      return RefundStatusFields(r, r.refunds[|r.refunds| - 1], fmt);
    }
    var out := new Fields([]);
    SetHead(out, r, fmt);
    var shown := r;
    if hidden { shown := WithoutRefunds(r); }
    SetIfPresent(out, shown.refunded > 0, "pg_revoked_amount", "-" + FormatUint(shown.refunded));
    SetRefundPayments(out, shown, fmt);
    SetTail(out, shown);
    fields := out.pairs;
  }

  // ------------------------------------------------- hidden refunds leave no trace

  /** The hidden answer shows the face of the payment and nothing else. */
  lemma HiddenAnswerShowsFace(r: Record, captured: Record, byOrder: bool, fmt: TimeFormat)
    requires FaceOf(r) == FaceOf(captured) && Spent(r.status)
    requires captured.status == Captured && captured.refunds == [] && captured.refunded == 0
    ensures AnswerFor(r, byOrder, true, fmt) == AnswerFor(captured, byOrder, false, fmt)
  {
    hide SetKey;
    hide SetIf;
    assert HeadFields(r, fmt) == HeadFields(captured, fmt) by { HeadShowsFace(r, captured, fmt); }
    hide HeadFields;
  }

  lemma HeadShowsFace(r: Record, r': Record, fmt: TimeFormat)
    requires FaceOf(r) == FaceOf(r') && Spent(r.status) && Spent(r'.status)
    ensures HeadFields(r, fmt) == HeadFields(r', fmt)
  {
    hide SetKey;
    hide SetIf;
  }

  lemma CaptureFound(st: Store, id: nat, amount: uint64, now: int)
    requires Perform(st, Op.Capture(amount), id, now).1.None?
    ensures id in st.byID && st.byID[id].status == Authorized
  {
  }

  lemma CaptureCaptures(st: Store, id: nat, amount: uint64, now: int)
    requires Perform(st, Op.Capture(amount), id, now).1.None?
    ensures var st' := Perform(st, Op.Capture(amount), id, now).0;
            && id in st'.byID && st'.byID[id].status == Captured
            && st'.byID[id].refunds == st.byID[id].refunds && st'.byID[id].refunded == st.byID[id].refunded
            && st'.byID[id].reference == st.byID[id].reference
  {
    CaptureFound(st, id, amount, now);
    OneTask(st, id, SetCaptured(if amount == 0 then st.byID[id].amount else amount, "capture"), now);
    hide RunTasks;
  }

  /**
   * After a capture, whatever calls follow, short of forcing this payment - revokes with any outcomes, and
   * anything on other payments - a status that hides refunds is the status given right after the capture.
   */
  lemma {:induction false} HiddenRefundsLeaveNoTrace(base: nat, before: seq<Moment>, id: nat, amount: uint64,
                                                     now: int, after: seq<Moment>, byOrder: bool, fmt: TimeFormat)
    requires NeverForcedCalls(before, id) && NeverForcedCalls(after, id) && NoClear(after)
    requires Perform(RunCalls(Empty(base), before), Op.Capture(amount), id, now).1.None?
    ensures var st := Perform(RunCalls(Empty(base), before), Op.Capture(amount), id, now).0;
            var st' := RunCalls(st, after);
            && id in st.byID && id in st'.byID
            && AnswerFor(st'.byID[id], byOrder, true, fmt) == AnswerFor(st.byID[id], byOrder, false, fmt)
  {
    var st0 := RunCalls(Empty(base), before);
    RunIsTidy(base, before, id);
    CaptureFound(RunCalls(Empty(base), before), id, amount, now);
    CallsStaySound(base, before, id);
    hide RunCalls;
    var st := Perform(st0, Op.Capture(amount), id, now).0;
    CaptureCaptures(st0, id, amount, now);
    CallKeepsTidy(st0, Moment(Serve(Op.Capture(amount), id), now), AllBut(id));
    CallsKeepTidy(st, after, AllBut(id));
    var st' := RunCalls(st, after);
    assert Later(st.byID[id], st'.byID[id]);
    HiddenAnswerShowsFace(st'.byID[id], st.byID[id], byOrder, fmt);
  }

  /** No other payment of the order is as young. */
  ghost predicate Newest(st: Store, id: nat)
    requires id in st.byID
  {
    forall other :: other in st.byID && other != id && st.byID[other].orderID == st.byID[id].orderID ==>
      st.byID[other].createdAt < st.byID[id].createdAt
  }

  lemma ReplyIsAbout(st: Store, id: nat, paymentID: nat, hidden: bool, fmt: TimeFormat, reply: Result<seq<Pair>, Error>)
    requires id in st.byID && (paymentID == 0 || paymentID == id)
    requires paymentID == 0 ==> st.byID[id].orderID != 0 && Newest(st, id)
    ensures MayReply(st, paymentID, st.byID[id].orderID, hidden, fmt, reply)
       <==> reply == Ok(AnswerFor(st.byID[id], paymentID == 0, hidden, fmt))
  {
    hide AnswerFor;
    var r := st.byID[id];
    assert Finds(st, paymentID, r.orderID, r);
    forall any | Finds(st, paymentID, r.orderID, any) ensures any == r {
      if paymentID == 0 {
        var other :| other in st.byID && st.byID[other] == any;
        assert other != id ==> any.createdAt < r.createdAt;
      }
    }
  }

  /** The same over replies: by payment id, and by order id while the payment is the newest of its order. */
  lemma {:induction false} HiddenRepliesAreOldReplies(
      base: nat, before: seq<Moment>, id: nat, amount: uint64, now: int, after: seq<Moment>,
      paymentID: nat, fmt: TimeFormat, old1: Result<seq<Pair>, Error>, new1: Result<seq<Pair>, Error>)
    requires NeverForcedCalls(before, id) && NeverForcedCalls(after, id) && NoClear(after)
    requires Perform(RunCalls(Empty(base), before), Op.Capture(amount), id, now).1.None?
    requires var st := Perform(RunCalls(Empty(base), before), Op.Capture(amount), id, now).0;
             var st' := RunCalls(st, after);
             && id in st.byID && id in st'.byID && (paymentID == 0 || paymentID == id)
             && (paymentID == 0 ==>
                  st'.byID[id].orderID != 0 && st.byID[id].orderID != 0 && Newest(st', id) && Newest(st, id))
             && MayReply(st, paymentID, st.byID[id].orderID, false, fmt, old1)
             && MayReply(st', paymentID, st'.byID[id].orderID, true, fmt, new1)
    ensures new1 == old1
  {
    hide RunCalls;
    hide Perform;
    hide AnswerFor;
    hide MayReply;
    var st := Perform(RunCalls(Empty(base), before), Op.Capture(amount), id, now).0;
    var st' := RunCalls(st, after);
    ReplyIsAbout(st, id, paymentID, false, fmt, old1);
    ReplyIsAbout(st', id, paymentID, true, fmt, new1);
    HiddenRefundsLeaveNoTrace(base, before, id, amount, now, after, paymentID == 0, fmt);
  }

  // ---------------------------------------------------- the sum that is reported

  /** Reads the number back from `strconv.Itoa`. */
  function ItoaValue(s: string): int {
    if s != "" && s[0] == '-' then (if AllDigits(s[1..]) then 0 - DigitsValue(s[1..]) else 0)
    else if AllDigits(s) then DigitsValue(s)
    else 0
  }

  lemma ItoaReadsBack(n: int)
    ensures ItoaValue(Itoa(n)) == n
  {
    if n < 0 {
      ValueOfFormat(-n);
      assert Itoa(n)[1..] == FormatUint(-n);
    } else {
      ValueOfFormat(n);
    }
  }

  /** What one listed refund gives back, read from its fields. */
  function ChildMagnitude(child: OrdMap): int {
    match Get(child.pairs, "pg_amount")
    case Some(Str(amount)) =>
      if Get(child.pairs, "pg_payment_status") == Some(Str(REFUND_SUCCESS)) then 0 - ItoaValue(amount) else 0
    case _ => 0
  }

  function ListedSum(children: seq<OrdMap>): int {
    if children == [] then 0 else ListedSum(children[..|children| - 1]) + ChildMagnitude(children[|children| - 1])
  }

  /** The refunds listed in an answer. */
  function ListedIn(ps: seq<Pair>): seq<OrdMap> {
    match Get(ps, "pg_refund_payments")
    case Some(Map(group)) => (match Get(group.pairs, "pg_refund_payment") case Some(List(items)) => items case _ => [])
    case _ => []
  }

  lemma ChildReadsBack(op: RefundOp, fmt: TimeFormat)
    ensures ChildMagnitude(RefundChild(op, fmt)) == Magnitude(op)
  {
    var id, status := Str(FormatUint(op.paymentID)), Str(op.status);
    var amount, date, reference := Str(Itoa(op.amount)), Str(fmt(op.date)), Str(FormatUint(op.reference));
    ItoaReadsBack(op.amount);
    var p1 := SetKey([], "pg_payment_id", id);
    var p2 := SetKey(p1, "pg_payment_status", status);
    var p3 := SetKey(p2, "pg_amount", amount);
    var p4 := SetKey(p3, "pg_payment_date", date);
    hide SetKey;
    hide Get;
    hide ItoaValue;
    hide Itoa;
    GetAfterSet(p1, "pg_payment_status", status, "pg_payment_status");
    GetAfterSet(p2, "pg_amount", amount, "pg_payment_status");
    GetAfterSet(p2, "pg_amount", amount, "pg_amount");
    GetAfterSet(p3, "pg_payment_date", date, "pg_payment_status");
    GetAfterSet(p3, "pg_payment_date", date, "pg_amount");
    GetAfterSet(p4, "pg_reference", reference, "pg_payment_status");
    GetAfterSet(p4, "pg_reference", reference, "pg_amount");
  }

  lemma {:induction false} ChildrenReadBack(ops: seq<RefundOp>, fmt: TimeFormat)
    ensures ListedSum(RefundChildren(ops, fmt)) == Revoked(ops)
    ensures |RefundChildren(ops, fmt)| == |ops|
  {
    if ops != [] {
      var front, last := ops[..|ops| - 1], ops[|ops| - 1];
      ChildrenReadBack(front, fmt);
      ChildReadsBack(last, fmt);
      hide ChildMagnitude;
      hide Magnitude;
      hide RefundChild;
      assert (RefundChildren(front, fmt) + [RefundChild(last, fmt)])[..|front|] == RefundChildren(front, fmt);
    }
  }

  lemma SetIfKeeps(ps: seq<Pair>, present: bool, key: string, value: string, k: string)
    requires k != key
    ensures Get(SetIf(ps, present, key, value), k) == Get(ps, k)
  {
    hide Get;
    GetAfterSet(ps, key, Str(value), k);
  }

  predicate RefundKey(k: string) { k == "pg_revoked_amount" || k == "pg_refund_payments" }

  lemma TailKeepsRefunds(ps: seq<Pair>, r: Record, k: string)
    requires RefundKey(k)
    ensures Get(TailFields(ps, r), k) == Get(ps, k)
  {
    hide Get;
    hide SetKey;
    hide SetIf;
    hide FormatUint;
    var ref := FormatUint(r.reference);
    var failed := r.status == Failed && r.lastError != "";
    SetIfKeeps(ps, r.reference != 0, "pg_reference", ref, k);
    var p1 := SetIf(ps, r.reference != 0, "pg_reference", ref);
    SetIfKeeps(p1, r.reference != 0, "pg_auth_code", ref, k);
    var p2 := SetIf(p1, r.reference != 0, "pg_auth_code", ref);
    SetIfKeeps(p2, r.cardPAN != "", "pg_card_pan", r.cardPAN, k);
    var p3 := SetIf(p2, r.cardPAN != "", "pg_card_pan", r.cardPAN);
    SetIfKeeps(p3, r.cardToken != "", "pg_card_token", r.cardToken, k);
    var p4 := SetIf(p3, r.cardToken != "", "pg_card_token", r.cardToken);
    SetIfKeeps(p4, r.userEmail != "", "pg_user_email", r.userEmail, k);
    var p5 := SetIf(p4, r.userEmail != "", "pg_user_email", r.userEmail);
    SetIfKeeps(p5, r.userPhone != "", "pg_user_phone", r.userPhone, k);
    var p6 := SetIf(p5, r.userPhone != "", "pg_user_phone", r.userPhone);
    GetAfterSet(p6, "pg_testing_mode", Str("1"), k);
    var p7 := SetKey(p6, "pg_testing_mode", Str("1"));
    SetIfKeeps(p7, failed, "pg_failure_description", r.lastError, k);
    SetIfKeeps(SetIf(p7, failed, "pg_failure_description", r.lastError), failed, "pg_failure_code", "100", k);
  }

  lemma NotOfTheHead(k: string)
    requires RefundKey(k)
    ensures k !in {"pg_status", "pg_payment_id", "pg_can_reject", "pg_payment_method", "pg_order_id", "pg_currency",
                   "pg_payment_status", "pg_amount", "pg_clearing_amount", "pg_create_date", "pg_payment_date",
                   "pg_captured"}
  {
  }

  lemma HeadLacksRefunds(r: Record, fmt: TimeFormat, k: string)
    requires RefundKey(k)
    ensures Get(HeadFields(r, fmt), k) == None
  {
    assert Get([], k) == None;
    NotOfTheHead(k);
    hide Get, SetKey, SetIf, FormatUint, RefundKey;
    GetAfterSet([], "pg_status", Str("ok"), k);
    var p1 := SetKey([], "pg_status", Str("ok"));
    GetAfterSet(p1, "pg_payment_id", Str(FormatUint(r.paymentID)), k);
    var p2 := SetKey(p1, "pg_payment_id", Str(FormatUint(r.paymentID)));
    GetAfterSet(p2, "pg_can_reject", Str("1"), k);
    var p3 := SetKey(p2, "pg_can_reject", Str("1"));
    GetAfterSet(p3, "pg_payment_method", Str("bankcard"), k);
    var p4 := SetKey(p3, "pg_payment_method", Str("bankcard"));
    SetIfKeeps(p4, r.orderID != 0, "pg_order_id", FormatUint(r.orderID), k);
    var p5 := SetIf(p4, r.orderID != 0, "pg_order_id", FormatUint(r.orderID));
    GetAfterSet(p5, "pg_currency", Str(r.currency), k);
    var p6 := SetKey(p5, "pg_currency", Str(r.currency));
    GetAfterSet(p6, "pg_payment_status", Str(PayToFreedomStatus(r.status)), k);
    var p7 := SetKey(p6, "pg_payment_status", Str(PayToFreedomStatus(r.status)));
    GetAfterSet(p7, "pg_amount", Str(FormatUint(r.amount)), k);
    var p8 := SetKey(p7, "pg_amount", Str(FormatUint(r.amount)));
    GetAfterSet(p8, "pg_clearing_amount", Str(FormatUint(r.captured)), k);
    var p9 := SetKey(p8, "pg_clearing_amount", Str(FormatUint(r.captured)));
    GetAfterSet(p9, "pg_create_date", Str(fmt(r.createdAt)), k);
    var p10 := SetKey(p9, "pg_create_date", Str(fmt(r.createdAt)));
    if r.authorizedAt.Some? {
      GetAfterSet(p10, "pg_payment_date", Str(fmt(r.authorizedAt.value)), k);
    }
    var p11 := if r.authorizedAt.Some? then SetKey(p10, "pg_payment_date", Str(fmt(r.authorizedAt.value))) else p10;
    SetIfKeeps(p11, r.captured > 0, "pg_captured", "1", k);
  }

  /** The answer shows the refunded sum and lists every operation. */
  lemma RefundsAreShown(r: Record, fmt: TimeFormat)
    ensures var ps := StatusFields(r, false, fmt);
            && Get(ps, "pg_revoked_amount")
               == (if r.refunded > 0 then Some(Str("-" + FormatUint(r.refunded))) else None)
            && ListedIn(ps) == RefundChildren(r.refunds, fmt)
  {
    hide RefundFields, HeadFields, TailFields, FormatUint, Get;
    HeadLacksRefunds(r, fmt, "pg_revoked_amount");
    HeadLacksRefunds(r, fmt, "pg_refund_payments");
    RevokedIsSet(HeadFields(r, fmt), r, fmt);
    ChildrenAreSet(HeadFields(r, fmt), r, fmt);
    TailKeepsRefunds(RefundFields(HeadFields(r, fmt), r, fmt), r, "pg_revoked_amount");
    TailKeepsRefunds(RefundFields(HeadFields(r, fmt), r, fmt), r, "pg_refund_payments");
  }

  lemma RevokedIsSet(head: seq<Pair>, r: Record, fmt: TimeFormat)
    requires Get(head, "pg_revoked_amount") == None
    ensures Get(RefundFields(head, r, fmt), "pg_revoked_amount")
         == (if r.refunded > 0 then Some(Str("-" + FormatUint(r.refunded))) else None)
  {
    hide Get, SetKey, FormatUint, RefundChildren;
    var revoked := SetIf(head, r.refunded > 0, "pg_revoked_amount", "-" + FormatUint(r.refunded));
    var group := Map(OrdMap([Pair("pg_refund_payment", List(RefundChildren(r.refunds, fmt)))]));
    GetAfterSet(head, "pg_revoked_amount", Str("-" + FormatUint(r.refunded)), "pg_revoked_amount");
    GetAfterSet(revoked, "pg_refund_payments", group, "pg_revoked_amount");
  }

  lemma ChildrenAreSet(head: seq<Pair>, r: Record, fmt: TimeFormat)
    requires Get(head, "pg_refund_payments") == None
    ensures ListedIn(RefundFields(head, r, fmt)) == RefundChildren(r.refunds, fmt)
  {
    var list := List(RefundChildren(r.refunds, fmt));
    var group := Map(OrdMap([Pair("pg_refund_payment", list)]));
    assert Get([Pair("pg_refund_payment", list)], "pg_refund_payment") == Some(list);
    hide Get, SetKey, FormatUint;
    var revoked := SetIf(head, r.refunded > 0, "pg_revoked_amount", "-" + FormatUint(r.refunded));
    SetIfKeeps(head, r.refunded > 0, "pg_revoked_amount", "-" + FormatUint(r.refunded), "pg_refund_payments");
    GetAfterSet(revoked, "pg_refund_payments", group, "pg_refund_payments");
  }

  /**
   * Over every interleaving, the refunded sum in the Freedom answer for a payment that nobody forces is the
   * sum of the successful refunds listed in the same answer: failed and pending ones add nothing.
   */
  lemma {:induction false} RevokedAmountIsListedSum(base: nat, events: seq<Event>, id: nat, fmt: TimeFormat)
    requires NeverForced(events, id) && id in Run(Start(base), events).store.byID
    requires KeepsOperations(Run(Start(base), events).store.byID[id].bank)
    ensures var r := Run(Start(base), events).store.byID[id];
            var ps := StatusFields(r, false, fmt);
            var sum := ListedSum(ListedIn(ps)) % TWO_64;
            && |ListedIn(ps)| == |r.refunds|
            && Get(ps, "pg_revoked_amount") == (if sum > 0 then Some(Str("-" + FormatUint(sum))) else None)
  {
    hide Run;
    hide StatusFields;
    hide Sound;
    hide Revoked;
    hide Get;
    var r := Run(Start(base), events).store.byID[id];
    RunIsSound(base, events, id);
    SoundMeans(r);
    RefundsAreShown(r, fmt);
    ChildrenReadBack(r.refunds, fmt);
  }
}
