/** Card payments of three banks over one record, and the changes that service calls make to it. */
module Pay {
  import opened Text
  import opened Decimal

  datatype Bank = NoBank | Freedom | Epay | Flitt

  datatype Status = New | HoldPending | Authorized | Captured | Cancelled | Refunded | PartialRefunded | Failed

  datatype Error = NotFound | InvalidTransition | InvalidState | AlreadyAuthorized | BadInput | FlittDeclinedError

  /** Go's `uint` on a 64-bit machine. */
  type uint64 = x: int | 0 <= x < TWO_64

  function Add64(a: uint64, b: uint64): uint64 { (a + b) % TWO_64 }

  function Sub64(a: uint64, b: uint64): uint64 { (a - b) % TWO_64 }

  const TWO_63: int := 0x8000_0000_0000_0000

  /** Go's `int` on a 64-bit machine. */
  type int64 = x: int | -TWO_63 <= x < TWO_63

  /** `-int(delta)`: both the conversion and the negation wrap around in two's complement. */
  function Negated(delta: uint64): int64 {
    if delta <= TWO_63 then 0 - delta as int else TWO_64 - delta
  }

  datatype HistoryEntry = HistoryEntry(from: Option<Status>, to: Status, reason: string)

  datatype RefundOp = RefundOp(paymentID: nat, reference: nat, amount: int64, status: string, date: int)

  const REFUND_SUCCESS := "success"

  /** The fields of `pay.Record` that the modelled code reads or writes; a zero time is None. */
  datatype Record = Record(
    bank: Bank, paymentID: nat, orderID: nat, kind: string,
    amount: uint64, currency: string, captured: uint64, refunded: uint64, reference: nat,
    cardPAN: string, cardToken: string, userEmail: string, userPhone: string,
    epayID: string, epayInvoiceID: string, epayDeclineCode: int, epayDeclineReason: string,
    epayVisibleAt: Option<int>, flittACSURL: string,
    refunds: seq<RefundOp>, status: Status, lastError: string, history: seq<HistoryEntry>,
    createdAt: int, authorizedAt: Option<int>, capturedAt: Option<int>)
  {
    /** The bank has performed the operation but does not show it in check-status yet. */
    predicate EpayHidden(now: int) {
      epayVisibleAt.Some? && now < epayVisibleAt.value
    }
  }

  /** None means that every status may move to the target. */
  function AllowedTransitions(target: Status): Option<set<Status>> {
    match target
    case Authorized => Some({New, HoldPending})
    case Captured => Some({Authorized})
    case Cancelled => Some({Authorized})
    case Refunded => Some({Captured, PartialRefunded})
    case PartialRefunded => Some({Captured, PartialRefunded})
    case _ => None
  }

  const REFERENCE_BASE: nat := 613554000000

  // ------------------------------------------------------ changes of one record

  /** What a closure given to `Update` does and returns. It may write the record even when it fails. */
  datatype Outcome = Outcome(rec: Record, to: Option<Status>, reason: string, err: Option<Error>)

  /** What `PayRepo.Update` makes of the outcome: the status moves and history grows only on a real change. */
  function Settle(r: Record, o: Outcome): (Record, Option<Error>) {
    if o.err.None? && o.to.Some? && o.to.value != r.status then
      var entry := HistoryEntry(Some(r.status), o.to.value, o.reason);
      (o.rec.(status := o.to.value, history := o.rec.history + [entry]), None)
    else (o.rec, o.err)
  }

  function UpdateRecord(r: Record, fn: Record -> Outcome): (Record, Option<Error>) {
    Settle(r, fn(r))
  }

  /** `NextReference`: some number made from the clock and a counter. */
  function NextReference(now: int): nat { now % 1_000_000_000 }

  function TransitionEffect(r: Record, allowed: Option<set<Status>>, to: Status, reason: string, now: int): Outcome {
    if allowed.Some? && r.status !in allowed.value then Outcome(r, Some(r.status), "", Some(InvalidTransition))
    else
      match to
      case Authorized =>
        Outcome(r.(authorizedAt := Some(now),
                   reference := if r.reference == 0 then NextReference(now) else r.reference),
                Some(to), reason, None)
      case Captured =>
        Outcome(r.(capturedAt := Some(now), captured := if r.captured == 0 then r.amount else r.captured),
                Some(to), reason, None)
      case _ => Outcome(r, Some(to), reason, None)
  }

  /** The closure inside `PayRepo.Transition`. */
  function TransitionFn(allowed: Option<set<Status>>, to: Status, reason: string, now: int): Record -> Outcome {
    (r: Record) => TransitionEffect(r, allowed, to, reason, now)
  }

  /** The closures that the service passes to the repository, by what they do. */
  datatype Change =
    | Transition(to: Status, reason: string)
    | SetCaptured(target: uint64, reason: string)
    | AddRefundOp(delta: uint64, refundID: nat, outcome: string)
    | AddRefund(delta: uint64, full: string, partial: string)
    | SetKind(kind: string)
    | EnsureReference
    | EpayDeclined(code: int, why: string)
    | FlittDeclined(why: string)
    | Flitt3DS
    | Reveal
    | Force(target1: Status, reason: string)

  function AfterRefund(r: Record, full: string, partial: string): Outcome {
    if r.refunded >= r.captured then Outcome(r, Some(Refunded), full, None)
    else Outcome(r, Some(PartialRefunded), partial, None)
  }

  function Effect(r: Record, c: Change, now: int): Outcome {
    match c
    case Transition(to, reason) => TransitionEffect(r, AllowedTransitions(to), to, reason, now)
    case SetCaptured(target, reason) => Outcome(r.(captured := target), Some(Captured), reason, None)
    case AddRefundOp(delta, refundID, outcome) =>
      var op := RefundOp(refundID, REFERENCE_BASE + refundID, Negated(delta), outcome, now);
      var r' := r.(refunds := r.refunds + [op]);
      if outcome != REFUND_SUCCESS then Outcome(r', Some(r.status), "revoke " + outcome, None)
      else AfterRefund(r'.(refunded := Add64(r.refunded, delta)), "revoke full", "revoke partial")
    case AddRefund(delta, full, partial) => AfterRefund(r.(refunded := Add64(r.refunded, delta)), full, partial)
    case SetKind(kind) => Outcome(r.(kind := kind), Some(r.status), "", None)
    case EnsureReference =>
      Outcome(r.(reference := if r.reference == 0 then REFERENCE_BASE + r.paymentID else r.reference),
              Some(r.status), "", None)
    case EpayDeclined(code, why) =>
      Outcome(r.(epayDeclineCode := code, epayDeclineReason := why), Some(Failed), "epay decline", None)
    case FlittDeclined(why) => Outcome(r.(lastError := why), Some(Failed), "flitt declined", None)
    case Flitt3DS => Outcome(r.(flittACSURL := "https://chaospay.local/3ds/challenge"), Some(r.status), "", None)
    case Reveal =>
      if r.bank != Epay then Outcome(r, None, "", Some(InvalidState))
      else Outcome(r.(epayVisibleAt := None), None, "", None)
    case Force(target, reason) =>
      Outcome(r.(captured := if target == Captured && r.captured == 0 then r.amount else r.captured,
                 refunded := if target == Refunded then r.captured else r.refunded),
              Some(target), reason, None)
  }

  function ChangeFn(c: Change, now: int): Record -> Outcome {
    (r: Record) => Effect(r, c, now)
  }

  /** One update of a stored record. */
  function Changed(r: Record, c: Change, now: int): (Record, Option<Error>) {
    Settle(r, Effect(r, c, now))
  }

  // --------------------------------------------------------- creating payments

  datatype FlittOutcome = Approved | Approved3DS | Declined3DS | Declined | InsufficientFunds | OtherOutcome

  datatype Creation =
    | HoldInit(orderID: nat, userID: nat, amount: uint64, currency: string, cardToken: string,
               email: string, phone: string)
    | Hosted(orderID: nat, amount: uint64, currency: string, email: string, phone: string)
    | Bind(orderID: nat, userID: nat)
    | EpayPayment(e: EpayInput, requires3DS: bool)
    | EpayDecline(e: EpayInput, code: int, why: string)
    | EpayLate(e: EpayInput, captured: bool, visibleAt: Option<int>)
    | FlittCheckout(orderID: nat, amount: uint64, currency: string, kind: string, email: string)
    | FlittDirect(orderID: nat, amount: uint64, currency: string, kind: string, outcome: FlittOutcome)
    | FlittRecurring(orderID: nat, amount: uint64, currency: string, rectoken: string, outcome: FlittOutcome)

  /** `kind` and `bindOnly` stand for what `buildEpayRecord` reads out of the payment type and the card flags. */
  datatype EpayInput = EpayInput(orderID: nat, amount: int64, currency: string, invoiceID: string,
                                 kind: string, bindOnly: bool, email: string, phone: string)

  predicate Acceptable(c: Creation) {
    match c
    case HoldInit(_, userID, amount, _, token, _, _) => token != "" && amount != 0 && userID != 0
    case Hosted(orderID, amount, _, _, _) => orderID != 0 && amount != 0
    case Bind(_, userID) => userID != 0
    case EpayPayment(e, _) => EpayAcceptable(e)
    case EpayDecline(e, _, _) => EpayAcceptable(e)
    case EpayLate(e, _, _) => EpayAcceptable(e)
    case FlittCheckout(orderID, amount, _, _, _) => amount != 0 && orderID != 0
    case FlittDirect(_, amount, _, _, _) => amount != 0
    case FlittRecurring(_, amount, _, rectoken, _) => amount != 0 && rectoken != ""
  }

  predicate EpayAcceptable(e: EpayInput) {
    e.amount >= 0 && (e.amount == 0 ==> e.bindOnly)
  }

  function DefaultStr(v: string, def: string): string { if v == "" then def else v }

  function Blank(bank: Bank, id: nat, orderID: nat, kind: string, amount: uint64, currency: string): Record {
    Record(bank, id, orderID, kind, amount, currency, 0, 0, REFERENCE_BASE + id,
           "", "", "", "", "", "", 0, "", None, "", [], New, "", [], 0, None, None)
  }

  const DEFAULT_PAN := "5483-18XX-XXXX-0293"
  const HOSTED_PAN := "5483-18XX-XXXX-"
  const HOSTED_TOKEN := "f0000000-0000-4000-8000-"
  const BIND_TOKEN := "mock-token-"
  const FLITT_PAN := "444455XXXXXX1111"
  const FLITT_TOKEN := "flitt-mock-rectoken-"

  function Hex(n: nat): string {
    var d := n % 16;
    (if n < 16 then "" else Hex(n / 16)) + [if d < 10 then Digit(d) else 'a' + (d - 10) as char]
  }

  function Padded(s: string, width: nat): string {
    if |s| >= width then s else Zeros(width - |s|) + s
  }

  function EpayRecord(e: EpayInput, id: nat): Record
    requires EpayAcceptable(e)
  {
    Blank(Epay, id, e.orderID, e.kind, e.amount, DefaultStr(e.currency, "KZT")).(
      epayID := "mock-epay-" + FormatUint(id), epayInvoiceID := e.invoiceID, cardPAN := "440043...2221",
      userEmail := e.email, userPhone := e.phone)
  }

  function FlittRecord(id: nat, orderID: nat, kind: string, amount: uint64, currency: string, token: string): Record {
    Blank(Flitt, id, orderID, kind, amount, DefaultStr(currency, "GEL")).(cardPAN := FLITT_PAN, cardToken := token)
  }

  /** The record that a constructor of the service hands to `Create`. */
  function Blueprint(c: Creation, id: nat, now: int): (r: Record)
    requires Acceptable(c)
    ensures r.paymentID == id && r.reference == REFERENCE_BASE + id
    ensures r.history == [] && r.refunds == [] && r.refunded == 0
  {
    match c
    case HoldInit(orderID, _, amount, currency, token, email, phone) =>
      Blank(NoBank, id, orderID, "card", amount, DefaultStr(currency, "KZT")).(
        cardToken := token, cardPAN := DEFAULT_PAN, userEmail := email, userPhone := phone)
    case Hosted(orderID, amount, currency, email, phone) =>
      Blank(NoBank, id, orderID, "hosted", amount, DefaultStr(currency, "KZT")).(
        cardToken := HOSTED_TOKEN + Padded(Hex(id), 12), cardPAN := HOSTED_PAN + Padded(FormatUint(id % 10000), 4),
        userEmail := email, userPhone := phone)
    case Bind(orderID, _) =>
      Blank(NoBank, id, orderID, "bind", 0, "KZT").(cardToken := BIND_TOKEN + FormatUint(id), cardPAN := DEFAULT_PAN)
    case EpayPayment(e, _) => EpayRecord(e, id)
    case EpayDecline(e, _, _) => EpayRecord(e, id)
    case EpayLate(e, captured, visibleAt) =>
      var r := EpayRecord(e, id).(epayVisibleAt := visibleAt, status := Authorized, authorizedAt := Some(now));
      if captured then r.(status := Captured, capturedAt := Some(now), captured := r.amount) else r
    case FlittCheckout(orderID, amount, currency, kind, email) =>
      FlittRecord(id, orderID, kind, amount, currency, FLITT_TOKEN + FormatUint(id)).(userEmail := email)
    case FlittDirect(orderID, amount, currency, kind, _) =>
      FlittRecord(id, orderID, kind, amount, currency, FLITT_TOKEN + FormatUint(id))
    case FlittRecurring(orderID, amount, currency, rectoken, _) =>
      FlittRecord(id, orderID, "flitt_recurring", amount, currency, rectoken)
  }

  /** The updates that a constructor makes right after `Create`. */
  function AfterCreate(c: Creation): seq<Change> {
    match c
    case EpayPayment(_, requires3DS) => if requires3DS then [] else [Transition(Authorized, "epay authorize")]
    case EpayDecline(_, code, why) => [EpayDeclined(code, why)]
    case FlittDirect(_, _, _, _, outcome) => FlittOutcomeChanges(outcome)
    case FlittRecurring(_, _, _, _, outcome) => FlittOutcomeChanges(outcome)
    case _ => []
  }

  /** `applyFlittOutcome`. */
  function FlittOutcomeChanges(outcome: FlittOutcome): seq<Change> {
    match outcome
    case Approved => [Transition(Authorized, "flitt authorize")]
    case Approved3DS => [Flitt3DS]
    case Declined3DS => [Flitt3DS]
    case Declined => [FlittDeclined("declined")]
    case InsufficientFunds => [FlittDeclined("insufficient_funds")]
    case OtherOutcome => []
  }

  /** A declined Flitt card is created and marked, but the constructor still reports the decline. */
  function Verdict(c: Creation): Option<Error> {
    var declined := (outcome: FlittOutcome) => outcome == Declined || outcome == InsufficientFunds;
    match c
    case FlittDirect(_, _, _, _, outcome) => if declined(outcome) then Some(FlittDeclinedError) else None
    case FlittRecurring(_, _, _, _, outcome) => if declined(outcome) then Some(FlittDeclinedError) else None
    case _ => None
  }

  /** `PayRepo.Create` on the record. */
  function Created(r: Record, now: int): Record {
    r.(createdAt := now, history := r.history + [HistoryEntry(None, r.status, "create")])
  }

  // --------------------------------------------------------- service operations

  datatype Op =
    | Hold
    | Wallet(kind: string)
    | Capture(amount: uint64)
    | Cancel
    | Revoke(amount: uint64, outcome: string)
    | EpayCharge(intAmount: int64)
    | EpayCancel
    | EpayRefund(intAmount: int64)
    | EpayReveal
    | FlittCapture(amount: uint64)
    | FlittReverse(amount: uint64)
    | FlittComplete3DS
    | ApplyForce(target: Status)

  /** One repository update still to make; a Freedom refund first takes its own id from the counter. */
  datatype Task = Do(c: Change) | Refund(delta: uint64, outcome: string)

  /** What an operation decides from the snapshot it read: an answer at once, or updates to make. */
  datatype Plan = Answer(err: Option<Error>) | Go(tasks: seq<Task>)

  /** `uint(amount)` for a 64-bit `amount`, with the fallback for zero and negative ones. */
  function Requested(intAmount: int64, fallback: uint64): uint64 {
    if intAmount <= 0 then fallback else intAmount
  }

  function PlanOf(op: Op, r: Record): Plan {
    match op
    case Hold =>
      if r.status == Authorized || r.status == Captured then Answer(Some(AlreadyAuthorized))
      else Go([Do(Transition(Authorized, "hold")), Do(EnsureReference)])
    case Wallet(kind) =>
      Go([Do(Transition(Authorized, "wallet pay"))]
         + (if kind != "" then [Do(SetKind(kind))] else []) + [Do(EnsureReference)])
    case Capture(amount) =>
      if r.status != Authorized then Answer(Some(InvalidState))
      else Go([Do(SetCaptured(if amount == 0 then r.amount else amount, "capture"))])
    case Cancel =>
      if r.status != Authorized then Answer(Some(InvalidState)) else Go([Do(Transition(Cancelled, "cancel"))])
    case Revoke(amount, outcome) =>
      if r.status != Captured && r.status != PartialRefunded then Answer(Some(InvalidState))
      else Go([Refund(if amount == 0 then Sub64(r.captured, r.refunded) else amount, outcome)])
    case EpayCharge(n) =>
      if r.bank != Epay || r.status != Authorized then Answer(Some(InvalidState))
      else Go([Do(SetCaptured(Requested(n, r.amount), "epay charge"))])
    case EpayCancel =>
      if r.bank != Epay || r.status != Authorized then Answer(Some(InvalidState))
      else Go([Do(Transition(Cancelled, "epay cancel"))])
    case EpayRefund(n) =>
      if r.bank != Epay || (r.status != Captured && r.status != PartialRefunded) then Answer(Some(InvalidState))
      else Go([Do(AddRefund(Requested(n, Sub64(r.captured, r.refunded)), "epay refund full", "epay refund partial"))])
    case EpayReveal => Go([Do(Reveal)])
    case FlittCapture(amount) =>
      if r.bank != Flitt || r.status != Authorized then Answer(Some(InvalidState))
      else Go([Do(SetCaptured(if amount == 0 then r.amount else amount, "flitt capture"))])
    case FlittReverse(amount) =>
      if r.bank != Flitt then Answer(Some(InvalidState))
      else if r.status == Authorized then Go([Do(Transition(Cancelled, "flitt cancel"))])
      else if r.status == Captured || r.status == PartialRefunded then
        Go([Do(AddRefund(if amount == 0 then Sub64(r.captured, r.refunded) else amount,
                         "flitt refund full", "flitt refund partial"))])
      else Answer(Some(InvalidState))
    case FlittComplete3DS =>
      if r.bank != Flitt then Answer(Some(InvalidState))
      else if r.status != New then Answer(None)
      else Go([Do(Transition(Authorized, "flitt 3ds step2"))])
    case ApplyForce(target) =>
      Go([Do(Force(target, "panel force"))]
         + (if target == Authorized || target == Captured then [Do(EnsureReference)] else []))
  }
}
