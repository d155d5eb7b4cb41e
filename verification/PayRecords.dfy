/** What every change keeps true of one payment record, whatever runs beside it. */
module PayRecords {
  import opened Text
  import opened Decimal
  import opened Pay

  // ------------------------------------------------------------------- history

  /** History starts at the creation, every entry continues the one before it, and the last is the status. */
  ghost predicate Faithful(r: Record) {
    && r.history != []
    && r.history[0].from == None
    && (forall i :: 0 < i < |r.history| ==>
          r.history[i].from == Some(r.history[i - 1].to) && r.history[i].to != r.history[i - 1].to)
    && r.history[|r.history| - 1].to == r.status
  }

  function Entries(h: seq<HistoryEntry>, s: Status): nat {
    if h == [] then 0 else Entries(h[..|h| - 1], s) + (if h[|h| - 1].to == s then 1 else 0)
  }

  lemma EntriesAppend(h: seq<HistoryEntry>, e: HistoryEntry, s: Status)
    ensures Entries(h + [e], s) == Entries(h, s) + (if e.to == s then 1 else 0)
  {
    assert (h + [e])[..|h|] == h;
  }

  /** A record at NEW has never been anywhere else; any other was authorized at most once. */
  ghost predicate AuthorizedOnce(r: Record) {
    && Entries(r.history, Authorized) <= (if r.status == New || r.status == HoldPending then 0 else 1)
    && (r.status == New || r.status == HoldPending ==> |r.history| <= 1)
  }

  ghost predicate OwnReference(r: Record) {
    r.reference == REFERENCE_BASE + r.paymentID
  }

  // --------------------------------------------------------------------- money

  function Magnitude(op: RefundOp): int {
    if op.status == REFUND_SUCCESS then 0 - op.amount as int else 0
  }

  /** The sum of the magnitudes of the successful refund operations. */
  function Revoked(ops: seq<RefundOp>): int {
    if ops == [] then 0
    else Revoked(ops[..|ops| - 1]) + Magnitude(ops[|ops| - 1])
  }

  lemma RevokedAppend(ops: seq<RefundOp>, op: RefundOp)
    ensures Revoked(ops + [op]) == Revoked(ops) + Magnitude(op)
  {
    assert (ops + [op])[..|ops|] == ops;
  }

  predicate KeepsOperations(b: Bank) { b != Epay && b != Flitt }

  /** `Refunded` is the sum of the successful operations, in the arithmetic of a 64-bit `uint`. */
  ghost predicate Conserved(r: Record) {
    KeepsOperations(r.bank) ==> r.refunded == Revoked(r.refunds) % TWO_64
  }

  lemma SumWraps(total: int, refunded: uint64, delta: uint64)
    requires refunded == total % TWO_64
    ensures Add64(refunded, delta) == (total - Negated(delta)) % TWO_64
  {
    var q := total / TWO_64;
    assert total == q * TWO_64 + refunded;
    var carry := (refunded + delta) / TWO_64;
    var sum := total - Negated(delta);
    assert sum == Add64(refunded, delta) + (q + carry - (if delta <= TWO_63 then 0 else 1)) * TWO_64;
    RemainderIs(sum, q + carry - (if delta <= TWO_63 then 0 else 1), Add64(refunded, delta));
  }

  lemma RemainderIs(n: int, q: int, rest: uint64)
    requires n == rest + q * TWO_64
    ensures n % TWO_64 == rest
  {
  }

  // ---------------------------------------------------------------- the changes

  /** The changes made by calls of the service other than `ApplyForce`. */
  predicate ServiceChange(c: Change) {
    !c.Force? && (c.Transition? ==> c.to == Authorized || c.to == Cancelled)
  }

  /** Epay and Flitt refunds keep no operation list; only their own records receive them. */
  predicate Fits(c: Change, b: Bank) {
    c.AddRefund? ==> !KeepsOperations(b)
  }

  /** With forced changes about, only the history and the reference stay in order. */
  ghost predicate Sound(r: Record, forced: bool) {
    Faithful(r) && OwnReference(r) && (forced || (AuthorizedOnce(r) && Conserved(r)))
  }

  lemma FailedChangesNothing(r: Record, c: Change, now: int)
    ensures Changed(r, c, now).1.Some? ==> Changed(r, c, now).0 == r
  {
  }

  /** One update adds at most one entry, and adds it exactly when the status moves. */
  lemma {:induction false} HistoryGrowsWithStatus(r: Record, c: Change, now: int)
    ensures var r' := Changed(r, c, now).0;
            if r'.status == r.status then r'.history == r.history
            else exists why :: r'.history == r.history + [HistoryEntry(Some(r.status), r'.status, why)]
  {
    var o := Effect(r, c, now);
    assert o.rec.history == r.history && o.rec.status == r.status;
    var r' := Changed(r, c, now).0;
    if r'.status != r.status {
      assert r'.history == r.history + [HistoryEntry(Some(r.status), r'.status, o.reason)];
    }
  }

  /** Holds of forced changes too. */
  lemma ChangeKeepsFaithful(r: Record, c: Change, now: int)
    requires Faithful(r)
    ensures Faithful(Changed(r, c, now).0)
  {
    HistoryGrowsWithStatus(r, c, now);
    hide Changed;
    var r' := Changed(r, c, now).0;
    if r'.status != r.status {
      var why :| r'.history == r.history + [HistoryEntry(Some(r.status), r'.status, why)];
      assert forall i :: 0 <= i < |r.history| ==> r'.history[i] == r.history[i];
    }
  }

  /** Statuses with no way back to a hold or to its cancellation. */
  predicate Settled(s: Status) {
    s == Captured || s == PartialRefunded || s == Refunded || s == Failed
  }

  /** The only way into AUTHORIZED is the checked transition, and nothing goes back to NEW. */
  lemma StatusMoves(r: Record, c: Change, now: int)
    requires ServiceChange(c)
    ensures var s := Changed(r, c, now).0.status;
            && (s == Authorized && r.status != s ==> r.status == New || r.status == HoldPending)
            && (s == New || s == HoldPending ==> r.status == s)
            && (s == Cancelled && r.status != s ==> r.status == Authorized)
            && (Settled(r.status) ==> Settled(s))
  {
  }

  lemma ChangeKeepsAuthorizedOnce(r: Record, c: Change, now: int)
    requires ServiceChange(c) && AuthorizedOnce(r)
    ensures AuthorizedOnce(Changed(r, c, now).0)
  {
    HistoryGrowsWithStatus(r, c, now);
    StatusMoves(r, c, now);
    hide Changed;
    var r' := Changed(r, c, now).0;
    if r'.status != r.status {
      var why :| r'.history == r.history + [HistoryEntry(Some(r.status), r'.status, why)];
      EntriesAppend(r.history, HistoryEntry(Some(r.status), r'.status, why), Authorized);
    }
  }

  /** What no change ever writes; a hidden operation can only be revealed. */
  predicate SameIdentity(r: Record, r': Record) {
    && r'.bank == r.bank && r'.paymentID == r.paymentID && r'.orderID == r.orderID
    && r'.amount == r.amount && r'.currency == r.currency && r'.createdAt == r.createdAt
    && r'.epayID == r.epayID && r'.epayInvoiceID == r.epayInvoiceID
    && (r'.epayVisibleAt == r.epayVisibleAt || r'.epayVisibleAt == None)
  }

  lemma ClosureKeepsIdentity(r: Record, c: Change, now: int)
    ensures SameIdentity(r, Effect(r, c, now).rec)
  {
    match c
    case Transition(to, reason) =>
      match to { case Authorized => case Captured => case _ => }
    case AddRefundOp(_, _, _) =>
    case _ =>
  }

  lemma ChangeKeepsIdentity(r: Record, c: Change, now: int)
    ensures SameIdentity(r, Changed(r, c, now).0)
  {
    ClosureKeepsIdentity(r, c, now);
    hide Effect;
  }

  /** With a reference in place `ensureReference` writes nothing and `NextReference` is never asked. */
  lemma ReferenceIsNeverRenewed(r: Record, c: Change, now: int)
    requires OwnReference(r)
    ensures OwnReference(Changed(r, c, now).0)
    ensures Changed(r, EnsureReference, now) == (r, None)
  {
    assert r.reference != 0;
    ChangeKeepsIdentity(r, c, now);
  }

  /** How a Freedom refund moves the money: the operation is always listed, and counts only on success. */
  lemma RefundOpEffect(r: Record, c: Change, now: int)
    requires c.AddRefundOp?
    ensures var r' := Changed(r, c, now).0;
            && r'.refunds
               == r.refunds + [RefundOp(c.refundID, REFERENCE_BASE + c.refundID, Negated(c.delta), c.outcome, now)]
            && r'.refunded == (if c.outcome == REFUND_SUCCESS then Add64(r.refunded, c.delta) else r.refunded)
            && r'.captured == r.captured && r'.bank == r.bank
            && r'.status == (if c.outcome != REFUND_SUCCESS then r.status
                             else if r'.refunded >= r'.captured then Refunded else PartialRefunded)
  {
    hide Add64;
    hide Negated;
  }

  /** How an Epay or Flitt refund moves the money. */
  lemma RefundEffect(r: Record, c: Change, now: int)
    requires c.AddRefund?
    ensures var r' := Changed(r, c, now).0;
            && r'.refunded == Add64(r.refunded, c.delta) && r'.captured == r.captured
            && r'.status == (if r'.refunded >= r'.captured then Refunded else PartialRefunded)
  {
    hide Add64;
  }

  lemma RefundSucceeds(r: Record, c: Change, now: int)
    requires c.AddRefundOp? || c.AddRefund?
    ensures Changed(r, c, now).1.None?
  {
    hide Add64;
    hide Negated;
  }

  lemma OtherEffect(r: Record, c: Change, now: int)
    requires ServiceChange(c) && !c.AddRefundOp? && !c.AddRefund?
    ensures var r' := Changed(r, c, now).0;
            && r'.refunded == r.refunded && r'.refunds == r.refunds
            && r'.captured == (if c.SetCaptured? then c.target else r.captured)
            && (c.SetCaptured? ==> r'.status == Captured)
            && (!c.SetCaptured? && r'.status != r.status ==>
                  r'.status == Authorized || r'.status == Cancelled || r'.status == Failed)
  {
  }

  lemma RefundOpKeepsConserved(r: Record, c: Change, now: int)
    requires c.AddRefundOp? && Conserved(r)
    ensures Conserved(Changed(r, c, now).0)
  {
    RefundOpEffect(r, c, now);
    hide Changed;
    var op := RefundOp(c.refundID, REFERENCE_BASE + c.refundID, Negated(c.delta), c.outcome, now);
    RevokedAppend(r.refunds, op);
    if KeepsOperations(r.bank) && c.outcome == REFUND_SUCCESS {
      SumWraps(Revoked(r.refunds), r.refunded, c.delta);
    }
  }

  lemma ChangeKeepsConserved(r: Record, c: Change, now: int)
    requires ServiceChange(c) && Fits(c, r.bank) && Conserved(r)
    ensures Conserved(Changed(r, c, now).0)
  {
    if c.AddRefundOp? {
      RefundOpKeepsConserved(r, c, now);
    } else {
      hide Revoked;
    }
  }

  lemma ChangeKeepsSound(r: Record, c: Change, now: int, forced: bool)
    requires Sound(r, forced)
    requires forced || (ServiceChange(c) && Fits(c, r.bank))
    ensures Sound(Changed(r, c, now).0, forced)
  {
    ChangeKeepsFaithful(r, c, now);
    ReferenceIsNeverRenewed(r, c, now);
    if !forced {
      ChangeKeepsAuthorizedOnce(r, c, now);
      ChangeKeepsConserved(r, c, now);
    }
  }

  /** What a constructor hands to `Create`. */
  predicate Fresh(r: Record) {
    && r.history == [] && r.refunds == [] && r.refunded == 0 && r.reference == REFERENCE_BASE + r.paymentID
    && (r.status == New || r.status == Authorized || r.status == Captured)
  }

  lemma BlueprintIsFresh(c: Creation, id: nat, now: int)
    requires Acceptable(c)
    ensures Fresh(Blueprint(c, id, now)) && Blueprint(c, id, now).paymentID == id
  {
  }

  lemma CreatedIsSound(r: Record, now: int)
    requires Fresh(r)
    ensures Sound(Created(r, now), false)
  {
    var e := HistoryEntry(None, r.status, "create");
    assert [] + [e] == [e];
    EntriesAppend([], e, Authorized);
    assert Revoked([]) == 0;
  }

  /** When the sum fits the type, `Refunded` is that sum and not just its remainder. */
  lemma RefundedIsTheSum(r: Record)
    requires Conserved(r) && KeepsOperations(r.bank)
    ensures r.refunded == Revoked(r.refunds) <==> 0 <= Revoked(r.refunds) < TWO_64
  {
    hide Revoked;
  }

  lemma SoundMeans(r: Record)
    requires Sound(r, false)
    ensures Entries(r.history, Authorized) <= 1
    ensures r.status == New || r.status == HoldPending ==> Entries(r.history, Authorized) == 0
    ensures KeepsOperations(r.bank) ==> r.refunded == Revoked(r.refunds) % TWO_64
    ensures KeepsOperations(r.bank) ==> (r.refunded == Revoked(r.refunds) <==> 0 <= Revoked(r.refunds) < TWO_64)
  {
    if KeepsOperations(r.bank) {
      RefundedIsTheSum(r);
    }
  }
}
