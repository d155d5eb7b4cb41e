/** The service as a table: who may call what on which payment, and what a call that is let through does. */
module PayOutcomes {
  import opened Text
  import opened Pay
  import opened PayStore
  import opened PayRecords

  datatype Sums = Sums(status: Status, captured: uint64, refunded: uint64)

  function SumsOf(r: Record): Sums { Sums(r.status, r.captured, r.refunded) }

  predicate Permitted(op: Op, r: Record) {
    var back := r.status == Captured || r.status == PartialRefunded;
    match op
    case Hold => r.status == New || r.status == HoldPending
    case Wallet(_) => r.status == New || r.status == HoldPending
    case Capture(_) => r.status == Authorized
    case Cancel => r.status == Authorized
    case Revoke(_, _) => back
    case EpayCharge(_) => r.bank == Epay && r.status == Authorized
    case EpayCancel => r.bank == Epay && r.status == Authorized
    case EpayRefund(_) => r.bank == Epay && back
    case EpayReveal => r.bank == Epay
    case FlittCapture(_) => r.bank == Flitt && r.status == Authorized
    case FlittReverse(_) => r.bank == Flitt && (r.status == Authorized || back)
    case FlittComplete3DS => r.bank == Flitt
    case ApplyForce(_) => true
  }

  /** Giving back `amount`, or all that is left when it is zero. */
  function GivenBack(r: Record, amount: uint64): Sums {
    var total := Add64(r.refunded, if amount == 0 then Sub64(r.captured, r.refunded) else amount);
    Sums(if total >= r.captured then Refunded else PartialRefunded, r.captured, total)
  }

  function After(op: Op, r: Record): Sums {
    var same := SumsOf(r);
    match op
    case Hold => same.(status := Authorized)
    case Wallet(_) => same.(status := Authorized)
    case Capture(amount) => Sums(Captured, if amount == 0 then r.amount else amount, r.refunded)
    case Cancel => same.(status := Cancelled)
    case Revoke(amount, outcome) => if outcome == REFUND_SUCCESS then GivenBack(r, amount) else same
    case EpayCharge(n) => Sums(Captured, if n <= 0 then r.amount else n, r.refunded)
    case EpayCancel => same.(status := Cancelled)
    case EpayRefund(n) => GivenBack(r, if n <= 0 then 0 else n)
    case EpayReveal => same
    case FlittCapture(amount) => Sums(Captured, if amount == 0 then r.amount else amount, r.refunded)
    case FlittReverse(amount) => if r.status == Authorized then same.(status := Cancelled) else GivenBack(r, amount)
    case FlittComplete3DS => if r.status == New then same.(status := Authorized) else same
    case ApplyForce(target) =>
      Sums(target, if target == Captured && r.captured == 0 then r.amount else r.captured,
           if target == Refunded then r.captured else r.refunded)
  }

  /** What a call may write: the one record, and for a Freedom refund the counter. */
  ghost predicate OnlyAt(st: Store, st': Store, id: nat) {
    && id in st.byID && id in st'.byID && st'.byID == st.byID[id := st'.byID[id]]
    && st'.byOrder == st.byOrder && st.nextID <= st'.nextID <= st.nextID + 1
  }

  /** A call that is let through moves the payment as the table says; one that is not changes nothing. */
  ghost predicate Tabled(st: Store, op: Op, id: nat, st': Store, err: Option<Error>) {
    if id in st.byID && Permitted(op, st.byID[id])
    then err.None? && OnlyAt(st, st', id) && SumsOf(st'.byID[id]) == After(op, st.byID[id])
    else err.Some? && st' == st
  }

  lemma OneUpdate(st: Store, id: nat, c: Change, now: int)
    requires id in st.byID
    ensures var (r, e) := Changed(st.byID[id], c, now);
            RunTasks(st, id, [Do(c)], now) == (st.(byID := st.byID[id := r]), e)
  {
    OneTask(st, id, c, now);
    hide Effect;
    hide Settle;
    hide RunTasks;
  }

  lemma TransitionMoves(r: Record, to: Status, reason: string, now: int)
    requires to == Authorized || to == Cancelled
    ensures var (r', e) := Changed(r, Transition(to, reason), now);
            if r.status in AllowedTransitions(to).value
            then e.None? && SumsOf(r') == SumsOf(r).(status := to)
            else e == Some(InvalidTransition) && r' == r
  {
  }

  lemma QuietMoves(r: Record, c: Change, now: int)
    requires c.SetKind? || c.EnsureReference?
    ensures SumsOf(Changed(r, c, now).0) == SumsOf(r) && Changed(r, c, now).1.None?
  {
  }

  lemma CaptureMoves(r: Record, target: uint64, reason: string, now: int)
    ensures var (r', e) := Changed(r, SetCaptured(target, reason), now);
            e.None? && SumsOf(r') == Sums(Captured, target, r.refunded)
  {
  }

  lemma RefundMoves(r: Record, c: Change, now: int)
    requires c.AddRefund?
    ensures var (r', e) := Changed(r, c, now);
            var total := Add64(r.refunded, c.delta);
            e.None? && SumsOf(r') == Sums(if total >= r.captured then Refunded else PartialRefunded, r.captured, total)
  {
    RefundEffect(r, c, now);
    hide Add64;
  }

  lemma CapturingCalls(st: Store, op: Op, id: nat, now: int)
    requires op.Capture? || op.EpayCharge? || op.FlittCapture?
    ensures var (st', err) := Perform(st, op, id, now); Tabled(st, op, id, st', err)
  {
    if id in st.byID && Permitted(op, st.byID[id]) {
      var r := st.byID[id];
      var target := After(op, r).captured;
      var reason := if op.Capture? then "capture" else if op.EpayCharge? then "epay charge" else "flitt capture";
      OneUpdate(st, id, SetCaptured(target, reason), now);
      CaptureMoves(r, target, reason, now);
      hide RunTasks;
    }
  }

  lemma CancellingCalls(st: Store, op: Op, id: nat, now: int)
    requires op.Cancel? || op.EpayCancel?
    ensures var (st', err) := Perform(st, op, id, now); Tabled(st, op, id, st', err)
  {
    if id in st.byID && Permitted(op, st.byID[id]) {
      var reason := if op.Cancel? then "cancel" else "epay cancel";
      OneUpdate(st, id, Transition(Cancelled, reason), now);
      TransitionMoves(st.byID[id], Cancelled, reason, now);
      hide RunTasks;
    }
  }

  lemma RevokeCalls(st: Store, op: Op, id: nat, now: int)
    requires op.Revoke?
    ensures var (st', err) := Perform(st, op, id, now); Tabled(st, op, id, st', err)
  {
    if id in st.byID && Permitted(op, st.byID[id]) {
      var r := st.byID[id];
      var delta := if op.amount == 0 then Sub64(r.captured, r.refunded) else op.amount;
      var c := AddRefundOp(delta, st.nextID + 1, op.outcome);
      RefundTask(st, id, delta, op.outcome, now);
      RefundOpEffect(r, c, now);
      RefundSucceeds(r, c, now);
      hide Effect;
      hide Settle;
      hide RunTasks;
      hide Add64;
    }
  }

  lemma EpayRefundCalls(st: Store, op: Op, id: nat, now: int)
    requires op.EpayRefund?
    ensures var (st', err) := Perform(st, op, id, now); Tabled(st, op, id, st', err)
  {
    if id in st.byID && Permitted(op, st.byID[id]) {
      var r := st.byID[id];
      var delta := Requested(op.intAmount, Sub64(r.captured, r.refunded));
      var c := AddRefund(delta, "epay refund full", "epay refund partial");
      OneUpdate(st, id, c, now);
      RefundMoves(r, c, now);
      hide RunTasks;
      hide Add64;
    }
  }

  lemma FlittReverseCalls(st: Store, op: Op, id: nat, now: int)
    requires op.FlittReverse?
    ensures var (st', err) := Perform(st, op, id, now); Tabled(st, op, id, st', err)
  {
    if id in st.byID && Permitted(op, st.byID[id]) {
      var r := st.byID[id];
      if r.status == Authorized {
        OneUpdate(st, id, Transition(Cancelled, "flitt cancel"), now);
        TransitionMoves(r, Cancelled, "flitt cancel", now);
      } else {
        var delta := if op.amount == 0 then Sub64(r.captured, r.refunded) else op.amount;
        var c := AddRefund(delta, "flitt refund full", "flitt refund partial");
        OneUpdate(st, id, c, now);
        RefundMoves(r, c, now);
      }
      hide RunTasks;
      hide Add64;
    }
  }

  lemma {:induction false} AuthorizingStep(st: Store, id: nat, reason: string, rest: seq<Task>, now: int)
    requires id in st.byID && forall k :: 0 <= k < |rest| ==> Neutral(rest[k])
    ensures var (st', err) := RunTasks(st, id, [Do(Transition(Authorized, reason))] + rest, now);
            if st.byID[id].status == New || st.byID[id].status == HoldPending
            then err.None? && OnlyAt(st, st', id) && SumsOf(st'.byID[id]) == SumsOf(st.byID[id]).(status := Authorized)
            else err.Some? && st' == st
  {
    var c := Transition(Authorized, reason);
    FirstTask(st, id, c, rest, now);
    TransitionMoves(st.byID[id], Authorized, reason, now);
    var (r, e) := Changed(st.byID[id], c, now);
    hide Effect;
    hide Settle;
    assert st.byID[id := st.byID[id]] == st.byID;
    if e.None? { NeutralTasks(st.(byID := st.byID[id := r]), id, rest, now); }
    hide RunTasks;
  }

  predicate Neutral(t: Task) { t.Do? && (t.c.SetKind? || t.c.EnsureReference?) }

  lemma {:induction false} NeutralTasks(st: Store, id: nat, tasks: seq<Task>, now: int)
    requires id in st.byID && forall k :: 0 <= k < |tasks| ==> Neutral(tasks[k])
    ensures var (st', err) := RunTasks(st, id, tasks, now);
            err.None? && OnlyAt(st, st', id) && SumsOf(st'.byID[id]) == SumsOf(st.byID[id])
    decreases |tasks|
  {
    if tasks == [] {
      assert st.byID[id := st.byID[id]] == st.byID;
    } else {
      var c := tasks[0].c;
      QuietMoves(st.byID[id], c, now);
      FirstTask(st, id, c, tasks[1..], now);
      assert tasks == [Do(c)] + tasks[1..];
      var r := Changed(st.byID[id], c, now).0;
      hide Effect;
      hide Settle;
      NeutralTasks(st.(byID := st.byID[id := r]), id, tasks[1..], now);
      hide RunTasks;
    }
  }

  lemma HoldCalls(st: Store, op: Op, id: nat, now: int)
    requires op.Hold?
    ensures var (st', err) := Perform(st, op, id, now); Tabled(st, op, id, st', err)
  {
    if id in st.byID {
      AuthorizingStep(st, id, "hold", [Do(EnsureReference)], now);
      assert [Do(Transition(Authorized, "hold"))] + [Do(EnsureReference)]
          == [Do(Transition(Authorized, "hold")), Do(EnsureReference)];
      hide RunTasks;
    }
  }

  lemma WalletCalls(st: Store, op: Op, id: nat, now: int)
    requires op.Wallet?
    ensures var (st', err) := Perform(st, op, id, now); Tabled(st, op, id, st', err)
  {
    if id in st.byID {
      var first, last := [Do(Transition(Authorized, "wallet pay"))], [Do(EnsureReference)];
      var kinds := if op.kind != "" then [Do(SetKind(op.kind))] else [];
      AuthorizingStep(st, id, "wallet pay", kinds + last, now);
      assert first + (kinds + last) == first + kinds + last;
      hide RunTasks;
    }
  }

  lemma OtherCalls(st: Store, op: Op, id: nat, now: int)
    requires op.EpayReveal? || op.FlittComplete3DS?
    ensures var (st', err) := Perform(st, op, id, now); Tabled(st, op, id, st', err)
  {
    if id in st.byID {
      var r := st.byID[id];
      assert st.byID[id := r] == st.byID;
      if op.EpayReveal? {
        OneUpdate(st, id, Change.Reveal, now);
      } else if Permitted(op, r) && r.status == New {
        OneUpdate(st, id, Transition(Authorized, "flitt 3ds step2"), now);
        TransitionMoves(r, Authorized, "flitt 3ds step2", now);
      }
      hide RunTasks;
    }
  }

  lemma ForceCalls(st: Store, op: Op, id: nat, now: int)
    requires op.ApplyForce?
    ensures var (st', err) := Perform(st, op, id, now); Tabled(st, op, id, st', err)
  {
    if id in st.byID {
      var c := Force(op.target, "panel force");
      var rest := if op.target == Authorized || op.target == Captured then [Do(EnsureReference)] else [];
      FirstTask(st, id, c, rest, now);
      ForceMoves(st.byID[id], op.target, "panel force", now);
      hide Effect;
      hide Settle;
      NeutralTasks(st.(byID := st.byID[id := Changed(st.byID[id], c, now).0]), id, rest, now);
      hide RunTasks;
    }
  }

  lemma ForceMoves(r: Record, target: Status, reason: string, now: int)
    ensures var (r', e) := Changed(r, Force(target, reason), now);
            e.None? && SumsOf(r') == After(ApplyForce(target), r)
  {
  }

  /** Every call of the service, on every store: let through exactly as the table says, with its effect,
      or refused without any. */
  lemma EveryCallIsTabled(st: Store, op: Op, id: nat, now: int)
    ensures var (st', err) := Perform(st, op, id, now); Tabled(st, op, id, st', err)
  {
    hide Perform;
    hide Tabled;
    match op
    case Hold => HoldCalls(st, op, id, now);
    case Wallet(_) => WalletCalls(st, op, id, now);
    case Cancel => CancellingCalls(st, op, id, now);
    case EpayCancel => CancellingCalls(st, op, id, now);
    case Revoke(_, _) => RevokeCalls(st, op, id, now);
    case EpayRefund(_) => EpayRefundCalls(st, op, id, now);
    case FlittReverse(_) => FlittReverseCalls(st, op, id, now);
    case EpayReveal => OtherCalls(st, op, id, now);
    case FlittComplete3DS => OtherCalls(st, op, id, now);
    case ApplyForce(_) => ForceCalls(st, op, id, now);
    case _ => CapturingCalls(st, op, id, now);
  }

  // ------------------------------------------------------------- new payments

  function CardStatus(outcome: FlittOutcome): Status {
    match outcome
    case Approved => Authorized
    case Declined => Failed
    case InsufficientFunds => Failed
    case _ => New
  }

  /** Where a payment stands when its constructor has returned. */
  function Born(c: Creation): Sums
    requires Acceptable(c)
  {
    match c
    case EpayPayment(_, requires3DS) => Sums(if requires3DS then New else Authorized, 0, 0)
    case EpayDecline(_, _, _) => Sums(Failed, 0, 0)
    case EpayLate(e, captured, _) => if captured then Sums(Captured, e.amount, 0) else Sums(Authorized, 0, 0)
    case FlittDirect(_, _, _, _, outcome) => Sums(CardStatus(outcome), 0, 0)
    case FlittRecurring(_, _, _, _, outcome) => Sums(CardStatus(outcome), 0, 0)
    case _ => Sums(New, 0, 0)
  }

  lemma FirstChangeMoves(c: Creation, id: nat, now: int)
    requires Acceptable(c) && AfterCreate(c) != []
    ensures var (r, e) := Changed(Created(Blueprint(c, id, now), now), AfterCreate(c)[0], now);
            e.None? && SumsOf(r) == Born(c) && r.paymentID == id && |AfterCreate(c)| == 1
  {
    BlueprintWaits(c, id, now);
    hide Blueprint;
    MovesFromNew(Created(Blueprint(c, id, now), now), AfterCreate(c)[0], now);
    hide Effect;
    hide Settle;
  }

  lemma BlueprintWaits(c: Creation, id: nat, now: int)
    requires Acceptable(c) && AfterCreate(c) != []
    ensures var r := Created(Blueprint(c, id, now), now); r.paymentID == id && SumsOf(r) == Sums(New, 0, 0)
  {
  }

  lemma MovesFromNew(r: Record, c: Change, now: int)
    requires SumsOf(r) == Sums(New, 0, 0)
    requires c.EpayDeclined? || c.FlittDeclined? || c.Flitt3DS? || (c.Transition? && c.to == Authorized)
    ensures var (r', e) := Changed(r, c, now);
            && e.None? && r'.paymentID == r.paymentID
            && SumsOf(r') == Sums(if c.Transition? then Authorized else if c.Flitt3DS? then New else Failed, 0, 0)
  {
  }

  lemma BlueprintStands(c: Creation, id: nat, now: int)
    requires Acceptable(c)
    ensures AfterCreate(c) == [] ==> SumsOf(Created(Blueprint(c, id, now), now)) == Born(c)
  {
  }

  /** A constructor refuses bad input without a trace; otherwise it adds one payment, under the next number, as born. */
  lemma {:induction false} EveryCreationIsTabled(st: Store, c: Creation, now: int)
    requires forall id :: id in st.byID ==> id <= st.nextID
    ensures var (st', err) := CreatePayment(st, c, now);
            if !Acceptable(c) then st' == st && err == Some(BadInput)
            else
              var id := st.nextID + 1;
              && st'.nextID == id && id !in st.byID && id in st'.byID && st'.byID == st.byID[id := st'.byID[id]]
              && st'.byID[id].paymentID == id && SumsOf(st'.byID[id]) == Born(c) && err == Verdict(c)
  {
    hide Blueprint;
    hide AfterCreate;
    hide Born;
    hide RunTasks;
    hide Effect;
    hide Settle;
    if Acceptable(c) {
      var id := st.nextID + 1;
      var rec := Blueprint(c, id, now);
      BlueprintStands(c, id, now);
      BlueprintIsFresh(c, id, now);
      var created := StoreCreate(st.(nextID := id), rec, now);
      if AfterCreate(c) == [] {
        assert DoAll(AfterCreate(c)) == [];
        NoTask(created, id, now);
      } else {
        FirstChangeMoves(c, id, now);
        assert DoAll(AfterCreate(c)) == [Do(AfterCreate(c)[0])];
        OneUpdate(created, id, AfterCreate(c)[0], now);
      }
    }
  }
}
